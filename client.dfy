/**
 * The MQTT client handle `main` publishes through, together with what the
 * agent's own publish calls leave behind: the log of accepted publications and the retained
 * message per topic.
 */
module Client {
  import opened Report
  import opened Session

  /**
   * What a log of publications leaves retained: for each topic, the
   * report of the latest retained publication on it.
   */
  function RetainedView(log: seq<Message>): map<string, AliveReport>
  {
    if log == [] then map[]
    else
      var last := log[|log| - 1];
      var before := RetainedView(log[..|log| - 1]);
      if last.retain then before[last.topic := last.report] else before
  }

  /** When every publication is retained on one topic, exactly the latest one is retained. */
  lemma {:induction false} RetainedIsLast(log: seq<Message>, topic: string)
    requires log != []
    requires forall i :: 0 <= i < |log| ==> log[i].topic == topic && log[i].retain
    ensures RetainedView(log) == map[topic := log[|log| - 1].report]
  {
    var init := log[..|log| - 1];
    if init == [] {
      assert RetainedView(init) == map[];
    } else {
      RetainedIsLast(init, topic);
    }
  }

  class MqttClient {
    /** The options the session was opened with, last will included. */
    const options: MqttOptions
    /** Whether the transport accepts the n-th publish call (numbered from 0). */
    const accepts: nat -> bool
    /** Number of publish calls made so far. */
    var attempts: nat
    /** The publications the transport accepted, in order. */
    var published: seq<Message>
    /** The retained report per topic, as this session's accepted publications set it. */
    var retained: map<string, AliveReport>

    ghost predicate Valid()
      reads this
    {
      retained == RetainedView(published) && |published| <= attempts
    }

    /** Open a session (`MqttClient::start` that succeeded). */
    constructor Start(options: MqttOptions, accepts: nat -> bool)
      ensures Valid()
      ensures this.options == options && this.accepts == accepts
      ensures attempts == 0 && published == [] && retained == map[]
    {
      this.options := options;
      this.accepts := accepts;
      attempts := 0;
      published := [];
      retained := map[];
    }

    /**
     * One publish call. When the transport accepts it, the publication is
     * appended to the log and, if retained, replaces the topic's retained report.
     */
    method Publish(topic: string, qos: QoS, retain: bool, report: AliveReport) returns (ok: bool)
      requires Valid()
      modifies this
      ensures Valid()
      ensures ok == accepts(old(attempts)) && attempts == old(attempts) + 1
      ensures published == if ok then old(published) + [Message(topic, qos, retain, report)] else old(published)
      ensures retained == if ok && retain then old(retained)[topic := report] else old(retained)
    {
      ok := accepts(attempts);
      attempts := attempts + 1;
      if ok {
        var m := Message(topic, qos, retain, report);
        assert (published + [m])[..|published|] == published;
        published := published + [m];
        if retain {
          retained := retained[topic := report];
        }
      }
    }
  }
}
