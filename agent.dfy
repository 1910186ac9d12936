/**
 * The whole life of the process: build the last will, open the session,
 * announce `Alive`, then answer notifications until the stream ends or a
 * step fails.
 */
module Agent {
  import opened Wrappers
  import opened Report
  import opened Session
  import opened Client
  import opened Policy

  /** What the transport does: whether `MqttClient::start` succeeds, and which publish calls it accepts. */
  datatype Transport = Transport(connects: bool, accepts: nat -> bool)

  /** A run as observed from outside: how it ended, the session it opened, the publish calls that were accepted. */
  datatype Outcome = Outcome(exit: Exit, session: Option<MqttOptions>, published: seq<Message>)

  /** The run `main` performs, for a profile, a serializer, a transport and a notification stream. */
  function Lifetime(p: Profile, serializes: Serializer, t: Transport, ns: seq<Notification>): Outcome
  {
    match LastWillFor(p.args, p.startTime, serializes)
    case Err(context) => Outcome(Failed(context), None, [])
    case Ok(will) =>
      var options := SessionOptions(p.args, will);
      if !t.connects then Outcome(Panicked(ConnectFailedMessage), None, [])
      else
        var alive := Announce(p, Alive);
        if !serializes(alive.report) then Outcome(Failed(SerializeContext), Some(options), [])
        else if !t.accepts(0) then Outcome(Panicked(SendFailedMessage), Some(options), [])
        else
          match Steps(p, serializes, t.accepts, Running([alive]), ns)
          case Running(log) => Outcome(Completed, Some(options), log)
          case Halted(log, e) => Outcome(e, Some(options), log)
  }

  /**
   * `main`: the client is null exactly when no session was opened; otherwise
   * it holds the options of the session and the log of accepted publications and retained
   * messages, as `Lifetime` describes them.
   */
  method Run(p: Profile, serializes: Serializer, t: Transport, notifications: seq<Notification>)
    returns (exit: Exit, client: MqttClient?)
    ensures exit == Lifetime(p, serializes, t, notifications).exit
    ensures client == null <==> Lifetime(p, serializes, t, notifications).session.None?
    ensures client != null ==> fresh(client) && client.Valid()
    ensures client != null ==> Some(client.options) == Lifetime(p, serializes, t, notifications).session
    ensures client != null ==> client.published == Lifetime(p, serializes, t, notifications).published
  {
    var lastWill := LastWillFor(p.args, p.startTime, serializes);
    if lastWill.Err? {
      return Failed(lastWill.context), null;
    }
    var options := SessionOptions(p.args, lastWill.value);
    if !t.connects {
      return Panicked(ConnectFailedMessage), null;
    }
    client := new MqttClient.Start(options, t.accepts);

    var alive := AliveReport(p.args.deviceName, Alive, p.startTime);
    if !serializes(alive) {
      return Failed(SerializeContext), client;
    }
    var ok := client.Publish(p.args.topic, AtLeastOnce, true, alive);
    if !ok {
      return Panicked(SendFailedMessage), client;
    }

    ghost var start := Running([Announce(p, Alive)]);
    for i := 0 to |notifications|
      invariant fresh(client) && client.Valid()
      invariant client.options == options && client.accepts == t.accepts
      invariant client.attempts == |client.published|
      invariant Steps(p, serializes, t.accepts, start, notifications[..i]) == Running(client.published)
    {
      assert notifications[..i + 1] == notifications[..i] + [notifications[i]];
      ghost var log := client.published;
      match notifications[i]
      case Disconnection =>
        SilentNotificationIgnored(p, serializes, t.accepts, start, notifications[..i], Disconnection);
      case Reconnection =>
        ReconnectionPublishesOnce(p, serializes, t.accepts, start, notifications[..i], log);
        var reconnected := AliveReport(p.args.deviceName, Reconnected, p.startTime);
        if !serializes(reconnected) {
          Finish(p, serializes, t.accepts, start, notifications, i + 1, log, Failed(SerializeContext));
          return Failed(SerializeContext), client;
        }
        ok := client.Publish(p.args.topic, AtLeastOnce, true, reconnected);
        if !ok {
          Finish(p, serializes, t.accepts, start, notifications, i + 1, log, Panicked(SendFailedMessage));
          return Panicked(SendFailedMessage), client;
        }
      case Other(tag) =>
        SilentNotificationIgnored(p, serializes, t.accepts, start, notifications[..i], Other(tag));
    }
    assert notifications[..|notifications|] == notifications;
    exit := Completed;
  }

  /** A run that halted after a prefix of the stream ends halted on the whole stream. */
  lemma Finish(p: Profile, serializes: Serializer, accepts: nat -> bool, s: Progress,
               ns: seq<Notification>, k: nat, log: seq<Message>, e: Exit)
    requires k <= |ns|
    requires Steps(p, serializes, accepts, s, ns[..k]) == Halted(log, e)
    ensures Steps(p, serializes, accepts, s, ns) == Halted(log, e)
  {
    assert ns == ns[..k] + ns[k..];
    StepsAppend(p, serializes, accepts, s, ns[..k], ns[k..]);
    HaltedStays(p, serializes, accepts, log, e, ns[k..]);
  }

  /**
   * The last will is built before the session and is attached to it; without
   * a serialisable last will no session is opened and nothing is published.
   */
  lemma SessionCarriesLastWill(p: Profile, serializes: Serializer, t: Transport, ns: seq<Notification>)
    ensures Lifetime(p, serializes, t, ns).session.Some? <==>
      LastWillFor(p.args, p.startTime, serializes).Ok? && t.connects
    ensures Lifetime(p, serializes, t, ns).session.Some? ==>
      Lifetime(p, serializes, t, ns).session.value == SessionOptions(p.args, LastWillFor(p.args, p.startTime, serializes).value)
    ensures LastWillFor(p.args, p.startTime, serializes).Err? ==>
      Lifetime(p, serializes, t, ns).exit == Failed(SerializeContext)
    ensures Lifetime(p, serializes, t, ns).session.None? ==> Lifetime(p, serializes, t, ns).published == []
  {
  }

  /**
   * The first publication is the one `Alive` report, made after the session
   * opened; every later one is a `Reconnected` report. The `Alive` report is
   * published exactly when the session opens, it serialises and the first
   * publish call is accepted, whatever happens afterwards.
   */
  lemma AliveFirst(p: Profile, serializes: Serializer, t: Transport, ns: seq<Notification>)
    ensures Lifetime(p, serializes, t, ns).published != [] ==>
      Lifetime(p, serializes, t, ns).session.Some? &&
      Lifetime(p, serializes, t, ns).published[0] == Announce(p, Alive)
    ensures Lifetime(p, serializes, t, ns).published != [] <==>
      Lifetime(p, serializes, t, ns).session.Some? && serializes(Announce(p, Alive).report) && t.accepts(0)
    ensures forall i :: 1 <= i < |Lifetime(p, serializes, t, ns).published| ==>
      Lifetime(p, serializes, t, ns).published[i] == Announce(p, Reconnected)
  {
    StepsTrace(p, serializes, t.accepts, [Announce(p, Alive)], ns);
  }

  /**
   * Every report the run publishes, and the report in its last will, carries
   * the device name and the one start time; every publication is on the
   * configured topic, at least once and retained.
   */
  lemma StartTimeStable(p: Profile, serializes: Serializer, t: Transport, ns: seq<Notification>)
    ensures forall m :: m in Lifetime(p, serializes, t, ns).published ==>
      m.report.startTime == p.startTime && m.report.unitName == p.args.deviceName &&
      m.topic == p.args.topic && m.qos == AtLeastOnce && m.retain
    ensures Lifetime(p, serializes, t, ns).session.Some? ==>
      Lifetime(p, serializes, t, ns).session.value.lastWill.Some? &&
      Lifetime(p, serializes, t, ns).session.value.lastWill.value.message ==
        AliveReport(p.args.deviceName, Dead, p.startTime)
  {
    AliveFirst(p, serializes, t, ns);
  }

  /** A run that completes publishes one report for startup and one per `Reconnection`. */
  lemma PublishCount(p: Profile, serializes: Serializer, t: Transport, ns: seq<Notification>)
    requires Lifetime(p, serializes, t, ns).exit == Completed
    ensures |Lifetime(p, serializes, t, ns).published| == 1 + Reconnections(ns)
  {
    StepsTrace(p, serializes, t.accepts, [Announce(p, Alive)], ns);
  }

  /**
   * The retained report the agent's publications leave on the topic is the latest report
   * published; after a completed run it is `Reconnected` if any reconnection
   * occurred and `Alive` otherwise.
   */
  lemma RetainedAfterRun(p: Profile, serializes: Serializer, t: Transport, ns: seq<Notification>)
    ensures Lifetime(p, serializes, t, ns).published != [] ==>
      RetainedView(Lifetime(p, serializes, t, ns).published) ==
        map[p.args.topic := Lifetime(p, serializes, t, ns).published[|Lifetime(p, serializes, t, ns).published| - 1].report]
    ensures Lifetime(p, serializes, t, ns).exit == Completed ==>
      RetainedView(Lifetime(p, serializes, t, ns).published) ==
        map[p.args.topic := AliveReport(p.args.deviceName, if Reconnections(ns) > 0 then Reconnected else Alive, p.startTime)]
  {
    var r := Lifetime(p, serializes, t, ns);
    StartTimeStable(p, serializes, t, ns);
    AliveFirst(p, serializes, t, ns);
    if r.published != [] {
      forall i | 0 <= i < |r.published|
        ensures r.published[i].topic == p.args.topic && r.published[i].retain
      {
        assert r.published[i] in r.published;
      }
      RetainedIsLast(r.published, p.args.topic);
    }
    if r.exit == Completed {
      PublishCount(p, serializes, t, ns);
    }
  }

  /**
   * A run that fails or panics ignores the rest of the stream: it publishes
   * nothing more, whatever notifications would have followed.
   */
  lemma AbortIsFinal(p: Profile, serializes: Serializer, t: Transport, ns: seq<Notification>, later: seq<Notification>)
    requires Lifetime(p, serializes, t, ns).exit != Completed
    ensures Lifetime(p, serializes, t, ns + later) == Lifetime(p, serializes, t, ns)
  {
    var will := LastWillFor(p.args, p.startTime, serializes);
    if will.Ok? && t.connects && serializes(Announce(p, Alive).report) && t.accepts(0) {
      var start := Running([Announce(p, Alive)]);
      StepsAppend(p, serializes, t.accepts, start, ns, later);
      var mid := Steps(p, serializes, t.accepts, start, ns);
      HaltedStays(p, serializes, t.accepts, mid.published, mid.exit, later);
    }
  }
}
