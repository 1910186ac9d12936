/**
 * The notification loop of `main`: how each connection notification is
 * answered, and the state of the run after a sequence of them.
 */
module Policy {
  import opened Wrappers
  import opened Report
  import opened Session

  datatype Notification = Disconnection | Reconnection | Other(tag: string)

  /** How `main` ends: normally when the stream closes, with an error via `?`, or by a panic via `expect`. */
  datatype Exit = Completed | Failed(context: string) | Panicked(message: string)

  const ConnectFailedMessage := "Failed to connect to MQTT host"
  const SendFailedMessage := "Failed to send alive message"

  /** The status a notification makes the device announce, if any. */
  function Reaction(n: Notification): (r: Option<Status>)
    ensures r.Some? <==> n.Reconnection?
    ensures r.Some? ==> r.value == Reconnected
  {
    match n
    case Disconnection => None
    case Reconnection => Some(Reconnected)
    case Other(_) => None
  }

  /** The loop's state: still consuming notifications, or stopped with the given exit. */
  datatype Progress = Running(published: seq<Message>) | Halted(published: seq<Message>, exit: Exit)

  /**
   * Handling one notification. The publish call is numbered by the length of
   * the log, since every earlier call was accepted (a refused one halts).
   */
  function Step(p: Profile, serializes: Serializer, accepts: nat -> bool, s: Progress, n: Notification): Progress
  {
    match s
    case Halted(_, _) => s
    case Running(log) =>
      match Reaction(n)
      case None => s
      case Some(status) =>
        var m := Announce(p, status);
        if !serializes(m.report) then Halted(log, Failed(SerializeContext))
        else if !accepts(|log|) then Halted(log, Panicked(SendFailedMessage))
        else Running(log + [m])
  }

  /** Handling the notifications in order, from state `s`. */
  function Steps(p: Profile, serializes: Serializer, accepts: nat -> bool, s: Progress, ns: seq<Notification>): Progress
    decreases |ns|
  {
    if ns == [] then s
    else Step(p, serializes, accepts, Steps(p, serializes, accepts, s, ns[..|ns| - 1]), ns[|ns| - 1])
  }

  /** The number of `Reconnection` notifications in a sequence. */
  function Reconnections(ns: seq<Notification>): (k: nat)
    ensures k <= |ns|
  {
    if ns == [] then 0
    else Reconnections(ns[..|ns| - 1]) + (if ns[|ns| - 1].Reconnection? then 1 else 0)
  }

  /** The `Reconnection` notifications of a sequence, in order. */
  function OnlyReconnections(ns: seq<Notification>): (rs: seq<Notification>)
    ensures |rs| == Reconnections(ns)
    ensures forall i :: 0 <= i < |rs| ==> rs[i] == Reconnection
  {
    if ns == [] then []
    else OnlyReconnections(ns[..|ns| - 1]) + (if ns[|ns| - 1].Reconnection? then [Reconnection] else [])
  }

  /** `log` starts with `log0` and every later entry is `m`. */
  ghost predicate ExtendsWith(log: seq<Message>, log0: seq<Message>, m: Message)
  {
    |log0| <= |log| && log[..|log0|] == log0 &&
    forall i :: |log0| <= i < |log| ==> log[i] == m
  }

  /** Handling a sequence in two parts is handling the first part, then the second. */
  lemma {:induction false} StepsAppend(p: Profile, serializes: Serializer, accepts: nat -> bool,
                                       s: Progress, ns: seq<Notification>, later: seq<Notification>)
    ensures Steps(p, serializes, accepts, s, ns + later)
         == Steps(p, serializes, accepts, Steps(p, serializes, accepts, s, ns), later)
    decreases |later|
  {
    if later != [] {
      var all := ns + later;
      assert all[..|all| - 1] == ns + later[..|later| - 1];
      assert all[|all| - 1] == later[|later| - 1];
      StepsAppend(p, serializes, accepts, s, ns, later[..|later| - 1]);
    } else {
      assert ns + later == ns;
    }
  }

  /** Once the loop has stopped, no further notification is processed and nothing more is published. */
  lemma {:induction false} HaltedStays(p: Profile, serializes: Serializer, accepts: nat -> bool,
                                       log: seq<Message>, e: Exit, ns: seq<Notification>)
    ensures Steps(p, serializes, accepts, Halted(log, e), ns) == Halted(log, e)
    decreases |ns|
  {
    if ns != [] {
      HaltedStays(p, serializes, accepts, log, e, ns[..|ns| - 1]);
    }
  }

  /**
   * A `Reconnection` handled while running publishes exactly one `Reconnected`
   * report (or halts on a serialisation or publish failure, publishing nothing).
   */
  lemma ReconnectionPublishesOnce(p: Profile, serializes: Serializer, accepts: nat -> bool,
                                  s: Progress, ns: seq<Notification>, log: seq<Message>)
    requires Steps(p, serializes, accepts, s, ns) == Running(log)
    ensures Steps(p, serializes, accepts, s, ns + [Reconnection]) ==
      if !serializes(AliveReport(p.args.deviceName, Reconnected, p.startTime)) then Halted(log, Failed(SerializeContext))
      else if !accepts(|log|) then Halted(log, Panicked(SendFailedMessage))
      else Running(log + [Announce(p, Reconnected)])
  {
  }

  /** A `Disconnection` or any other notification publishes nothing and does not stop the loop. */
  lemma SilentNotificationIgnored(p: Profile, serializes: Serializer, accepts: nat -> bool,
                                  s: Progress, ns: seq<Notification>, n: Notification)
    requires !n.Reconnection?
    ensures Steps(p, serializes, accepts, s, ns + [n]) == Steps(p, serializes, accepts, s, ns)
  {
  }

  /** Only the `Reconnection` notifications of a stream influence the run. */
  lemma {:induction false} OnlyReconnectionsMatter(p: Profile, serializes: Serializer, accepts: nat -> bool,
                                                   s: Progress, ns: seq<Notification>)
    ensures Steps(p, serializes, accepts, s, ns) == Steps(p, serializes, accepts, s, OnlyReconnections(ns))
    decreases |ns|
  {
    if ns != [] {
      var init := ns[..|ns| - 1];
      var n := ns[|ns| - 1];
      OnlyReconnectionsMatter(p, serializes, accepts, s, init);
      if n.Reconnection? {
        assert OnlyReconnections(ns) == OnlyReconnections(init) + [n];
        assert (OnlyReconnections(init) + [n])[..|OnlyReconnections(init)|] == OnlyReconnections(init);
      } else {
        assert OnlyReconnections(ns) == OnlyReconnections(init);
      }
    }
  }

  /**
   * From a running state with log `log0`, the loop only appends `Reconnected`
   * publications, one per `Reconnection` while it runs; it can stop only on a
   * serialisation error or a refused publish.
   */
  lemma {:induction false} StepsTrace(p: Profile, serializes: Serializer, accepts: nat -> bool,
                                      log0: seq<Message>, ns: seq<Notification>)
    ensures ExtendsWith(Steps(p, serializes, accepts, Running(log0), ns).published, log0, Announce(p, Reconnected))
    ensures Steps(p, serializes, accepts, Running(log0), ns).Running? ==>
      |Steps(p, serializes, accepts, Running(log0), ns).published| == |log0| + Reconnections(ns)
    ensures Steps(p, serializes, accepts, Running(log0), ns).Halted? ==>
      |Steps(p, serializes, accepts, Running(log0), ns).published| <= |log0| + Reconnections(ns)
    ensures Steps(p, serializes, accepts, Running(log0), ns).Halted? ==>
      Steps(p, serializes, accepts, Running(log0), ns).exit in {Failed(SerializeContext), Panicked(SendFailedMessage)}
    decreases |ns|
  {
    if ns != [] {
      var init := ns[..|ns| - 1];
      StepsTrace(p, serializes, accepts, log0, init);
      var before := Steps(p, serializes, accepts, Running(log0), init);
      var after := Step(p, serializes, accepts, before, ns[|ns| - 1]);
      if before.Running? && after.Running? && after.published != before.published {
        assert after.published == before.published + [Announce(p, Reconnected)];
        assert after.published[..|log0|] == before.published[..|log0|];
      }
    }
  }
}
