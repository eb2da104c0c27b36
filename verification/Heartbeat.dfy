/** The client dispatcher's clock: heartbeats while the connection is idle, and the end of a connection idle for too
    long. */
module Heartbeat {

  datatype Options = Options(interval: nat, timeout: nat)

  /** What the dispatcher's wait returned, and the time it read. */
  datatype Event = Tick(now: nat) | Data(now: nat)

  /** `sent` counts the heartbeats since data last arrived. */
  datatype Clock = Clock(running: bool, lastActivity: nat, lastHeartbeat: nat, sent: nat)

  /** Idle time; the clock does not go backwards. */
  function Since(now: nat, then_: nat): nat { if now >= then_ then now - then_ else 0 }

  /** The timeout branch of the dispatcher's loop. */
  function OnTick(c: Clock, o: Options, now: nat): Clock
  {
    if o.timeout > 0 && Since(now, c.lastActivity) >= o.timeout then c.(running := false)
    else if o.interval > 0 && Since(now, c.lastActivity) >= o.interval && Since(now, c.lastHeartbeat) >= o.interval
    then c.(lastHeartbeat := now, sent := c.sent + 1)
    else c
  }

  function Next(c: Clock, o: Options, e: Event): Clock
  {
    if !c.running then c
    else
      match e
      case Tick(now) => OnTick(c, o, now)
      case Data(now) => c.(lastActivity := now, sent := 0)
  }

  function Exec(c: Clock, o: Options, events: seq<Event>): Clock
  {
    if |events| == 0 then c else Next(Exec(c, o, events[..|events| - 1]), o, events[|events| - 1])
  }

  function Start(now: nat): Clock { Clock(true, now, now, 0) }

  /** Times do not decrease, from `start` on. */
  predicate Ordered(events: seq<Event>, start: nat)
  {
    && (forall i :: 0 <= i < |events| ==> start <= events[i].now)
    && (forall i, j :: 0 <= i < j < |events| ==> events[i].now <= events[j].now)
  }

  /** When data last arrived, whatever was sent in between. */
  function LastData(events: seq<Event>, start: nat): nat
  {
    if |events| == 0 then start
    else
      match events[|events| - 1]
      case Data(now) => now
      case Tick(_) => LastData(events[..|events| - 1], start)
  }

  /** The i-th event finds the connection idle for too long. */
  predicate TooLong(events: seq<Event>, o: Options, start: nat, i: nat)
    requires i < |events|
  {
    events[i].Tick? && o.timeout > 0 && Since(events[i].now, LastData(events[..i], start)) >= o.timeout
  }

  // ---------------------------------------------------------------------------------------
  // The dispatcher's loop
  // ---------------------------------------------------------------------------------------

  method DispatcherClock(o: Options, start: nat, events: seq<Event>) returns (c: Clock)
    ensures c == Exec(Start(start), o, events)
  {
    var running, lastActivity, lastHeartbeat, sent := true, start, start, 0;
    var i := 0;
    while running && i < |events|
      invariant i <= |events|
      invariant Clock(running, lastActivity, lastHeartbeat, sent) == Exec(Start(start), o, events[..i])
      decreases |events| - i
    {
      assert events[..i + 1][..i] == events[..i];
      match events[i] {
        case Tick(now) =>
          if o.timeout > 0 && Since(now, lastActivity) >= o.timeout {
            running := false;
          } else if o.interval > 0 && Since(now, lastActivity) >= o.interval
              && Since(now, lastHeartbeat) >= o.interval {
            lastHeartbeat := now;
            sent := sent + 1;
          }
        case Data(now) =>
          lastActivity := now;
          sent := 0;
      }
      i := i + 1;
    }
    c := Clock(running, lastActivity, lastHeartbeat, sent);
    if !running { StaysStopped(Start(start), o, events, i); } else { assert events[..i] == events; }
  }

  lemma {:induction false} StaysStopped(c: Clock, o: Options, events: seq<Event>, i: nat)
    requires i <= |events| && !Exec(c, o, events[..i]).running
    ensures Exec(c, o, events) == Exec(c, o, events[..i])
    decreases |events|
  {
    if i < |events| {
      var before := events[..|events| - 1];
      assert before[..i] == events[..i];
      StaysStopped(c, o, before, i);
    } else {
      assert events[..i] == events;
    }
  }

  // ---------------------------------------------------------------------------------------
  // Bounds
  // ---------------------------------------------------------------------------------------

  /** Heartbeats since the last data are an interval apart, and the last was sent before the timeout. */
  predicate Spaced(c: Clock, o: Options, now: nat)
  {
    && c.lastActivity <= now && c.lastHeartbeat <= now
    && (c.sent > 0 ==> c.lastActivity + c.sent * o.interval <= c.lastHeartbeat
                       && (o.timeout > 0 ==> c.lastHeartbeat < c.lastActivity + o.timeout))
  }

  lemma TickSpaced(c: Clock, o: Options, before: nat, now: nat)
    requires Spaced(c, o, before) && before <= now
    ensures Spaced(OnTick(c, o, now), o, now)
  {
    assert (c.sent + 1) * o.interval == c.sent * o.interval + o.interval;
  }

  lemma {:induction false} AlwaysSpaced(o: Options, start: nat, events: seq<Event>)
    requires Ordered(events, start)
    ensures Spaced(Exec(Start(start), o, events), o, if |events| == 0 then start else events[|events| - 1].now)
  {
    if |events| > 0 {
      var before, e := events[..|events| - 1], events[|events| - 1];
      AlwaysSpaced(o, start, before);
      var c := Exec(Start(start), o, before);
      var t := if |before| == 0 then start else before[|before| - 1].now;
      if c.running && e.Tick? { TickSpaced(c, o, t, e.now); }
    }
  }

  /** With a timeout, the k heartbeats sent since data last arrived satisfy k * interval < timeout, in any run. */
  lemma HeartbeatBound(o: Options, start: nat, events: seq<Event>)
    requires Ordered(events, start) && o.timeout > 0
    ensures Exec(Start(start), o, events).sent * o.interval < o.timeout
  {
    AlwaysSpaced(o, start, events);
  }

  lemma {:induction false} ActivityIsData(o: Options, start: nat, events: seq<Event>)
    requires Exec(Start(start), o, events).running
    ensures Exec(Start(start), o, events).lastActivity == LastData(events, start)
  {
    if |events| > 0 { ActivityIsData(o, start, events[..|events| - 1]); }
  }

  // ---------------------------------------------------------------------------------------
  // When heartbeats are sent
  // ---------------------------------------------------------------------------------------

  /** The i-th event made the dispatcher send a heartbeat. */
  predicate BeatAt(events: seq<Event>, o: Options, start: nat, i: nat)
    requires i < |events|
  {
    Exec(Start(start), o, events[..i + 1]).sent > Exec(Start(start), o, events[..i]).sent
  }

  /** All heartbeats so far are at least an interval old. */
  predicate QuietSince(events: seq<Event>, o: Options, start: nat, now: nat)
  {
    forall j :: 0 <= j < |events| && BeatAt(events, o, start, j) ==> events[j].now + o.interval <= now
  }

  /** The time of the last heartbeat is that of the latest one sent, or the start if there was none. */
  predicate LatestBeat(events: seq<Event>, o: Options, start: nat, at: nat)
  {
    && (forall j :: 0 <= j < |events| && BeatAt(events, o, start, j) ==> events[j].now <= at)
    && (at == start || exists j :: 0 <= j < |events| && BeatAt(events, o, start, j) && events[j].now == at)
  }

  lemma BeatBefore(events: seq<Event>, o: Options, start: nat, n: nat, j: nat)
    requires j < n <= |events|
    ensures BeatAt(events[..n], o, start, j) == BeatAt(events, o, start, j)
  {
    assert events[..n][..j + 1] == events[..j + 1] && events[..n][..j] == events[..j];
  }

  lemma HeartbeatIsPast(o: Options, start: nat, events: seq<Event>)
    requires Ordered(events, start)
    ensures Exec(Start(start), o, events).lastHeartbeat <= if |events| == 0 then start else events[|events| - 1].now
  {
    AlwaysSpaced(o, start, events);
  }

  lemma {:induction false} LastHeartbeatIs(o: Options, start: nat, events: seq<Event>)
    requires Ordered(events, start)
    ensures LatestBeat(events, o, start, Exec(Start(start), o, events).lastHeartbeat)
  {
    if |events| > 0 {
      var before := events[..|events| - 1];
      LastHeartbeatIs(o, start, before);
      HeartbeatIsPast(o, start, before);
      assert events[..|events|] == events;
      OneMoreBeat(o, start, events, Exec(Start(start), o, before).lastHeartbeat,
                  Exec(Start(start), o, events).lastHeartbeat);
    }
  }

  /** One event moves the time of the latest heartbeat exactly if it is one. */
  lemma OneMoreBeat(o: Options, start: nat, events: seq<Event>, was: nat, at: nat)
    requires |events| > 0 && LatestBeat(events[..|events| - 1], o, start, was)
    requires var i := |events| - 1;
             if BeatAt(events, o, start, i) then at == events[i].now >= was else at == was
    ensures LatestBeat(events, o, start, at)
  {
    var last := |events| - 1;
    forall j | 0 <= j < |events| && BeatAt(events, o, start, j) ensures events[j].now <= at {
      if j < last { BeatBefore(events, o, start, last, j); }
    }
    if at != start && !BeatAt(events, o, start, last) { LatestStays(o, start, events, at); }
  }

  lemma LatestStays(o: Options, start: nat, events: seq<Event>, at: nat)
    requires |events| > 0 && LatestBeat(events[..|events| - 1], o, start, at) && at != start
    ensures exists j :: 0 <= j < |events| && BeatAt(events, o, start, j) && events[j].now == at
  {
    var last := |events| - 1;
    var j :| 0 <= j < last && BeatAt(events[..last], o, start, j) && events[..last][j].now == at;
    BeatBefore(events, o, start, last, j);
  }

  lemma {:induction false} DataFromStart(start: nat, events: seq<Event>)
    requires Ordered(events, start)
    ensures start <= LastData(events, start)
  {
    if |events| > 0 { DataFromStart(start, events[..|events| - 1]); }
  }

  lemma RunsUntil(o: Options, start: nat, events: seq<Event>, i: nat)
    requires i < |events|
    ensures Exec(Start(start), o, events[..i + 1]).running <==>
            forall j :: 0 <= j <= i ==> !TooLong(events, o, start, j)
  {
    var part := events[..i + 1];
    StopsAtFirstIdleTick(o, start, part);
    forall j | 0 <= j <= i ensures TooLong(events, o, start, j) == TooLong(part, o, start, j) {
      assert part[..j] == events[..j];
    }
  }

  /** Whether the last heartbeat is an interval old, told from the events. */
  lemma QuietIs(o: Options, start: nat, events: seq<Event>, now: nat)
    requires Ordered(events, start) && o.interval > 0 && start + o.interval <= now
    ensures Since(now, Exec(Start(start), o, events).lastHeartbeat) >= o.interval <==>
            QuietSince(events, o, start, now)
  {
    LastHeartbeatIs(o, start, events);
  }

  /** One event, told from the clock. */
  lemma BeatIs(c: Clock, o: Options, e: Event)
    ensures Next(c, o, e).sent > c.sent <==>
            && c.running && Next(c, o, e).running && e.Tick? && o.interval > 0
            && Since(e.now, c.lastActivity) >= o.interval && Since(e.now, c.lastHeartbeat) >= o.interval
  {
  }

  /** An event makes the dispatcher send a heartbeat exactly if it is a tick of a dispatcher that no tick, this one
      included, has found idle for the timeout, no data arrived within the interval, and no heartbeat was sent within
      it. */
  lemma HeartbeatsExactly(o: Options, start: nat, events: seq<Event>, i: nat)
    requires Ordered(events, start) && i < |events|
    ensures BeatAt(events, o, start, i) <==>
            && events[i].Tick? && o.interval > 0
            && (forall j :: 0 <= j <= i ==> !TooLong(events, o, start, j))
            && LastData(events[..i], start) + o.interval <= events[i].now
            && QuietSince(events[..i], o, start, events[i].now)
  {
    var before, now := events[..i], events[i].now;
    var c := Exec(Start(start), o, before);
    assert events[..i + 1][..i] == before;
    BeatIs(c, o, events[i]);
    RunsUntil(o, start, events, i);
    DataFromStart(start, before);
    if c.running { ActivityIsData(o, start, before); }
    if o.interval > 0 && LastData(before, start) + o.interval <= now { QuietIs(o, start, before, now); }
  }

  /** So a running dispatcher is never quiet for an interval: at every tick, data arrived or a heartbeat was sent less
      than an interval ago. */
  lemma NeverQuiet(o: Options, start: nat, events: seq<Event>, i: nat)
    requires Ordered(events, start) && i < |events| && events[i].Tick? && o.interval > 0
    requires Exec(Start(start), o, events).running
    ensures || events[i].now < LastData(events[..i], start) + o.interval
            || exists j :: 0 <= j <= i && BeatAt(events, o, start, j) && events[i].now < events[j].now + o.interval
  {
    StopsAtFirstIdleTick(o, start, events);
    HeartbeatsExactly(o, start, events, i);
    if !BeatAt(events, o, start, i) && !QuietSince(events[..i], o, start, events[i].now) {
      var j :| 0 <= j < i && BeatAt(events[..i], o, start, j) && events[i].now < events[j].now + o.interval;
      BeatBefore(events, o, start, i, j);
    }
  }

  /** The dispatcher has stopped exactly when some tick found the connection idle for the timeout, idleness being
      counted from the last data alone: sending heartbeats never postpones the end, and the first such tick is the
      end. */
  lemma {:induction false} StopsAtFirstIdleTick(o: Options, start: nat, events: seq<Event>)
    ensures Exec(Start(start), o, events).running <==> forall i :: 0 <= i < |events| ==> !TooLong(events, o, start, i)
    decreases |events|
  {
    if |events| > 0 {
      var before, last := events[..|events| - 1], |events| - 1;
      StopsAtFirstIdleTick(o, start, before);
      if Exec(Start(start), o, before).running { ActivityIsData(o, start, before); }
      forall i | 0 <= i < |before| ensures TooLong(events, o, start, i) == TooLong(before, o, start, i) {
        assert events[..i] == before[..i];
      }
      assert TooLong(events, o, start, last) <==>
             events[last].Tick? && o.timeout > 0 && Since(events[last].now, LastData(before, start)) >= o.timeout;
    }
  }
}
