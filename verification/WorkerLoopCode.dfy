/** `PollOnce` and the methods it is made of, on the worker's own fields, each proved to make the steps of `WorkerLoop`;
    those that handle one descriptor also say what becomes of it. */
module WorkerLoopCode {
  import opened Common
  import opened Rpc
  import opened Connection
  import opened ConnectionProofs
  import opened ConnectionAnswers
  import opened ConnectionReads
  import opened WorkerLoop
  import opened WorkerProofs

  datatype Wait = Woke(events: seq<Event>, wake: bool) | Interrupted | WaitFailed

  /** What the system answers during one `PollOnce`: epoll_wait, the wake descriptor, and epoll_ctl and the clock at the
      i-th connection adopted or result handed back. */
  datatype Poll = Poll(wait: Wait, wakeOk: bool, adds: nat -> bool, mods: nat -> bool, clock: nat -> nat, tick: nat)

  // ---------------------------------------------------------------------------------------
  // The loops as functions
  // ---------------------------------------------------------------------------------------

  /** Adopt every waiting connection; a failure drops the rest. */
  ghost function AdoptAll(w: Worker, world: World, p: Poll, i: nat): (r: (Worker, bool))
    requires Inv(w, world)
    ensures Inv(r.0, world) && r.0.adopting == [] && r.0.draining == w.draining
    decreases |w.adopting|
  {
    if w.adopting == [] then (w, true)
    else
      AdoptOk(w, world, p.adds(i), p.clock(i));
      AdoptApart(w, world, p.adds(i), p.clock(i));
      var (v, ok) := Adopt(w, world, p.adds(i), p.clock(i));
      if ok then AdoptAll(v, world, p, i + 1) else (Dropped(v, world), false)
  }

  ghost function Dropped(w: Worker, world: World): (r: Worker)
    requires Inv(w, world)
    ensures Inv(r, world) && r.adopting == [] && r.draining == w.draining
  {
    ShiftOk(w, world, Healthy(world), DropPending);
    Shift(w, DropPending)
  }

  ghost function HandBackAll(w: Worker, world: World, p: Poll, i: nat): (r: Worker)
    requires Inv(w, world)
    ensures Inv(r, world) && r.draining == [] && r.adopting == w.adopting
    decreases |w.draining|
  {
    if w.draining == [] then w
    else
      HandBackOk(w, world, p.mods(i), p.clock(i));
      HandBackShrinks(w, world, p.mods(i), p.clock(i));
      HandBackAll(HandBack(w, world, p.mods(i), p.clock(i)), world, p, i + 1)
  }

  ghost function AllEvents(w: Worker, world: World, events: seq<Event>): (r: Worker)
    requires Inv(w, world)
    ensures Inv(r, world) && r.draining == w.draining && r.adopting == w.adopting
    decreases |events|
  {
    if |events| == 0 then w
    else
      OnEventOk(w, world, events[0]);
      OnEventApart(w, world, events[0]);
      AllEvents(OnEvent(w, world, events[0]), world, events[1..])
  }

  /** One whole `PollOnce` and its verdict. */
  ghost function PollResult(w: Worker, world: World, p: Poll): (r: (Worker, bool))
    requires Inv(w, world) && w.adopting == [] && w.draining == []
    ensures Inv(r.0, world) && r.0.adopting == [] && r.0.draining == []
  {
    match p.wait
    case Interrupted => (w, true)
    case WaitFailed => (w, false)
    case Woke(events, wake) =>
      var (v, ok) := if wake then AfterWake(w, world, p) else (w, true);
      if ok then (AfterTick(v, world, p, events), true) else (v, false)
  }

  ghost function AfterTick(w: Worker, world: World, p: Poll, events: seq<Event>): (r: Worker)
    requires Inv(w, world)
    ensures Inv(r, world) && r.draining == w.draining && r.adopting == w.adopting
  {
    TickAllOk(w, world, p.tick);
    AllEvents(TickAll(w, world, p.tick), world, events)
  }

  /** The part of `PollOnce` that serves the hand-over queues. */
  ghost function AfterWake(w: Worker, world: World, p: Poll): (r: (Worker, bool))
    requires Inv(w, world) && w.adopting == [] && w.draining == []
    ensures Inv(r.0, world) && r.0.adopting == [] && r.0.draining == []
  {
    if !p.wakeOk then (w, false)
    else
      var (v, ok) := AdoptAll(Shifted(w, world, TakePending), world, p, 0);
      if !ok then (v, false) else (AfterAdopting(v, world, p), true)
  }

  ghost function AfterAdopting(w: Worker, world: World, p: Poll): (r: Worker)
    requires Inv(w, world) && w.adopting == [] && w.draining == []
    ensures Inv(r, world) && r.adopting == [] && r.draining == []
  {
    HandBackAll(Shifted(w, world, TakeCompleted), world, p, 0)
  }

  ghost function Shifted(w: Worker, world: World, a: Action): (r: Worker)
    requires Inv(w, world)
    ensures Inv(r, world) && r == Shift(w, a)
    ensures !a.TakePending? && !a.DropPending? ==> r.adopting == w.adopting
    ensures !a.TakeCompleted? ==> r.draining == w.draining
  {
    ShiftOk(w, world, Healthy(world), a);
    Shift(w, a)
  }

  /** Taking a result off the batch touches the rest of the batch in no way. */
  lemma HandBackShrinks(w: Worker, world: World, modOk: bool, now: nat)
    requires w.draining != [] && Sound(w)
    ensures var v := HandBack(w, world, modOk, now); v.draining == w.draining[1..] && v.adopting == w.adopting
  {
    var d := w.draining[0];
    var v := w.(draining := w.draining[1..], counters := Complete(w.counters), handled := w.handled + [d.job]);
    if d.job.fd in w.connections { GiveBackApart(v, d.job.fd, d.response, world, modOk, now); }
  }

  lemma GiveBackApart(w: Worker, fd: int, r: Response, world: World, modOk: bool, now: nat)
    requires fd in w.connections && ChunksOk(w.connections[fd].conn.io.chunks)
    ensures var v := GiveBack(w, fd, r, world, modOk, now); v.draining == w.draining && v.adopting == w.adopting
  {
  }

  lemma OnEventApart(w: Worker, world: World, e: Event)
    requires Sound(w)
    ensures var v := OnEvent(w, world, e); v.draining == w.draining && v.adopting == w.adopting
  {
  }

  lemma AdoptApart(w: Worker, world: World, added: bool, now: nat)
    requires w.adopting != []
    ensures Adopt(w, world, added, now).0.draining == w.draining
  {
  }

  ghost predicate SoundMap(cs: map<int, Entry>) { forall fd :: fd in cs ==> ChunksOk(cs[fd].conn.io.chunks) }

  /** The connections after the timeout pass has been made over all but those in `todo`. */
  ghost function TickedBut(cs: map<int, Entry>, todo: set<int>, world: World, now: nat): map<int, Entry>
    requires SoundMap(cs)
  {
    map fd | fd in cs :: if fd in todo then cs[fd] else Ticked(cs[fd], world, now)
  }

  lemma TickNothing(cs: map<int, Entry>, world: World, now: nat)
    requires SoundMap(cs)
    ensures TickedBut(cs, cs.Keys, world, now) == cs
  {
  }

  lemma TickOne(cs: map<int, Entry>, todo: set<int>, fd: int, world: World, now: nat)
    requires SoundMap(cs) && fd in cs && fd in todo
    ensures TickedBut(cs, todo, world, now)[fd] == cs[fd]
    ensures TickedBut(cs, todo, world, now)[fd := Ticked(cs[fd], world, now)] == TickedBut(cs, todo - {fd}, world, now)
  {
  }

  // ---------------------------------------------------------------------------------------
  // What becomes of a descriptor
  // ---------------------------------------------------------------------------------------

  /** Only descriptor `fd` is touched. */
  predicate Elsewhere(w: Worker, v: Worker, fd: int)
  {
    v.connections - {fd} == w.connections - {fd} && v.armed - {fd} == w.armed - {fd}
  }

  ghost predicate GoodAt(w: Worker, world: World, fd: int)
  {
    fd in w.connections ==> Good(w.connections[fd].conn, world(w.connections[fd].token))
  }

  /** The connection at `fd` has been closed: unmapped, not watched, and its coroutine finished. */
  ghost predicate ClosedAt(w: Worker, v: Worker, fd: int)
  {
    && fd !in v.connections
    && (fd in w.connections ==>
          var e := w.connections[fd];
          fd !in v.armed && e.token in v.past && v.past[e.token].pc == Finished)
  }

  lemma InvGoodAt(w: Worker, world: World, fd: int)
    requires Inv(w, world)
    ensures GoodAt(w, world, fd)
  {
    if fd in w.connections { assert LiveOk(w, world, Healthy(world), fd, {}); }
  }

  lemma CloseMeans(w: Worker, fd: int, world: World, now: nat)
    requires GoodAt(w, world, fd)
    ensures var v := CloseConnection(w, fd, world, now);
            && Elsewhere(w, v, fd) && ClosedAt(w, v, fd) && v.issued == w.issued && v.tasks == w.tasks
            && (fd in w.connections ==>
                  var e := w.connections[fd]; e.token in v.past && v.past[e.token].io.chunks == e.conn.io.chunks)
  {
    if fd in w.connections {
      var e := w.connections[fd];
      CloseFinishes(e.conn, world(e.token), now);
      assert JobsOf(fd, e.token, Since(e.conn.io, CloseConn(e.conn, world(e.token), now).io)) == [];
    }
  }

  /** The connection at `fd` stays, and is watched for writability exactly while something is queued; or epoll has
      refused and it is closed. */
  ghost predicate WatchedAt(w: Worker, v: Worker, fd: int, modOk: bool)
  {
    if modOk then
      && fd in v.connections && fd in v.armed && v.connections == w.connections
      && (v.armed[fd] <==> v.connections[fd].conn.io.chunks != [])
    else ClosedAt(w, v, fd)
  }

  lemma RefreshMeans(w: Worker, fd: int, world: World, modOk: bool, now: nat)
    requires fd in w.connections && GoodAt(w, world, fd)
    ensures var v := Refresh(w, fd, world, modOk, now); Elsewhere(w, v, fd) && WatchedAt(w, v, fd, modOk)
  {
    if !modOk { CloseMeans(w, fd, world, now); }
  }

  ghost predicate AdoptedAt(w: Worker, v: Worker, fd: int, ok: bool)
  {
    && fd !in w.connections && Elsewhere(w, v, fd)
    && (if ok
        then && fd in v.connections && WaitingToRead(v.connections[fd].conn) && fd in v.armed && !v.armed[fd]
             && v.connections[fd].token !in w.past
             && forall f :: f in w.connections ==> w.connections[f].token != v.connections[fd].token
        else v.connections == w.connections && v.armed == w.armed)
  }

  /** The first waiting descriptor is never in use, so it is adopted exactly if epoll takes it: with a token that no
      connection ever had, waiting to read, and not watched for writability. */
  lemma AdoptMeans(w: Worker, world: World, added: bool, now: nat)
    requires Inv(w, world) && w.adopting != []
    ensures var (v, ok) := Adopt(w, world, added, now);
            ok == added && AdoptedAt(w, v, w.adopting[0], ok)
  {
    NeverADuplicate(w, world);
    StartOk(world(w.nextToken), now);
    forall f | f in w.connections ensures w.connections[f].token < w.nextToken {
      assert LiveOk(w, world, Healthy(world), f, {});
    }
    assert w.nextToken in w.past ==> PastOk(w, world, Healthy(world), w.nextToken);
  }

  /** The event ends the connection: it was closing, the peer hung up, or the read or the write it announces ends it. */
  predicate EndsConn(c: Conn, env: Env, e: Event)
    requires ChunksOk(c.io.chunks)
  {
    || c.shouldClose || e.hangup || (e.readable && ReadEnds(c, env, e.now))
    || (e.writable && WriteEnds(if e.readable then NotifyReadable(c, env, e.now) else c, env))
  }

  /** After an event its connection is still mapped exactly if the event does not end it and epoll takes the new
      interest. */
  lemma EventMeans(w: Worker, world: World, e: Event)
    requires Inv(w, world)
    ensures Sound(w)
    ensures var v := OnEvent(w, world, e);
            && Inv(v, world) && Elsewhere(w, v, e.fd)
            && (e.fd in v.connections <==>
                  && e.fd in w.connections && e.modOk
                  && !EndsConn(w.connections[e.fd].conn, world(w.connections[e.fd].token), e))
            && (if e.fd in v.connections
                then && e.fd in w.connections && v.connections[e.fd].token == w.connections[e.fd].token
                     && !v.connections[e.fd].conn.shouldClose && v.connections[e.fd].conn.coroutineOk
                else ClosedAt(w, v, e.fd))
  {
    InvSound(w, world);
    OnEventOk(w, world, e);
    if e.fd in w.connections {
      var t := w.connections[e.fd].token;
      InvGoodAt(w, world, e.fd);
      NotifiedGood(w.connections[e.fd].conn, world(t), e);
      NotifiedEnds(w.connections[e.fd].conn, world(t), e);
      EventAt(w, Settle(w, e.fd, Notified(w.connections[e.fd].conn, world(t), e)), world, e);
    }
  }

  lemma NotifiedGood(c: Conn, env: Env, e: Event)
    requires Good(c, env)
    ensures Good(Notified(c, env, e), env) && (e.hangup ==> Notified(c, env, e).shouldClose)
  {
    var a := if e.readable then NotifyReadable(c, env, e.now) else c;
    NotifyReadableOk(c, env, e.now);
    var b := if e.writable then NotifyWritable(a, env, e.now) else a;
    NotifyWritableOk(a, env, e.now);
    CloseFinishes(b, env, e.now);
  }

  lemma NotifiedEnds(c: Conn, env: Env, e: Event)
    requires Good(c, env)
    ensures Notified(c, env, e).shouldClose <==> EndsConn(c, env, e)
  {
    var a := if e.readable then NotifyReadable(c, env, e.now) else c;
    NotifyReadableOk(c, env, e.now);
    NotificationsEndExactly(c, env, e.now);
    NotificationsEndExactly(a, env, e.now);
    var b := if e.writable then NotifyWritable(a, env, e.now) else a;
    NotifyWritableOk(a, env, e.now);
    CloseFinishes(b, env, e.now);
  }

  lemma EventAt(w: Worker, s: Worker, world: World, e: Event)
    requires e.fd in w.connections && Sound(w)
    requires s == Settle(w, e.fd, Notified(w.connections[e.fd].conn, world(w.connections[e.fd].token), e))
    requires GoodAt(s, world, e.fd)
    ensures var v := OnEvent(w, world, e);
            && Elsewhere(w, v, e.fd) && (e.fd in v.connections <==> e.modOk && !s.connections[e.fd].conn.shouldClose)
            && (if e.fd in v.connections
                then && v.connections[e.fd].token == w.connections[e.fd].token
                     && !v.connections[e.fd].conn.shouldClose && v.connections[e.fd].conn.coroutineOk
                else ClosedAt(w, v, e.fd))
  {
    var conn := s.connections[e.fd].conn;
    assert Elsewhere(w, s, e.fd);
    if !conn.coroutineOk || conn.shouldClose {
      CloseMeans(s, e.fd, world, e.now);
      EventEnds(w, s, OnEvent(w, world, e), e.fd);
    } else {
      RefreshMeans(s, e.fd, world, e.modOk, e.now);
      if !e.modOk { EventEnds(w, s, OnEvent(w, world, e), e.fd); }
    }
  }

  /** The connection that has been stored and is closed now is the one that was there. */
  lemma EventEnds(w: Worker, s: Worker, v: Worker, fd: int)
    requires fd in w.connections && fd in s.connections && s.connections[fd].token == w.connections[fd].token
    requires Elsewhere(w, s, fd) && Elsewhere(s, v, fd) && ClosedAt(s, v, fd)
    ensures Elsewhere(w, v, fd) && ClosedAt(w, v, fd)
  {
  }

  /** What becomes of the connection a result is for: it stays mapped, the same one, with the result queued last on it
      and watched as it should be, exactly if the result can be framed and fits under the limit and epoll takes the new
      interest; otherwise it is closed. */
  ghost predicate HandedAt(w: Worker, v: Worker, world: World, d: Done, modOk: bool)
  {
    var fd := d.job.fd;
    && Elsewhere(w, v, fd)
    && (if fd in w.connections && w.connections[fd].token == d.job.token then
          var e, env := w.connections[fd], world(d.job.token);
          var body := env.responses.serialise(d.response);
          && ChunksOk(e.conn.io.chunks)
          && (fd in v.connections <==>
                modOk && 1 <= |body| <= 4194304 && |Unsent(e.conn.io.chunks)| + 4 + |body| <= env.maxWrite)
          && (if fd in v.connections
              then && v.connections[fd].token == e.token
                   && v.connections[fd].conn.io.handed == e.conn.io.handed + [body]
                   && fd in v.armed && (v.armed[fd] <==> v.connections[fd].conn.io.chunks != [])
              else ClosedAt(w, v, fd))
        else v.connections == w.connections && v.armed == w.armed)
  }

  lemma HandBackMeans(w: Worker, world: World, modOk: bool, now: nat)
    requires Inv(w, world) && w.draining != []
    ensures Sound(w) && HandedAt(w, HandBack(w, world, modOk, now), world, w.draining[0], modOk)
  {
    InvSound(w, world);
    var d := w.draining[0];
    var fd := d.job.fd;
    if fd in w.connections && w.connections[fd].token == d.job.token {
      InvGoodAt(w, world, fd);
      assert LiveOk(w, world, Healthy(world), fd, {});
      GiveBackMeans(w, Noted(w), world, d, modOk, now);
    }
  }

  lemma GiveBackMeans(w: Worker, n: Worker, world: World, d: Done, modOk: bool, now: nat)
    requires n.connections == w.connections && n.armed == w.armed && n.past == w.past
    requires d.job.fd in w.connections && w.connections[d.job.fd].token == d.job.token && GoodAt(w, world, d.job.fd)
    requires Answers(BookOf(w.connections[d.job.fd].conn.io), world(d.job.token))
    ensures HandedAt(w, GiveBack(n, d.job.fd, d.response, world, modOk, now), world, d, modOk)
  {
    var fd := d.job.fd;
    var e, env := w.connections[fd], world(d.job.token);
    DeliverMeans(e.conn, env, now, d.response);
    var (conn, ok) := Deliver(e.conn, env, now, d.response);
    if ok {
      KeptMeans(n, fd, conn, world, modOk, now);
    } else {
      CloseMeans(n, fd, world, now);
    }
  }

  /** A result is taken exactly if it can be framed and fits under the limit, and is then the last one handed over. */
  lemma DeliverMeans(c: Conn, env: Env, now: nat, r: Response)
    requires Good(c, env) && Answers(BookOf(c.io), env)
    ensures var (d, ok) := Deliver(c, env, now, r);
            var body := env.responses.serialise(r);
            && Good(d, env)
            && (ok <==> 1 <= |body| <= 4194304 && |Unsent(c.io.chunks)| + 4 + |body| <= env.maxWrite)
            && (ok ==> d.io.handed == c.io.handed + [body])
  {
    DeliverOk(c, env, now, r);
    EnqueueOk(c.io, env, now, r);
    var (d, ok) := Deliver(c, env, now, r);
    if ok { DeliverAnswers(c, env, now, r); }
  }

  /** The connection that took a result is stored and stays, watched as it should be, or is closed if epoll refuses. */
  lemma KeptMeans(n: Worker, fd: int, conn: Conn, world: World, modOk: bool, now: nat)
    requires fd in n.connections && Good(conn, world(n.connections[fd].token))
    ensures var v := Refresh(Settle(n, fd, conn), fd, world, modOk, now);
            && Elsewhere(n, v, fd) && (fd in v.connections <==> modOk)
            && (if modOk
                then && v.connections[fd] == Entry(conn, n.connections[fd].token)
                     && fd in v.armed && (v.armed[fd] <==> conn.io.chunks != [])
                else ClosedAt(n, v, fd))
  {
    var s := Settle(n, fd, conn);
    assert Elsewhere(n, s, fd);
    RefreshMeans(s, fd, world, modOk, now);
    if !modOk { EventEnds(n, s, Refresh(s, fd, world, modOk, now), fd); }
  }

  class Loop {
    const world: World
    var connections: map<int, Entry>
    var armed: map<int, bool>
    var pending: seq<int>
    var adopting: seq<int>
    var completed: seq<Done>
    var draining: seq<Done>
    var counters: Counters
    var nextToken: nat

    /** The pool's tasks, whether the completion queue accepts, and the histories; its other components are not used. */
    ghost var others: Worker

    ghost function View(): Worker
      reads this
    {
      others.(connections := connections, armed := armed, pending := pending, adopting := adopting,
              completed := completed, draining := draining, counters := counters, nextToken := nextToken)
    }

    constructor (world: World)
      ensures View() == Init && this.world == world
    {
      this.world := world;
      connections, armed, pending, adopting, completed, draining := map[], map[], [], [], [], [];
      counters, nextToken, others := Counters(0, 0, 0), 0, Init;
    }

    /** The connection has run; its dispatches went to the pool as it made them. */
    method Store(fd: int, conn: Conn)
      requires fd in connections
      modifies this`connections, this`counters, this`others
      ensures View() == Settle(old(View()), fd, conn)
    {
      var e := connections[fd];
      var jobs := JobsOf(fd, e.token, Since(e.conn.io, conn.io));
      connections := connections[fd := Entry(conn, e.token)];
      counters := Submit(counters, |jobs|);
      others := others.(tasks := others.tasks + jobs, issued := others.issued + jobs);
    }

    /** Afterwards the descriptor is neither mapped nor watched, its coroutine has finished, so that the wait for it did
        not block, and no request was dispatched meanwhile. */
    method CloseFd(fd: int, now: nat)
      requires GoodAt(View(), world, fd)
      modifies this`connections, this`armed, this`counters, this`others
      ensures View() == CloseConnection(old(View()), fd, world, now)
      ensures Elsewhere(old(View()), View(), fd) && ClosedAt(old(View()), View(), fd)
              && View().issued == old(View()).issued
    {
      CloseMeans(View(), fd, world, now);
      if fd !in connections { return; }
      Store(fd, CloseConn(connections[fd].conn, world(connections[fd].token), now));
      Drop(fd);
    }

    method Drop(fd: int)
      requires fd in connections
      modifies this`connections, this`armed, this`others
      ensures View() == Forget(old(View()), fd)
    {
      others := others.(past := others.past[connections[fd].token := connections[fd].conn]);
      armed := armed - {fd};
      connections := connections - {fd};
    }

    /** Watches for writability exactly while something is queued; if epoll refuses, the connection is closed. */
    method UpdateEpollInterest(fd: int, modOk: bool, now: nat)
      requires fd in connections && GoodAt(View(), world, fd)
      modifies this`connections, this`armed, this`counters, this`others
      ensures View() == Refresh(old(View()), fd, world, modOk, now)
      ensures Elsewhere(old(View()), View(), fd) && WatchedAt(old(View()), View(), fd, modOk)
    {
      RefreshMeans(View(), fd, world, modOk, now);
      if modOk {
        armed := armed[fd := connections[fd].conn.io.chunks != []];
      } else {
        CloseFd(fd, now);
      }
    }

    /** Takes the next waiting connection; `AddConnectionOnOwnerThread`.  It is adopted exactly if epoll takes it: its
        descriptor is never in use, its token was never used before, and it starts waiting to read. */
    method AddConnection(added: bool, now: nat) returns (ok: bool)
      requires adopting != [] && Inv(View(), world)
      modifies this`connections, this`armed, this`adopting, this`nextToken
      ensures (View(), ok) == Adopt(old(View()), world, added, now) && Inv(View(), world)
      ensures ok == added && AdoptedAt(old(View()), View(), old(adopting)[0], ok)
    {
      AdoptMeans(View(), world, added, now);
      AdoptOk(View(), world, added, now);
      ok := Register(added, now);
    }

    method Register(added: bool, now: nat) returns (ok: bool)
      requires adopting != []
      modifies this`connections, this`armed, this`adopting, this`nextToken
      ensures (View(), ok) == Adopt(old(View()), world, added, now)
    {
      var fd := adopting[0];
      adopting := adopting[1..];
      if !added { return false; }
      var token := nextToken;
      nextToken := nextToken + 1;
      if fd in connections {
        armed := armed - {fd};
        return false;
      }
      connections := connections[fd := Entry(Start(world(token), now), token)];
      armed := armed[fd := false];
      return true;
    }

    method DrainPendingConnections(p: Poll) returns (ok: bool)
      requires Inv(View(), world) && adopting == []
      modifies this`connections, this`armed, this`pending, this`adopting, this`nextToken
      ensures (View(), ok) == AdoptAll(Shifted(old(View()), world, TakePending), world, p, 0)
    {
      SwapPending();
      ok := AdoptEach(p);
    }

    method SwapPending()
      requires Inv(View(), world) && adopting == []
      modifies this`pending, this`adopting
      ensures View() == Shifted(old(View()), world, TakePending)
    {
      adopting, pending := pending, [];
    }

    method AdoptEach(p: Poll) returns (ok: bool)
      requires Inv(View(), world)
      modifies this`connections, this`armed, this`adopting, this`nextToken
      ensures (View(), ok) == AdoptAll(old(View()), world, p, 0)
    {
      var i := 0;
      while adopting != []
        invariant Inv(View(), world)
        invariant AdoptAll(View(), world, p, i) == AdoptAll(old(View()), world, p, 0)
        decreases |adopting|
      {
        ok := AdoptOne(p, i);
        if !ok { return; }
        i := i + 1;
      }
      ok := true;
    }

    method AdoptOne(p: Poll, i: nat) returns (ok: bool)
      requires Inv(View(), world) && adopting != []
      modifies this`connections, this`armed, this`adopting, this`nextToken
      ensures Inv(View(), world)
      ensures ok ==>
                |adopting| < |old(adopting)| && AdoptAll(View(), world, p, i + 1) == AdoptAll(old(View()), world, p, i)
      ensures !ok ==> (View(), false) == AdoptAll(old(View()), world, p, i)
    {
      ok := AddConnection(p.adds(i), p.clock(i));
      if !ok { DropRest(); }
    }

    method DropRest()
      requires Inv(View(), world)
      modifies this`adopting
      ensures View() == Dropped(old(View()), world)
    {
      adopting := [];
    }

    /** One pool result: count it, and queue it if its connection is still the one it came from, which then stays mapped
        exactly if the result can be queued and epoll takes the new interest. */
    method TakeResult(modOk: bool, now: nat)
      requires draining != [] && Inv(View(), world)
      modifies this`connections, this`armed, this`draining, this`counters, this`others
      ensures View() == HandBack(old(View()), world, modOk, now)
      ensures HandedAt(old(View()), View(), world, old(draining)[0], modOk)
    {
      HandBackMeans(View(), world, modOk, now);
      var d := draining[0];
      InvGoodAt(View(), world, d.job.fd);
      InvSound(View(), world);
      draining := draining[1..];
      counters := Complete(counters);
      others := others.(handled := others.handled + [d.job]);
      var fd := d.job.fd;
      if fd in connections && connections[fd].token == d.job.token {
        QueueOn(fd, d.response, modOk, now);
      }
    }

    method QueueOn(fd: int, r: Response, modOk: bool, now: nat)
      requires fd in connections && GoodAt(View(), world, fd)
      modifies this`connections, this`armed, this`counters, this`others
      ensures View() == GiveBack(old(View()), fd, r, world, modOk, now)
    {
      var e := connections[fd];
      var (conn, ok) := Deliver(e.conn, world(e.token), now, r);
      DeliverOk(e.conn, world(e.token), now, r);
      if !ok {
        CloseFd(fd, now);
      } else {
        Store(fd, conn);
        UpdateEpollInterest(fd, modOk, now);
      }
    }

    method DrainCompletedResponses(p: Poll)
      requires Inv(View(), world) && draining == []
      modifies this`connections, this`armed, this`completed, this`draining, this`counters, this`others
      ensures View() == HandBackAll(Shifted(old(View()), world, TakeCompleted), world, p, 0)
    {
      SwapCompleted();
      TakeEach(p);
    }

    method SwapCompleted()
      requires Inv(View(), world) && draining == []
      modifies this`completed, this`draining
      ensures View() == Shifted(old(View()), world, TakeCompleted)
    {
      draining, completed := completed, [];
    }

    method TakeEach(p: Poll)
      requires Inv(View(), world)
      modifies this`connections, this`armed, this`draining, this`counters, this`others
      ensures View() == HandBackAll(old(View()), world, p, 0)
    {
      var i := 0;
      while draining != []
        invariant Inv(View(), world)
        invariant HandBackAll(View(), world, p, i) == HandBackAll(old(View()), world, p, 0)
        decreases |draining|
      {
        HandBackOk(View(), world, p.mods(i), p.clock(i));
        HandBackShrinks(View(), world, p.mods(i), p.clock(i));
        TakeResult(p.mods(i), p.clock(i));
        i := i + 1;
      }
    }

    /** The timeout pass. */
    method CheckTimeouts(now: nat)
      requires Sound(View())
      modifies this`connections
      ensures View() == TickAll(old(View()), world, now)
    {
      var todo := connections.Keys;
      TickNothing(connections, world, now);
      while todo != {}
        invariant todo <= connections.Keys == old(connections).Keys
        invariant SoundMap(old(connections)) && connections == TickedBut(old(connections), todo, world, now)
        decreases |todo|
      {
        var fd := Pick(todo);
        TickOne(old(connections), todo, fd, world, now);
        connections := connections[fd := Ticked(connections[fd], world, now)];
        todo := todo - {fd};
      }
    }

    /** The connection goes on, the same one and watched as it should be, only if nothing is wrong with it; otherwise,
        and always after a hangup, it is closed.  No other descriptor is touched. */
    method HandleEvent(e: Event)
      requires Inv(View(), world)
      modifies this`connections, this`armed, this`counters, this`others
      ensures Inv(View(), world) && View() == OnEvent(old(View()), world, e)
      ensures Elsewhere(old(View()), View(), e.fd)
      ensures e.fd in connections <==>
                && e.fd in old(connections) && e.modOk && GoodAt(old(View()), world, e.fd)
                && !EndsConn(old(connections)[e.fd].conn, world(old(connections)[e.fd].token), e)
      ensures if e.fd in connections
              then && e.fd in old(connections) && connections[e.fd].token == old(connections)[e.fd].token
                   && !connections[e.fd].conn.shouldClose && connections[e.fd].conn.coroutineOk
                   && e.fd in armed && (armed[e.fd] <==> connections[e.fd].conn.io.chunks != [])
              else ClosedAt(old(View()), View(), e.fd)
    {
      EventMeans(View(), world, e);
      if e.fd !in connections { return; }
      InvGoodAt(View(), world, e.fd);
      NotifiedGood(connections[e.fd].conn, world(connections[e.fd].token), e);
      var conn := Notified(connections[e.fd].conn, world(connections[e.fd].token), e);
      Store(e.fd, conn);
      if !conn.coroutineOk || conn.shouldClose {
        CloseFd(e.fd, e.now);
      } else {
        UpdateEpollInterest(e.fd, e.modOk, e.now);
      }
    }

    method HandleEvents(events: seq<Event>)
      requires Inv(View(), world)
      modifies this`connections, this`armed, this`counters, this`others
      ensures View() == AllEvents(old(View()), world, events)
    {
      for i := 0 to |events|
        invariant Inv(View(), world)
        invariant AllEvents(View(), world, events[i..]) == AllEvents(old(View()), world, events)
      {
        assert events[i..][0] == events[i] && events[i..][1..] == events[i + 1..];
        HandleEvent(events[i]);
      }
    }

    /** Serves the hand-over queues when the wake descriptor fired, then the timeouts, then the events. */
    method PollOnce(p: Poll) returns (ok: bool)
      requires Inv(View(), world) && adopting == [] && draining == []
      modifies this
      ensures (View(), ok) == PollResult(old(View()), world, p)
      ensures Inv(View(), world) && adopting == [] && draining == []
    {
      match p.wait {
        case Interrupted => return true;
        case WaitFailed => return false;
        case Woke(events, wake) =>
          if wake {
            ok := ServeQueues(p);
            if !ok { return false; }
          }
          TickAllOk(View(), world, p.tick);
          CheckTimeouts(p.tick);
          HandleEvents(events);
          return true;
      }
    }

    method ServeQueues(p: Poll) returns (ok: bool)
      requires Inv(View(), world) && adopting == [] && draining == []
      modifies this
      ensures (View(), ok) == AfterWake(old(View()), world, p)
    {
      if !p.wakeOk { return false; }
      ok := DrainPendingConnections(p);
      if ok { DrainCompletedResponses(p); }
    }
  }
}
