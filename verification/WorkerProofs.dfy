/** What holds of a worker in every run. */
module WorkerProofs {
  import opened Framing
  import opened Rpc
  import opened Connection
  import opened ConnectionProofs
  import opened ConnectionAnswers
  import opened WorkerLoop

  // ---------------------------------------------------------------------------------------
  // Jobs by connection
  // ---------------------------------------------------------------------------------------

  /** The dispatches among `jobs` that came from the connection with token t, in order. */
  function ByToken(jobs: seq<Job>, t: nat): seq<Dispatch>
  {
    if |jobs| == 0 then []
    else
      var last := jobs[|jobs| - 1];
      var before := ByToken(jobs[..|jobs| - 1], t);
      if last.token == t then before + [Dispatch(last.sequence, last.request)] else before
  }

  /** The response bodies owed for the jobs among `jobs` of the connection with token t, in order. */
  function Replies(env: Env, jobs: seq<Job>, t: nat): seq<seq<byte>>
  {
    if |jobs| == 0 then []
    else
      var last := jobs[|jobs| - 1];
      var before := Replies(env, jobs[..|jobs| - 1], t);
      if last.token == t then before + [env.responses.serialise(Serve(env.registry, last.request))] else before
  }

  lemma ByTokenSnoc(jobs: seq<Job>, j: Job, t: nat)
    ensures ByToken(jobs + [j], t)
         == ByToken(jobs, t) + (if j.token == t then [Dispatch(j.sequence, j.request)] else [])
  {
    assert (jobs + [j])[..|jobs|] == jobs;
  }

  lemma RepliesSnoc(env: Env, jobs: seq<Job>, j: Job, t: nat)
    ensures Replies(env, jobs + [j], t)
         == Replies(env, jobs, t) + (if j.token == t then [env.responses.serialise(Serve(env.registry, j.request))]
             else [])
  {
    assert (jobs + [j])[..|jobs|] == jobs;
  }

  lemma {:induction false} ByTokenAppend(jobs: seq<Job>, fd: int, t: nat, ds: seq<Dispatch>, u: nat)
    ensures ByToken(jobs + JobsOf(fd, t, ds), u) == if u == t then ByToken(jobs, u) + ds else ByToken(jobs, u)
    decreases |ds|
  {
    if |ds| == 0 {
      assert jobs + JobsOf(fd, t, ds) == jobs;
      assert ByToken(jobs, u) + ds == ByToken(jobs, u);
    } else {
      var before, last := ds[..|ds| - 1], ds[|ds| - 1];
      var j := Job(fd, t, last.sequence, last.request);
      assert jobs + JobsOf(fd, t, ds) == (jobs + JobsOf(fd, t, before)) + [j];
      ByTokenSnoc(jobs + JobsOf(fd, t, before), j, u);
      ByTokenAppend(jobs, fd, t, before, u);
      assert before + [last] == ds;
    }
  }

  function JobsIn(ds: seq<Done>): (r: seq<Job>)
    ensures |r| == |ds|
  {
    seq(|ds|, i requires 0 <= i < |ds| => ds[i].job)
  }

  // ---------------------------------------------------------------------------------------
  // The invariant
  // ---------------------------------------------------------------------------------------

  /** What each connection keeps by itself, given its token. */
  type Health = (nat, Conn) -> bool

  ghost function Healthy(world: World): Health
  {
    (t: nat, c: Conn) => Good(c, world(t)) && Answers(BookOf(c.io), world(t))
  }

  /** A connection with token t: its own invariants, its dispatches are exactly its submitted jobs, and the pool results
      queued on it are the first of those dealt with for it; all of them if `exact`. */
  ghost predicate TokenOk(issued: seq<Job>, handled: seq<Job>, env: Env, h: Health, t: nat, c: Conn, exact: bool)
  {
    && h(t, c)
    && ByToken(issued, t) == c.io.dispatched
    && c.io.handed <= Replies(env, handled, t)
    && (exact ==> c.io.handed == Replies(env, handled, t))
  }

  /** Jobs carry the descriptor of the connection they came from. */
  predicate OwnFd(issued: seq<Job>, t: nat, fd: int)
  {
    forall i :: 0 <= i < |issued| && issued[i].token == t ==> issued[i].fd == fd
  }

  ghost predicate LiveOk(w: Worker, world: World, h: Health, fd: int, slack: set<int>)
    requires fd in w.connections
  {
    var e := w.connections[fd];
    && e.token < w.nextToken && e.token !in w.past && OwnFd(w.issued, e.token, fd)
    && TokenOk(w.issued, w.handled, world(e.token), h, e.token, e.conn, fd !in slack)
  }

  ghost predicate PastOk(w: Worker, world: World, h: Health, t: nat)
    requires t in w.past
  {
    t < w.nextToken && TokenOk(w.issued, w.handled, world(t), h, t, w.past[t], false)
  }

  /** All connections, those in `slack` up to a result not queued yet. */
  ghost predicate Conns(w: Worker, world: World, h: Health, slack: set<int>)
  {
    && (forall fd :: fd in w.connections ==> LiveOk(w, world, h, fd, slack))
    && (forall t :: t in w.past ==> PastOk(w, world, h, t))
    && (forall i :: 0 <= i < |w.issued| ==> w.issued[i].token < w.nextToken)
  }

  /** epoll watches exactly the mapped descriptors, and writability exactly where something is queued, except in
      `slack`. */
  predicate Watched(w: Worker, slack: set<int>)
  {
    && w.armed.Keys == w.connections.Keys
    && (forall fd :: fd in w.connections && fd !in slack ==> (w.armed[fd] <==> w.connections[fd].conn.io.chunks != []))
  }

  predicate Separate(cs: map<int, Entry>)
  {
    forall a, b :: a in cs && b in cs && cs[a].token == cs[b].token ==> a == b
  }

  /** A descriptor waiting to be adopted is not in use, nor waiting twice. */
  predicate Waiting(keys: set<int>, fds: seq<int>)
  {
    && (forall i :: 0 <= i < |fds| ==> fds[i] !in keys)
    && (forall i, j :: 0 <= i < j < |fds| ==> fds[i] != fds[j])
  }

  predicate Counted(w: Worker)
  {
    var n := w.counters;
    && n.submitted == n.inFlight + n.completed
    && n.inFlight == |w.tasks| + |w.completed| + |w.draining| + |w.lost|
  }

  /** Every submitted job is in exactly one place. */
  predicate Conserved(w: Worker)
  {
    multiset(w.issued) == multiset(w.tasks) + multiset(JobsIn(w.completed)) + multiset(JobsIn(w.draining))
                          + multiset(w.lost) + multiset(w.handled)
  }

  predicate Right(ds: seq<Done>, world: World)
  {
    forall i :: 0 <= i < |ds| ==> ds[i].response == Serve(world(ds[i].job.token).registry, ds[i].job.request)
  }

  /** What does not concern single connections. */
  ghost predicate Bookkeeping(w: Worker, world: World)
  {
    && Waiting(w.connections.Keys, w.adopting + w.pending)
    && Counted(w) && Conserved(w) && Right(w.completed, world) && Right(w.draining, world)
  }

  /** The invariant in the middle of a step: the connections in `late` may lack a result, the descriptors in `stale` may
      not be watched as they should. */
  ghost predicate Midway(w: Worker, world: World, h: Health, late: set<int>, stale: set<int>)
  {
    Conns(w, world, h, late) && Watched(w, stale) && Separate(w.connections) && Bookkeeping(w, world)
  }

  ghost predicate Inv(w: Worker, world: World) { Midway(w, world, Healthy(world), {}, {}) }

  lemma InvSound(w: Worker, world: World)
    requires Inv(w, world)
    ensures Sound(w)
  {
    forall fd | fd in w.connections ensures ChunksOk(w.connections[fd].conn.io.chunks) {
      assert LiveOk(w, world, Healthy(world), fd, {});
    }
  }

  // ---------------------------------------------------------------------------------------
  // Storing a connection that has run
  // ---------------------------------------------------------------------------------------

  /** What a connection that has run must satisfy to be stored. */
  ghost predicate Stores(w: Worker, world: World, h: Health, fd: int, conn: Conn, exact: bool)
    requires fd in w.connections
  {
    var e := w.connections[fd];
    && h(e.token, conn)
    && e.conn.io.dispatched <= conn.io.dispatched
    && conn.io.handed <= Replies(world(e.token), w.handled, e.token)
    && (exact ==> conn.io.handed == Replies(world(e.token), w.handled, e.token))
  }

  lemma SettleConns(w: Worker, world: World, h: Health, fd: int, conn: Conn, exact: bool)
    requires fd in w.connections && Conns(w, world, h, {fd}) && Separate(w.connections)
             && Stores(w, world, h, fd, conn, exact)
    ensures Conns(Settle(w, fd, conn), world, h, if exact then {} else {fd})
    ensures Separate(Settle(w, fd, conn).connections)
  {
    var v, t := Settle(w, fd, conn), w.connections[fd].token;
    forall f | f in v.connections ensures LiveOk(v, world, h, f, if exact then {} else {fd}) {
      SettleLive(w, world, h, fd, conn, exact, f);
    }
    assert LiveOk(w, world, h, fd, {fd});
    forall u | u in v.past ensures PastOk(v, world, h, u) {
      assert PastOk(w, world, h, u);
      assert u != t;
      ByTokenAppend(w.issued, fd, t, Since(w.connections[fd].conn.io, conn.io), u);
    }
  }

  lemma SettleLive(w: Worker, world: World, h: Health, fd: int, conn: Conn, exact: bool, f: int)
    requires fd in w.connections && f in w.connections && Stores(w, world, h, fd, conn, exact)
    requires LiveOk(w, world, h, fd, {fd}) && LiveOk(w, world, h, f, {fd})
    requires f != fd ==> w.connections[f].token != w.connections[fd].token
    ensures LiveOk(Settle(w, fd, conn), world, h, f, if exact then {} else {fd})
  {
    var t := w.connections[fd].token;
    var ds := Since(w.connections[fd].conn.io, conn.io);
    var v := Settle(w, fd, conn);
    ByTokenAppend(w.issued, fd, t, ds, w.connections[f].token);
    OwnFdAppend(w.issued, fd, t, ds, w.connections[f].token, f);
    assert v.issued == w.issued + JobsOf(fd, t, ds);
    if f == fd { assert w.connections[fd].conn.io.dispatched + ds == conn.io.dispatched; }
  }

  lemma OwnFdAppend(issued: seq<Job>, fd: int, t: nat, ds: seq<Dispatch>, u: nat, f: int)
    requires OwnFd(issued, u, f) && (u == t ==> f == fd)
    ensures OwnFd(issued + JobsOf(fd, t, ds), u, f)
  {
  }

  lemma SettleJobs(w: Worker, world: World, fd: int, conn: Conn)
    requires fd in w.connections && Counted(w) && Conserved(w)
    ensures Counted(Settle(w, fd, conn)) && Conserved(Settle(w, fd, conn))
  {
  }

  lemma ForgetConns(w: Worker, world: World, h: Health, fd: int)
    requires fd in w.connections && Conns(w, world, h, {fd}) && Separate(w.connections)
    ensures var v := Forget(w, fd); Conns(v, world, h, {}) && Separate(v.connections)
  {
    var v := Forget(w, fd);
    assert LiveOk(w, world, h, fd, {fd});
    forall f | f in v.connections ensures LiveOk(v, world, h, f, {}) {
      assert LiveOk(w, world, h, f, {fd});
    }
    forall u | u in v.past ensures PastOk(v, world, h, u) {
      if u in w.past { assert PastOk(w, world, h, u); }
    }
  }

  lemma SettleOk(w: Worker, world: World, h: Health, fd: int, conn: Conn, exact: bool)
    requires fd in w.connections && Midway(w, world, h, {fd}, {fd}) && Stores(w, world, h, fd, conn, exact)
    ensures Midway(Settle(w, fd, conn), world, h, if exact then {} else {fd}, {fd})
  {
    SettleConns(w, world, h, fd, conn, exact);
    SettleJobs(w, world, fd, conn);
    assert Settle(w, fd, conn).connections.Keys == w.connections.Keys;
  }

  lemma ForgetOk(w: Worker, world: World, h: Health, fd: int)
    requires fd in w.connections && Midway(w, world, h, {fd}, {fd})
    ensures Midway(Forget(w, fd), world, h, {}, {})
  {
    ForgetConns(w, world, h, fd);
  }

  lemma SlackOk(w: Worker, world: World, h: Health, late: set<int>, stale: set<int>, fd: int)
    requires Midway(w, world, h, late, stale) && late <= {fd} && stale <= {fd}
    ensures Midway(w, world, h, {fd}, {fd})
  {
    forall f | f in w.connections ensures LiveOk(w, world, h, f, {fd}) {
      assert LiveOk(w, world, h, f, late);
    }
  }

  // ---------------------------------------------------------------------------------------
  // Parts of a step
  // ---------------------------------------------------------------------------------------

  /** Closing only ends the coroutine. */
  lemma CloseConnOk(c: Conn, env: Env, now: nat)
    requires Good(c, env) && Answers(BookOf(c.io), env)
    ensures var d := CloseConn(c, env, now);
            Good(d, env) && IsFinished(d) && BookOf(d.io) == BookOf(c.io) && d.io.chunks == c.io.chunks
  {
    MarkClosingOk(c, env, now);
    ClosingTouchesNothing(c, env, now);
    NotifyReadableOk(MarkClosing(c, env, now), env, now);
    NotifyWritableOk(NotifyReadable(MarkClosing(c, env, now), env, now), env, now);
  }

  lemma CloseOk(w: Worker, world: World, fd: int, now: nat)
    requires fd in w.connections && Midway(w, world, Healthy(world), {fd}, {fd})
    ensures ChunksOk(w.connections[fd].conn.io.chunks)
    ensures var v := CloseConnection(w, fd, world, now);
            Midway(v, world, Healthy(world), {}, {}) && v.connections == w.connections - {fd}
  {
    var e := w.connections[fd];
    assert LiveOk(w, world, Healthy(world), fd, {fd});
    CloseConnOk(e.conn, world(e.token), now);
    var conn := CloseConn(e.conn, world(e.token), now);
    SettleOk(w, world, Healthy(world), fd, conn, false);
    ForgetOk(Settle(w, fd, conn), world, Healthy(world), fd);
    assert Settle(w, fd, conn).connections - {fd} == w.connections - {fd};
  }

  lemma RearmOk(w: Worker, world: World, h: Health, fd: int)
    requires fd in w.connections && Midway(w, world, h, {}, {fd})
    ensures Midway(w.(armed := w.armed[fd := w.connections[fd].conn.io.chunks != []]), world, h, {}, {})
  {
    var v := w.(armed := w.armed[fd := w.connections[fd].conn.io.chunks != []]);
    forall f | f in v.connections ensures LiveOk(v, world, h, f, {}) {
      assert LiveOk(w, world, h, f, {});
    }
    forall t | t in v.past ensures PastOk(v, world, h, t) {
      assert PastOk(w, world, h, t);
    }
  }

  lemma RefreshOk(w: Worker, world: World, fd: int, modOk: bool, now: nat)
    requires fd in w.connections && Midway(w, world, Healthy(world), {}, {fd})
    ensures ChunksOk(w.connections[fd].conn.io.chunks)
    ensures Inv(Refresh(w, fd, world, modOk, now), world)
  {
    SlackOk(w, world, Healthy(world), {}, {fd}, fd);
    CloseOk(w, world, fd, now);
    if modOk { RearmOk(w, world, Healthy(world), fd); }
  }

  // ---------------------------------------------------------------------------------------
  // Steps
  // ---------------------------------------------------------------------------------------

  /** A descriptor handed over by the acceptor is never one the worker still has: the duplicate check never fires. */
  lemma NeverADuplicate(w: Worker, world: World)
    requires Inv(w, world) && w.adopting != []
    ensures w.adopting[0] !in w.connections
  {
    assert (w.adopting + w.pending)[0] == w.adopting[0];
  }

  lemma {:induction false} NoneYet(env: Env, jobs: seq<Job>, t: nat)
    requires forall i :: 0 <= i < |jobs| ==> jobs[i].token < t
    ensures ByToken(jobs, t) == [] && Replies(env, jobs, t) == []
  {
    if |jobs| > 0 {
      assert jobs[|jobs| - 1].token < t;
      NoneYet(env, jobs[..|jobs| - 1], t);
    }
  }

  lemma HandledWereIssued(w: Worker)
    requires Conserved(w)
    ensures forall i :: 0 <= i < |w.handled| ==> w.handled[i] in w.issued
  {
    forall i | 0 <= i < |w.handled| ensures w.handled[i] in w.issued {
      assert w.handled[i] in multiset(w.handled);
      assert w.handled[i] in multiset(w.issued);
    }
  }

  lemma AdoptConns(w: Worker, world: World, h: Health, fd: int, conn: Conn)
    requires Conns(w, world, h, {}) && Separate(w.connections) && Conserved(w) && fd !in w.connections
    requires h(w.nextToken, conn) && conn.io.dispatched == [] && conn.io.handed == []
    ensures var v := w.(connections := w.connections[fd := Entry(conn, w.nextToken)], nextToken := w.nextToken + 1);
            Conns(v, world, h, {}) && Separate(v.connections)
  {
    var t := w.nextToken;
    var v := w.(connections := w.connections[fd := Entry(conn, t)], nextToken := t + 1);
    assert forall u :: u in w.past ==> PastOk(w, world, h, u) && u != t;
    HandledWereIssued(w);
    NoneYet(world(t), w.issued, t);
    NoneYet(world(t), w.handled, t);
    forall f | f in v.connections ensures LiveOk(v, world, h, f, {}) {
      if f != fd { assert LiveOk(w, world, h, f, {}); }
    }
    forall u | u in v.past ensures PastOk(v, world, h, u) {
      assert PastOk(w, world, h, u);
    }
    forall a, b | a in v.connections && b in v.connections && v.connections[a].token == v.connections[b].token
      ensures a == b {
      if a != fd { assert LiveOk(w, world, h, a, {}); }
      if b != fd { assert LiveOk(w, world, h, b, {}); }
    }
  }

  lemma ConnsElsewhere(w: Worker, v: Worker, world: World, h: Health, late: set<int>)
    requires Conns(w, world, h, late)
    requires v.connections == w.connections && v.past == w.past && v.issued == w.issued && v.handled == w.handled
    requires v.nextToken == w.nextToken
    ensures Conns(v, world, h, late)
  {
    forall f | f in v.connections ensures LiveOk(v, world, h, f, late) {
      assert LiveOk(w, world, h, f, late);
    }
    forall t | t in v.past ensures PastOk(v, world, h, t) {
      assert PastOk(w, world, h, t);
    }
  }

  lemma StartHealthy(env: Env, now: nat)
    ensures var c := Start(env, now);
            Good(c, env) && Answers(BookOf(c.io), env) && c.io.dispatched == [] && c.io.handed == []
                && c.io.chunks == []
  {
    StartOk(env, now);
    assert Start(env, now).io == EmptyIo;
  }

  lemma AdoptOk(w: Worker, world: World, added: bool, now: nat)
    requires Inv(w, world) && w.adopting != []
    ensures Inv(Adopt(w, world, added, now).0, world) && Adopt(w, world, added, now).1 == added
  {
    NeverADuplicate(w, world);
    if added {
      StartHealthy(world(w.nextToken), now);
      AdoptedOk(w, world, Healthy(world), Start(world(w.nextToken), now));
    } else {
      PassedOverOk(w, world, Healthy(world));
    }
  }

  lemma WaitingLess(w: Worker, keys: set<int>)
    requires w.adopting != [] && Waiting(w.connections.Keys, w.adopting + w.pending)
    requires keys == w.connections.Keys || keys == w.connections.Keys + {w.adopting[0]}
    ensures Waiting(keys, w.adopting[1..] + w.pending)
  {
    var all := w.adopting + w.pending;
    assert w.adopting[1..] + w.pending == all[1..] && all[0] == w.adopting[0];
  }

  lemma PassedOverOk(w: Worker, world: World, h: Health)
    requires Midway(w, world, h, {}, {}) && w.adopting != []
    ensures Midway(w.(adopting := w.adopting[1..]), world, h, {}, {})
  {
    WaitingLess(w, w.connections.Keys);
    ConnsElsewhere(w, w.(adopting := w.adopting[1..]), world, h, {});
  }

  lemma AdoptedOk(w: Worker, world: World, h: Health, conn: Conn)
    requires Midway(w, world, h, {}, {}) && w.adopting != [] && w.adopting[0] !in w.connections
    requires h(w.nextToken, conn) && conn.io.dispatched == [] && conn.io.handed == [] && conn.io.chunks == []
    ensures var fd := w.adopting[0];
            Midway(w.(adopting := w.adopting[1..], connections := w.connections[fd := Entry(conn, w.nextToken)],
                      armed := w.armed[fd := false], nextToken := w.nextToken + 1), world, h, {}, {})
  {
    var fd := w.adopting[0];
    var u := w.(connections := w.connections[fd := Entry(conn, w.nextToken)], nextToken := w.nextToken + 1);
    var v := u.(adopting := w.adopting[1..], armed := w.armed[fd := false]);
    AdoptConns(w, world, h, fd, conn);
    ConnsElsewhere(u, v, world, h, {});
    assert v.connections.Keys == w.connections.Keys + {fd};
    WaitingLess(w, v.connections.Keys);
  }

  /** The results' bookkeeping when the owner takes one off the batch. */
  function Noted(w: Worker): Worker
    requires w.draining != []
  {
    w.(draining := w.draining[1..], counters := Complete(w.counters), handled := w.handled + [w.draining[0].job])
  }

  lemma NotedConns(w: Worker, world: World, h: Health, f: int)
    requires w.draining != [] && f in w.connections && LiveOk(w, world, h, f, {})
    ensures var same := w.connections[f].token == w.draining[0].job.token;
            LiveOk(Noted(w), world, h, f, if same then {f} else {})
  {
    var t := w.connections[f].token;
    RepliesSnoc(world(t), w.handled, w.draining[0].job, t);
  }

  lemma NotedPast(w: Worker, world: World, h: Health, t: nat)
    requires w.draining != [] && t in w.past && PastOk(w, world, h, t)
    ensures PastOk(Noted(w), world, h, t)
  {
    RepliesSnoc(world(t), w.handled, w.draining[0].job, t);
  }

  lemma NotedBooks(w: Worker, world: World)
    requires w.draining != [] && Bookkeeping(w, world)
    ensures Bookkeeping(Noted(w), world) && w.counters.inFlight > 0
  {
    var d, rest := w.draining[0], w.draining[1..];
    assert JobsIn(w.draining) == [d.job] + JobsIn(rest);
  }

  /** A pool result comes back to the descriptor it was sent from, if its connection is still there. */
  lemma OnlyItsOwn(w: Worker, world: World, f: int)
    requires Inv(w, world) && w.draining != [] && f in w.connections
    ensures w.connections[f].token == w.draining[0].job.token ==> f == w.draining[0].job.fd
  {
    var j := w.draining[0].job;
    assert JobsIn(w.draining)[0] == j;
    assert j in multiset(JobsIn(w.draining));
    assert j in multiset(w.issued);
    assert LiveOk(w, world, Healthy(world), f, {});
  }

  lemma NotedOk(w: Worker, world: World)
    requires Inv(w, world) && w.draining != []
    ensures var fd := w.draining[0].job.fd;
            Midway(Noted(w), world, Healthy(world), if Live(w, w.draining[0].job) then {fd} else {}, {})
  {
    NotedBooks(w, world);
    NotedLive(w, world);
  }

  lemma NotedLive(w: Worker, world: World)
    requires Inv(w, world) && w.draining != []
    ensures var fd := w.draining[0].job.fd;
            Conns(Noted(w), world, Healthy(world), if Live(w, w.draining[0].job) then {fd} else {})
  {
    var v, fd := Noted(w), w.draining[0].job.fd;
    var late := if Live(w, w.draining[0].job) then {fd} else {};
    forall f | f in v.connections ensures LiveOk(v, world, Healthy(world), f, late) {
      OnlyItsOwn(w, world, f);
      LiveNoted(w, world, Healthy(world), f, late);
    }
    forall t | t in v.past ensures PastOk(v, world, Healthy(world), t) {
      NotedPast(w, world, Healthy(world), t);
    }
  }

  /** The connection a job came from is still mapped. */
  predicate Live(w: Worker, j: Job) { j.fd in w.connections && w.connections[j.fd].token == j.token }

  lemma LiveNoted(w: Worker, world: World, h: Health, f: int, late: set<int>)
    requires w.draining != [] && f in w.connections && LiveOk(w, world, h, f, {})
    requires w.connections[f].token == w.draining[0].job.token ==> f in late
    requires w.connections[f].token != w.draining[0].job.token ==> f !in late
    ensures LiveOk(Noted(w), world, h, f, late)
  {
    NotedConns(w, world, h, f);
  }

  lemma DeliverHealthy(c: Conn, env: Env, now: nat, r: Response)
    requires Good(c, env) && Answers(BookOf(c.io), env)
    ensures var (d, ok) := Deliver(c, env, now, r);
            && Good(d, env) && Answers(BookOf(d.io), env) && c.io.dispatched <= d.io.dispatched
            && d.io.handed == if ok then c.io.handed + [env.responses.serialise(r)] else c.io.handed
  {
    DeliverOk(c, env, now, r);
    DeliverAnswers(c, env, now, r);
  }

  lemma HandBackOk(w: Worker, world: World, modOk: bool, now: nat)
    requires Inv(w, world) && w.draining != []
    ensures Sound(w) && Inv(HandBack(w, world, modOk, now), world)
  {
    InvSound(w, world);
    NotedOk(w, world);
    var d := w.draining[0];
    assert HandBack(w, world, modOk, now)
        == if Live(w, d.job) then GiveBack(Noted(w), d.job.fd, d.response, world, modOk, now) else Noted(w);
    if Live(w, d.job) {
      OneBehind(w, world);
      GiveBackOk(Noted(w), world, d.job.fd, d.response, modOk, now);
    }
  }

  /** The connection lacks exactly the result just taken off the batch. */
  ghost predicate Lacks(w: Worker, world: World, fd: int, r: Response)
    requires fd in w.connections
  {
    var e := w.connections[fd];
    e.conn.io.handed + [world(e.token).responses.serialise(r)] == Replies(world(e.token), w.handled, e.token)
  }

  lemma OneBehind(w: Worker, world: World)
    requires Inv(w, world) && w.draining != [] && Live(w, w.draining[0].job)
    ensures Lacks(Noted(w), world, w.draining[0].job.fd, w.draining[0].response)
  {
    var d := w.draining[0];
    assert LiveOk(w, world, Healthy(world), d.job.fd, {});
    RepliesSnoc(world(d.job.token), w.handled, d.job, d.job.token);
  }

  lemma GiveBackOk(w: Worker, world: World, fd: int, r: Response, modOk: bool, now: nat)
    requires fd in w.connections && Midway(w, world, Healthy(world), {fd}, {}) && Lacks(w, world, fd, r)
    ensures ChunksOk(w.connections[fd].conn.io.chunks)
    ensures Inv(GiveBack(w, fd, r, world, modOk, now), world)
  {
    SlackOk(w, world, Healthy(world), {fd}, {}, fd);
    CloseOk(w, world, fd, now);
    var e := w.connections[fd];
    assert LiveOk(w, world, Healthy(world), fd, {fd});
    DeliverHealthy(e.conn, world(e.token), now, r);
    var (conn, ok) := Deliver(e.conn, world(e.token), now, r);
    if ok {
      SettleOk(w, world, Healthy(world), fd, conn, true);
      RefreshOk(Settle(w, fd, conn), world, fd, modOk, now);
    }
  }

  lemma TickHealthy(c: Conn, env: Env, now: nat)
    requires Good(c, env) && Answers(BookOf(c.io), env)
    ensures var d := Tick(c, env, now);
            && Good(d, env) && Answers(BookOf(d.io), env)
            && d.io.dispatched == c.io.dispatched && d.io.handed == c.io.handed && d.io.chunks == c.io.chunks
  {
    TickOk(c, env, now);
    ClosingTouchesNothing(c, env, now);
  }

  lemma TickAllOk(w: Worker, world: World, now: nat)
    requires Inv(w, world)
    ensures Sound(w) && Inv(TickAll(w, world, now), world)
  {
    InvSound(w, world);
    var v, h := TickAll(w, world, now), Healthy(world);
    forall f | f in v.connections
      ensures LiveOk(v, world, h, f, {}) && v.connections[f].conn.io.chunks == w.connections[f].conn.io.chunks
    {
      assert LiveOk(w, world, h, f, {});
      TickHealthy(w.connections[f].conn, world(w.connections[f].token), now);
    }
    forall t | t in v.past ensures PastOk(v, world, h, t) {
      assert PastOk(w, world, h, t);
    }
    assert v.connections.Keys == w.connections.Keys;
  }

  lemma NotifiedHealthy(c: Conn, env: Env, e: Event)
    requires Good(c, env) && Answers(BookOf(c.io), env)
    ensures var d := Notified(c, env, e); Good(d, env) && Continues(BookOf(c.io), BookOf(d.io), env)
  {
    RefusedOk(BookOf(c.io), env, 0);
    var a := if e.readable then NotifyReadable(c, env, e.now) else c;
    if e.readable { NotifyReadableOk(c, env, e.now); NotifyReadableAnswers(c, env, e.now); }
    var b := if e.writable then NotifyWritable(a, env, e.now) else a;
    if e.writable {
      NotifyWritableOk(a, env, e.now);
      NotifyWritableAnswers(a, env, e.now);
      ContinuesOn(BookOf(c.io), BookOf(a.io), BookOf(b.io), env);
    }
    if e.hangup { CloseConnOk(b, env, e.now); }
  }

  lemma OnEventOk(w: Worker, world: World, e: Event)
    requires Inv(w, world)
    ensures Sound(w) && Inv(OnEvent(w, world, e), world)
  {
    InvSound(w, world);
    if e.fd in w.connections {
      var entry := w.connections[e.fd];
      assert LiveOk(w, world, Healthy(world), e.fd, {});
      NotifiedHealthy(entry.conn, world(entry.token), e);
      var conn := Notified(entry.conn, world(entry.token), e);
      SlackOk(w, world, Healthy(world), {}, {}, e.fd);
      SettleOk(w, world, Healthy(world), e.fd, conn, true);
      var v := Settle(w, e.fd, conn);
      if !conn.coroutineOk || conn.shouldClose {
        SlackOk(v, world, Healthy(world), {}, {e.fd}, e.fd);
        CloseOk(v, world, e.fd, e.now);
      } else {
        RefreshOk(v, world, e.fd, e.modOk, e.now);
      }
    }
  }

  /** A step that leaves the connections alone. */
  lemma ApartOk(w: Worker, v: Worker, world: World, h: Health)
    requires Midway(w, world, h, {}, {}) && Bookkeeping(v, world)
    requires v.connections == w.connections && v.past == w.past && v.issued == w.issued && v.handled == w.handled
    requires v.nextToken == w.nextToken && v.armed == w.armed
    ensures Midway(v, world, h, {}, {})
  {
    ConnsElsewhere(w, v, world, h, {});
  }

  lemma FinishTaskBooks(w: Worker, world: World, i: nat)
    requires Bookkeeping(w, world) && i < |w.tasks|
    ensures Bookkeeping(FinishTask(w, world, i), world)
  {
    var v, job := FinishTask(w, world, i), w.tasks[i];
    assert w.tasks == w.tasks[..i] + [job] + w.tasks[i + 1..];
    if w.accepting { assert JobsIn(v.completed) == JobsIn(w.completed) + [job]; }
  }

  lemma FinishTaskOk(w: Worker, world: World, h: Health, i: nat)
    requires Midway(w, world, h, {}, {}) && i < |w.tasks|
    ensures Midway(FinishTask(w, world, i), world, h, {}, {})
  {
    FinishTaskBooks(w, world, i);
    ApartOk(w, FinishTask(w, world, i), world, h);
  }

  /** A descriptor that is not open joins the queue. */
  lemma ArriveWaiting(keys: set<int>, fds: seq<int>, fd: int)
    requires Waiting(keys, fds) && fd !in keys && fd !in fds
    ensures Waiting(keys, fds + [fd])
  {
  }

  lemma DropWaiting(keys: set<int>, a: seq<int>, b: seq<int>)
    requires Waiting(keys, a + b)
    ensures Waiting(keys, [] + b)
  {
    assert [] + b == (a + b)[|a|..];
  }

  lemma ShiftWaiting(w: Worker, a: Action)
    requires Waiting(w.connections.Keys, w.adopting + w.pending)
    ensures var v := Shift(w, a); Waiting(v.connections.Keys, v.adopting + v.pending)
  {
    var keys, v := w.connections.Keys, Shift(w, a);
    match a
    case Arrive(fd) =>
      if Unused(w, fd) {
        ArriveWaiting(keys, w.adopting + w.pending, fd);
        assert v.adopting + v.pending == (w.adopting + w.pending) + [fd];
      }
    case TakePending =>
      if w.adopting == [] { assert v.adopting + v.pending == w.adopting + w.pending; }
    case DropPending => DropWaiting(keys, w.adopting, w.pending);
    case _ =>
  }

  lemma ShiftJobs(w: Worker, a: Action)
    requires Counted(w) && Conserved(w)
    ensures Counted(Shift(w, a)) && Conserved(Shift(w, a))
  {
  }

  lemma ShiftResults(w: Worker, world: World, a: Action)
    requires Right(w.completed, world) && Right(w.draining, world)
    ensures var v := Shift(w, a); Right(v.completed, world) && Right(v.draining, world)
  {
  }

  lemma ShiftApart(w: Worker, a: Action)
    ensures var v := Shift(w, a);
            && v.connections == w.connections && v.past == w.past && v.issued == w.issued && v.handled == w.handled
            && v.nextToken == w.nextToken && v.armed == w.armed
  {
  }

  lemma ShiftBooks(w: Worker, world: World, a: Action)
    requires Bookkeeping(w, world)
    ensures Bookkeeping(Shift(w, a), world)
  {
    ShiftWaiting(w, a);
    ShiftJobs(w, a);
    ShiftResults(w, world, a);
  }

  lemma ShiftOk(w: Worker, world: World, h: Health, a: Action)
    requires Midway(w, world, h, {}, {})
    ensures Midway(Shift(w, a), world, h, {}, {})
  {
    ShiftBooks(w, world, a);
    ShiftApart(w, a);
    ApartOk(w, Shift(w, a), world, h);
  }

  lemma ShutOk(w: Worker, world: World, fd: int, now: nat)
    requires Inv(w, world)
    ensures Sound(w) && Inv(CloseConnection(w, fd, world, now), world)
  {
    InvSound(w, world);
    if fd in w.connections {
      SlackOk(w, world, Healthy(world), {}, {}, fd);
      CloseOk(w, world, fd, now);
    }
  }

  lemma AdoptStep(w: Worker, world: World, a: Action)
    requires Inv(w, world) && a.AdoptNext?
    ensures Sound(w) && Inv(Step(w, world, a), world)
  {
    InvSound(w, world);
    if w.adopting != [] {
      StepIsAdopt(w, world, a);
      AdoptOk(w, world, a.added, a.now);
    }
  }

  lemma StepIsAdopt(w: Worker, world: World, a: Action)
    requires Sound(w) && a.AdoptNext? && w.adopting != []
    ensures Step(w, world, a) == Adopt(w, world, a.added, a.now).0
  {
  }

  lemma HandBackStep(w: Worker, world: World, a: Action)
    requires Inv(w, world) && a.HandBackNext?
    ensures Sound(w) && Inv(Step(w, world, a), world)
  {
    InvSound(w, world);
    if w.draining != [] {
      StepIsHandBack(w, world, a);
      HandBackOk(w, world, a.modOk, a.now);
    }
  }

  lemma StepIsHandBack(w: Worker, world: World, a: Action)
    requires Sound(w) && a.HandBackNext? && w.draining != []
    ensures Step(w, world, a) == HandBack(w, world, a.modOk, a.now)
  {
  }

  lemma TimeoutsStep(w: Worker, world: World, a: Action)
    requires Inv(w, world) && a.Timeouts?
    ensures Sound(w) && Inv(Step(w, world, a), world)
  {
    TickAllOk(w, world, a.now);
  }

  lemma ReadyStep(w: Worker, world: World, a: Action)
    requires Inv(w, world) && a.Ready?
    ensures Sound(w) && Inv(Step(w, world, a), world)
  {
    OnEventOk(w, world, a.event);
  }

  lemma ShutStep(w: Worker, world: World, a: Action)
    requires Inv(w, world) && a.Shut?
    ensures Sound(w) && Inv(Step(w, world, a), world)
  {
    ShutOk(w, world, a.fd, a.now);
  }

  lemma FinishStep(w: Worker, world: World, a: Action)
    requires Inv(w, world) && a.Finish?
    ensures Sound(w) && Inv(Step(w, world, a), world)
  {
    InvSound(w, world);
    if a.i < |w.tasks| { FinishTaskOk(w, world, Healthy(world), a.i); }
  }

  predicate Shifting(a: Action)
  {
    a.Arrive? || a.TakePending? || a.DropPending? || a.TakeCompleted? || a.StopAccepting?
  }

  lemma ShiftStep(w: Worker, world: World, a: Action)
    requires Inv(w, world) && Shifting(a)
    ensures Sound(w) && Inv(Step(w, world, a), world)
  {
    InvSound(w, world);
    ShiftOk(w, world, Healthy(world), a);
    assert Step(w, world, a) == Shift(w, a);
  }

  lemma StepOk(w: Worker, world: World, a: Action)
    requires Inv(w, world)
    ensures Sound(w) && Inv(Step(w, world, a), world)
  {
    if a.AdoptNext? { AdoptStep(w, world, a); }
    else if a.HandBackNext? { HandBackStep(w, world, a); }
    else if a.Timeouts? { TimeoutsStep(w, world, a); }
    else if a.Ready? { ReadyStep(w, world, a); }
    else if a.Shut? { ShutStep(w, world, a); }
    else if a.Finish? { FinishStep(w, world, a); }
    else { ShiftStep(w, world, a); }
  }

  // ---------------------------------------------------------------------------------------
  // Every run
  // ---------------------------------------------------------------------------------------

  ghost function Run(w: Worker, world: World, actions: seq<Action>): Worker
    requires Inv(w, world)
    decreases |actions|
  {
    if |actions| == 0 then w
    else
      StepOk(w, world, actions[0]);
      Run(Step(w, world, actions[0]), world, actions[1..])
  }

  lemma {:induction false} RunOk(w: Worker, world: World, actions: seq<Action>)
    requires Inv(w, world)
    ensures Inv(Run(w, world, actions), world)
    decreases |actions|
  {
    if |actions| > 0 {
      StepOk(w, world, actions[0]);
      RunOk(Step(w, world, actions[0]), world, actions[1..]);
    }
  }

  lemma InitOk(world: World)
    ensures Inv(Init, world)
  {
  }
}
