/**
  A worker: the connections it owns by file descriptor, what epoll watches, the connections and pool results handed to
  it, and its request counters.  The steps are those its own thread makes inside `PollOnce`, in any order, and those of
  the acceptor and the pool threads between them.
 */
module WorkerLoop {
  import opened Rpc
  import opened Connection

  /** A request submitted to the pool, with the connection it came from. */
  datatype Job = Job(fd: int, token: nat, sequence: nat, request: Request)

  /** A pool result on its way back. */
  datatype Done = Done(job: Job, response: Response)

  datatype Entry = Entry(conn: Conn, token: nat)

  datatype Counters = Counters(submitted: nat, inFlight: nat, completed: nat)

  /** `armed` holds, for every descriptor registered with epoll, whether EPOLLOUT is watched.  `issued`, `handled`,
      `lost` and `past` are histories: the jobs submitted, the results the owner has dealt with, the results that came
      after the queue stopped accepting, and the closed connections by token. */
  datatype Worker = Worker(
    connections: map<int, Entry>,
    armed: map<int, bool>,
    pending: seq<int>,
    adopting: seq<int>,
    tasks: seq<Job>,
    completed: seq<Done>,
    draining: seq<Done>,
    accepting: bool,
    counters: Counters,
    nextToken: nat,
    issued: seq<Job>,
    handled: seq<Job>,
    lost: seq<Job>,
    past: map<nat, Conn>)

  /** The environment of the connection with a given token. */
  type World = nat -> Env

  datatype Event = Event(fd: int, readable: bool, writable: bool, hangup: bool, modOk: bool, now: nat)

  // ---------------------------------------------------------------------------------------
  // Parts of a step
  // ---------------------------------------------------------------------------------------

  function JobsOf(fd: int, token: nat, ds: seq<Dispatch>): (r: seq<Job>)
    ensures |r| == |ds|
  {
    seq(|ds|, i requires 0 <= i < |ds| => Job(fd, token, ds[i].sequence, ds[i].request))
  }

  function Submit(n: Counters, k: nat): Counters { n.(submitted := n.submitted + k, inFlight := n.inFlight + k) }

  function Complete(n: Counters): Counters
  {
    n.(inFlight := if n.inFlight > 0 then n.inFlight - 1 else 0, completed := n.completed + 1)
  }

  /** The dispatches made since `before`. */
  function Since(before: Io, after: Io): seq<Dispatch>
  {
    if |before.dispatched| <= |after.dispatched| then after.dispatched[|before.dispatched|..] else []
  }

  /** The connection has run: store it, and account for the requests it dispatched meanwhile. */
  function Settle(w: Worker, fd: int, conn: Conn): Worker
    requires fd in w.connections
  {
    var e := w.connections[fd];
    var jobs := JobsOf(fd, e.token, Since(e.conn.io, conn.io));
    w.(connections := w.connections[fd := Entry(conn, e.token)],
       tasks := w.tasks + jobs, issued := w.issued + jobs, counters := Submit(w.counters, |jobs|))
  }

  function CloseConn(c: Conn, env: Env, now: nat): Conn
    requires ChunksOk(c.io.chunks)
  {
    NotifyWritable(NotifyReadable(MarkClosing(c, env, now), env, now), env, now)
  }

  ghost predicate Sound(w: Worker) { forall fd :: fd in w.connections ==> ChunksOk(w.connections[fd].conn.io.chunks) }

  /** `CloseConnection`. */
  function CloseConnection(w: Worker, fd: int, world: World, now: nat): Worker
    requires fd in w.connections ==> ChunksOk(w.connections[fd].conn.io.chunks)
  {
    if fd !in w.connections then w
    else Forget(Settle(w, fd, CloseConn(w.connections[fd].conn, world(w.connections[fd].token), now)), fd)
  }

  function Forget(w: Worker, fd: int): Worker
    requires fd in w.connections
  {
    w.(connections := w.connections - {fd}, armed := w.armed - {fd},
       past := w.past[w.connections[fd].token := w.connections[fd].conn])
  }

  /** `UpdateEpollInterest`: watch for writability exactly while something is queued; if epoll refuses, close. */
  function Refresh(w: Worker, fd: int, world: World, modOk: bool, now: nat): Worker
    requires fd in w.connections && ChunksOk(w.connections[fd].conn.io.chunks)
  {
    if modOk then w.(armed := w.armed[fd := w.connections[fd].conn.io.chunks != []])
        else CloseConnection(w, fd, world, now)
  }

  // ---------------------------------------------------------------------------------------
  // Steps
  // ---------------------------------------------------------------------------------------

  /** `AddConnectionOnOwnerThread` for the first connection swapped out. */
  function Adopt(w: Worker, world: World, added: bool, now: nat): (Worker, bool)
    requires w.adopting != []
  {
    var fd := w.adopting[0];
    var v := w.(adopting := w.adopting[1..]);
    if !added then (v, false)
    else if fd in w.connections then (v.(nextToken := w.nextToken + 1, armed := w.armed - {fd}), false)
    else
      (v.(connections := w.connections[fd := Entry(Start(world(w.nextToken), now), w.nextToken)],
          armed := w.armed[fd := false], nextToken := w.nextToken + 1), true)
  }

  /** One round of `DrainCompletedResponses`. */
  function HandBack(w: Worker, world: World, modOk: bool, now: nat): Worker
    requires w.draining != [] && Sound(w)
  {
    var d := w.draining[0];
    var v := w.(draining := w.draining[1..], counters := Complete(w.counters), handled := w.handled + [d.job]);
    var fd := d.job.fd;
    if fd !in w.connections || w.connections[fd].token != d.job.token then v
    else GiveBack(v, fd, d.response, world, modOk, now)
  }

  /** Queue a result on the connection at `fd`. */
  function GiveBack(w: Worker, fd: int, r: Response, world: World, modOk: bool, now: nat): Worker
    requires fd in w.connections && ChunksOk(w.connections[fd].conn.io.chunks)
  {
    var e := w.connections[fd];
    var (conn, ok) := Deliver(e.conn, world(e.token), now, r);
    if !ok then CloseConnection(w, fd, world, now)
    else Refresh(Settle(w, fd, conn), fd, world, modOk, now)
  }

  /** The timeout pass over all connections. */
  function TickAll(w: Worker, world: World, now: nat): Worker
    requires Sound(w)
  {
    w.(connections := map fd | fd in w.connections :: Ticked(w.connections[fd], world, now))
  }

  function Ticked(e: Entry, world: World, now: nat): Entry
    requires ChunksOk(e.conn.io.chunks)
  {
    e.(conn := Tick(e.conn, world(e.token), now))
  }

  /** The notifications an epoll event causes, in order. */
  function Notified(c: Conn, env: Env, e: Event): (r: Conn)
    requires ChunksOk(c.io.chunks)
    ensures ChunksOk(r.io.chunks)
  {
    var a := if e.readable then NotifyReadable(c, env, e.now) else c;
    var b := if e.writable then NotifyWritable(a, env, e.now) else a;
    if e.hangup then NotifyWritable(NotifyReadable(MarkClosing(b, env, e.now), env, e.now), env, e.now) else b
  }

  /** One round of the event loop. */
  function OnEvent(w: Worker, world: World, e: Event): Worker
    requires Sound(w)
  {
    if e.fd !in w.connections then w
    else
      var conn := Notified(w.connections[e.fd].conn, world(w.connections[e.fd].token), e);
      var v := Settle(w, e.fd, conn);
      if !conn.coroutineOk || conn.shouldClose then CloseConnection(v, e.fd, world, e.now)
      else Refresh(v, e.fd, world, e.modOk, e.now)
  }

  /** A pool thread finishes the i-th task. */
  function FinishTask(w: Worker, world: World, i: nat): Worker
    requires i < |w.tasks|
  {
    var job := w.tasks[i];
    var v := w.(tasks := w.tasks[..i] + w.tasks[i + 1..]);
    if w.accepting then v.(completed := w.completed + [Done(job, Serve(world(job.token).registry, job.request))])
    else v.(lost := w.lost + [job])
  }

  datatype Action =
    | Arrive(fd: int)
    | TakePending
    | AdoptNext(added: bool, now: nat)
    | DropPending
    | TakeCompleted
    | HandBackNext(modOk: bool, now: nat)
    | Timeouts(now: nat)
    | Ready(event: Event)
    | Shut(fd: int, now: nat)
    | Finish(i: nat)
    | StopAccepting

  /** The kernel gives the acceptor a descriptor that is not open. */
  predicate Unused(w: Worker, fd: int) { fd !in w.connections && fd !in w.pending && fd !in w.adopting }

  /** The steps that only move things between queues. */
  function Shift(w: Worker, a: Action): Worker
  {
    match a
    case Arrive(fd) => if Unused(w, fd) then w.(pending := w.pending + [fd]) else w
    case TakePending => if w.adopting == [] then w.(adopting := w.pending, pending := []) else w
    case DropPending => w.(adopting := [])
    case TakeCompleted => if w.draining == [] then w.(draining := w.completed, completed := []) else w
    case StopAccepting => w.(accepting := false)
    case _ => w
  }

  function Step(w: Worker, world: World, a: Action): Worker
    requires Sound(w)
  {
    match a
    case AdoptNext(added, now) => if w.adopting != [] then Adopt(w, world, added, now).0 else w
    case HandBackNext(modOk, now) => if w.draining != [] then HandBack(w, world, modOk, now) else w
    case Timeouts(now) => TickAll(w, world, now)
    case Ready(e) => OnEvent(w, world, e)
    case Shut(fd, now) => CloseConnection(w, fd, world, now)
    case Finish(i) => if i < |w.tasks| then FinishTask(w, world, i) else w
    case _ => Shift(w, a)
  }

  const Init: Worker :=
    Worker(map[], map[], [], [], [], [], [], true, Counters(0, 0, 0), 0, [], [], [], map[])
}
