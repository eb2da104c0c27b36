/**
  The thread pool: one bounded queue per worker, a submit path that only notifies a worker it saw waiting, a
  blocking slow path, and shutdown.

  A step is one access to shared state by one thread.  The queue is the one `RingQueue.RingRefinesQueue` justifies:
  a push first claims a ticket and publishes it later, and only a published head can be popped.
 */
module ThreadPool {
  import opened Common

  /** A claimed ticket of a queue; the owner is the call of `Submit` that claimed it. */
  datatype Entry<T> = Entry(task: T, owner: nat, published: bool)

  /** A ticket as it is remembered once it has left the queue. */
  datatype Ticket<T> = Ticket(task: T, owner: nat)

  /** Where a worker stands inside `WorkerMain`. */
  datatype WorkerPc =
    | Popping
    | CheckStop
    | SetWaiting
    | Recheck
    | ClearRetry
    | CheckStopAgain
    | ClearExit
    | Locking
    | PredStop
    | PredEmpty
    | Leaving
    | GoSleep
    | Asleep
    | Woken
    | NotifyProducers
    | Running
    | Exited

  datatype Owner = Free | ByWorker | BySubmitter(s: nat) | ByStopper(k: nat)

  /** `history` lists the claimed tickets; `look` lists those that could be popped, or had been, when the worker last
      looked at its queue. */
  datatype Worker<T> = Worker(
    queue: seq<Entry<T>>,
    pc: WorkerPc,
    waiting: bool,
    lock: Owner,
    batch: seq<Ticket<T>>,
    executed: seq<Ticket<T>>,
    history: seq<Ticket<T>>,
    look: seq<Ticket<T>>)

  /** Where a call of `Submit` stands. */
  datatype Submitter<T> =
    | Out
    | Trying(task: T, idx: nat, tried: seq<nat>, start: nat)
    | Claimed(task: T, idx: nat)
    | Counting(task: T, idx: nat)
    | CheckWaiting(task: T, idx: nat)
    | NotifyLock(task: T, idx: nat)
    | NotifyHold(task: T, idx: nat)
    | SlowLock(task: T, idx: nat, tried: seq<nat>)
    | SlowTry(task: T, idx: nat)
    | SlowCheck(task: T, idx: nat)
    | SlowGoSleep(task: T, idx: nat)
    | SlowAsleep(task: T, idx: nat)
    | SlowWoken(task: T, idx: nat)
    | SlowClaimed(task: T, idx: nat)
    | SlowNotify(task: T, idx: nat)
    | Returned(task: T, ok: bool, idx: nat)

  datatype Stopper =
    | NotStopping
    | StopFlag(wasAccepting: bool)
    | StopLoop(i: nat)
    | StopHeld(i: nat)
    | StopNotify(i: nat)
    | StopDone

  /** `submitters` is indexed by call, so that a thread that submits again is a new index; `first` is the stopper that
      raised the flag. */
  datatype Pool<T> = Pool(
    workers: seq<Worker<T>>,
    submitters: map<nat, Submitter<T>>,
    stoppers: map<nat, Stopper>,
    accepting: bool,
    stop: bool,
    first: Option<nat>,
    capacity: nat,
    batchSize: nat)

  datatype Action<T> =
    | Submit(s: nat, task: T, hint: nat)
    | SubmitStep(s: nat, wake: Option<nat>)
    | Work(w: nat)
    | SpuriousWake(w: nat)
    | SpuriousSubmitterWake(s: nat)
    | StopStep(k: nat)

  function FreshWorker<T>(): Worker<T> { Worker([], Popping, false, Free, [], [], [], []) }

  function Init<T>(threads: nat, capacity: nat, batchSize: nat): Pool<T>
  {
    Pool(seq(threads, _ => FreshWorker()), map[], map[], true, false, None, capacity, batchSize)
  }

  function SubmitterOf<T>(p: Pool<T>, s: nat): Submitter<T>
  {
    if s in p.submitters then p.submitters[s] else Out
  }

  function StopperOf<T>(p: Pool<T>, k: nat): Stopper
  {
    if k in p.stoppers then p.stoppers[k] else NotStopping
  }

  predicate HeadPublished<T>(q: seq<Entry<T>>) { |q| > 0 && q[0].published }

  function Tickets<T>(q: seq<Entry<T>>): (r: seq<Ticket<T>>)
    ensures |r| == |q|
  {
    seq(|q|, i requires 0 <= i < |q| => Ticket(q[i].task, q[i].owner))
  }

  /** The entries that can be popped: the published ones with only published ones before them. */
  function Visible<T>(q: seq<Entry<T>>): seq<Entry<T>>
  {
    if HeadPublished(q) then [q[0]] + Visible(q[1..]) else []
  }

  /** The tickets that a worker has popped or could pop now. */
  function Shown<T>(d: Worker<T>): seq<Ticket<T>> { d.executed + d.batch + Tickets(Visible(d.queue)) }

  /** The store that publishes submitter `s`'s ticket. */
  function PublishBy<T>(q: seq<Entry<T>>, s: nat): (r: seq<Entry<T>>)
    ensures |r| == |q|
  {
    seq(|q|, i requires 0 <= i < |q| => if q[i].owner == s then q[i].(published := true) else q[i])
  }

  function SetWorker<T>(p: Pool<T>, w: nat, x: Worker<T>): Pool<T>
    requires w < |p.workers|
  {
    p.(workers := p.workers[w := x])
  }

  function SetSubmitter<T>(p: Pool<T>, s: nat, x: Submitter<T>): Pool<T>
  {
    p.(submitters := p.submitters[s := x])
  }

  /** notify_one on worker `w`'s condition variable: the scheduler picks the slow-path sleeper `wake`, if that is one,
      and the worker otherwise. */
  function NotifyOne<T>(p: Pool<T>, w: nat, wake: Option<nat>): Pool<T>
    requires w < |p.workers|
  {
    if wake.Some? && SubmitterOf(p, wake.value).SlowAsleep? && SubmitterOf(p, wake.value).idx == w then
      SetSubmitter(p, wake.value, SlowWoken(SubmitterOf(p, wake.value).task, w))
    else WakeWorker(p, w)
  }

  function WakeWorker<T>(p: Pool<T>, w: nat): Pool<T>
    requires w < |p.workers|
  {
    if p.workers[w].pc.Asleep? then SetWorker(p, w, p.workers[w].(pc := Woken)) else p
  }

  function WakeSubmitter<T>(x: Submitter<T>, w: nat): Submitter<T>
  {
    if x.SlowAsleep? && x.idx == w then SlowWoken(x.task, w) else x
  }

  function NotifyAll<T>(p: Pool<T>, w: nat): Pool<T>
    requires w < |p.workers|
  {
    WakeWorker(p, w).(submitters := map s | s in p.submitters :: WakeSubmitter(p.submitters[s], w))
  }

  /** The claim of `TryPush`, possible only while a ticket is free. */
  function Claim<T>(x: Worker<T>, task: T, s: nat): Worker<T>
  {
    x.(queue := x.queue + [Entry(task, s, false)], history := x.history + [Ticket(task, s)])
  }

  /** The publish of `TryPush`. */
  function Publish<T>(x: Worker<T>, s: nat): Worker<T> { x.(queue := PublishBy(x.queue, s)) }

  function Unlock<T>(p: Pool<T>, w: nat): Pool<T>
    requires w < |p.workers|
  {
    SetWorker(p, w, p.workers[w].(lock := Free))
  }

  /** `(w + 1) % n`, for a worker index. */
  function Following(w: nat, n: nat): nat { if w + 1 == n then 0 else w + 1 }

  /** `(start + j) % n`, for a worker index and a distance below n. */
  function Around(start: nat, j: nat, n: nat): nat
  {
    if start + j >= n then start + j - n else start + j
  }

  function SubmitterNext<T>(p: Pool<T>, s: nat, wake: Option<nat>): Pool<T>
  {
    var x := SubmitterOf(p, s);
    if x.Out? || x.Returned? || x.idx >= |p.workers| then p else
    var w := x.idx;
    var d := p.workers[w];
    match x
    case Trying(task, _, tried, start) =>
      if |d.queue| < p.capacity then SetSubmitter(SetWorker(p, w, Claim(d, task, s)), s, Claimed(task, w))
      else if |tried| + 1 < |p.workers|
          then SetSubmitter(p, s, Trying(task, Following(w, |p.workers|), tried + [w], start))
      else SetSubmitter(p, s, SlowLock(task, Following(w, |p.workers|), tried + [w]))
    case Claimed(task, _) => SetSubmitter(SetWorker(p, w, Publish(d, s)), s, Counting(task, w))
    case Counting(task, _) => SetSubmitter(p, s, CheckWaiting(task, w))
    case CheckWaiting(task, _) =>
      if d.waiting then SetSubmitter(p, s, NotifyLock(task, w)) else SetSubmitter(p, s, Returned(task, true, w))
    case NotifyLock(task, _) =>
      if d.lock.Free? then SetSubmitter(SetWorker(p, w, d.(lock := BySubmitter(s))), s, NotifyHold(task, w)) else p
    case NotifyHold(task, _) =>
      SetSubmitter(Unlock(NotifyOne(p, w, wake), w), s, Returned(task, true, w))
    case SlowLock(task, _, _) =>
      if d.lock.Free? then SetSubmitter(SetWorker(p, w, d.(lock := BySubmitter(s))), s, SlowTry(task, w)) else p
    case SlowTry(task, _) =>
      if |d.queue| < p.capacity then SetSubmitter(SetWorker(p, w, Claim(d, task, s)), s, SlowClaimed(task, w))
      else SetSubmitter(p, s, SlowCheck(task, w))
    case SlowCheck(task, _) =>
      if !p.accepting then SetSubmitter(Unlock(p, w), s, Returned(task, false, w))
      else SetSubmitter(p, s, SlowGoSleep(task, w))
    case SlowGoSleep(task, _) => SetSubmitter(Unlock(p, w), s, SlowAsleep(task, w))
    case SlowAsleep(_, _) => p
    case SlowWoken(task, _) =>
      if d.lock.Free? then SetSubmitter(SetWorker(p, w, d.(lock := BySubmitter(s))), s, SlowTry(task, w)) else p
    case SlowClaimed(task, _) => SetSubmitter(SetWorker(p, w, Publish(d, s)), s, SlowNotify(task, w))
    case SlowNotify(task, _) => SetSubmitter(Unlock(NotifyOne(p, w, wake), w), s, Returned(task, true, w))
  }

  /** The worker's next step examines its queue: the pop of `PopBatch`, or `Empty`. */
  predicate Looks<T>(d: Worker<T>, batchSize: nat)
  {
    (d.pc.Popping? && (|d.batch| < batchSize || |d.batch| == 0)) || d.pc.Recheck? || d.pc.PredEmpty?
  }

  /** A worker's step on its own state; `d` comes back unchanged where it has to wait. */
  function Advance<T>(d: Worker<T>, stop: bool, batchSize: nat): Worker<T>
  {
    Go(if Looks(d, batchSize) then d.(look := Shown(d)) else d, stop, batchSize)
  }

  function Go<T>(d: Worker<T>, stop: bool, batchSize: nat): Worker<T>
  {
    match d.pc
    case Popping =>
      if HeadPublished(d.queue) && |d.batch| < batchSize then
        d.(queue := d.queue[1..], batch := d.batch + [Ticket(d.queue[0].task, d.queue[0].owner)])
      else if |d.batch| > 0 then d.(pc := NotifyProducers)
      else if HeadPublished(d.queue) then d
      else d.(pc := CheckStop)
    case CheckStop => if stop then d.(pc := Exited) else d.(pc := SetWaiting)
    case SetWaiting => d.(pc := Recheck, waiting := true)
    case Recheck => if HeadPublished(d.queue) then d.(pc := ClearRetry) else d.(pc := CheckStopAgain)
    case ClearRetry => d.(pc := Popping, waiting := false)
    case CheckStopAgain => if stop then d.(pc := ClearExit) else d.(pc := Locking)
    case ClearExit => d.(pc := Exited, waiting := false)
    case Locking => if d.lock.Free? then d.(pc := PredStop, lock := ByWorker) else d
    case PredStop => d.(pc := if stop then Leaving else PredEmpty)
    case PredEmpty => d.(pc := if HeadPublished(d.queue) then Leaving else GoSleep)
    case Leaving => d.(pc := Popping, waiting := false, lock := Free)
    case GoSleep => d.(pc := Asleep, lock := Free)
    case Asleep => d
    case Woken => if d.lock.Free? then d.(pc := PredStop, lock := ByWorker) else d
    case NotifyProducers => d.(pc := Running)
    case Running =>
      if |d.batch| > 0 then d.(batch := d.batch[1..], executed := d.executed + [d.batch[0]]) else d.(pc := Popping)
    case Exited => d
  }

  /** The batch's notify_all to producers waiting for room happens together with the step that leaves it. */
  function WorkerNext<T>(p: Pool<T>, w: nat): Pool<T>
    requires w < |p.workers|
  {
    var d := p.workers[w];
    SetWorker(if d.pc.NotifyProducers? then NotifyAll(p, w) else p, w, Advance(d, p.stop, p.batchSize))
  }

  function StopperNext<T>(p: Pool<T>, k: nat): Pool<T>
  {
    match StopperOf(p, k)
    case NotStopping => p.(accepting := false, stoppers := p.stoppers[k := StopFlag(p.accepting)])
    case StopFlag(wasAccepting) =>
      var go := wasAccepting || !p.stop;
      p.(stop := true, first := if p.stop then p.first else Some(k),
         stoppers := p.stoppers[k := if go then StopLoop(0) else StopDone])
    case StopLoop(i) =>
      if i >= |p.workers| then p.(stoppers := p.stoppers[k := StopDone])
      else if p.workers[i].lock.Free? then
        SetWorker(p, i, p.workers[i].(lock := ByStopper(k))).(stoppers := p.stoppers[k := StopHeld(i)])
      else p
    case StopHeld(i) =>
      if i >= |p.workers| then p else Unlock(p, i).(stoppers := p.stoppers[k := StopNotify(i)])
    case StopNotify(i) =>
      if i >= |p.workers| then p else NotifyAll(p, i).(stoppers := p.stoppers[k := StopLoop(i + 1)])
    case StopDone => p
  }

  function Next<T>(p: Pool<T>, a: Action<T>): Pool<T>
  {
    match a
    case Submit(s, task, hint) =>
      var x := SubmitterOf(p, s);
      if hint >= |p.workers| || !x.Out? then p
      else if !p.accepting then SetSubmitter(p, s, Returned(task, false, 0))
      else SetSubmitter(p, s, Trying(task, hint, [], hint))
    case SubmitStep(s, wake) => SubmitterNext(p, s, wake)
    case Work(w) => if w < |p.workers| then WorkerNext(p, w) else p
    case SpuriousWake(w) => if w < |p.workers| then WakeWorker(p, w) else p
    case SpuriousSubmitterWake(s) =>
      var x := SubmitterOf(p, s);
      if x.SlowAsleep? then SetSubmitter(p, s, SlowWoken(x.task, x.idx)) else p
    case StopStep(k) => StopperNext(p, k)
  }

  function Exec<T>(p: Pool<T>, run: seq<Action<T>>): Pool<T>
    decreases |run|
  {
    if |run| == 0 then p else Exec(Next(p, run[0]), run[1..])
  }

  // ---------------------------------------------------------------------------------------
  // The inductive invariant
  // ---------------------------------------------------------------------------------------

  predicate WorkerHolds(pc: WorkerPc) { pc.PredStop? || pc.PredEmpty? || pc.Leaving? || pc.GoSleep? }

  predicate SubmitterHolds<T>(x: Submitter<T>)
  {
    x.NotifyHold? || x.SlowTry? || x.SlowCheck? || x.SlowGoSleep? || x.SlowClaimed? || x.SlowNotify?
  }

  /** Is in the blocking path of `Submit` on worker `w`'s condition variable. */
  predicate InSlow<T>(x: Submitter<T>, w: nat)
  {
    && (x.SlowTry? || x.SlowCheck? || x.SlowGoSleep? || x.SlowAsleep? || x.SlowWoken? || x.SlowClaimed?
       || x.SlowNotify?)
    && x.idx == w
  }

  ghost predicate SlowAt<T>(p: Pool<T>, w: nat) { exists s: nat :: InSlow(SubmitterOf(p, s), w) }

  /** Has published and will still look at the waiting flag or notify. */
  predicate Committed<T>(x: Submitter<T>, w: nat)
  {
    (x.Counting? || x.CheckWaiting? || x.NotifyLock? || x.NotifyHold? || x.SlowNotify?) && x.idx == w
  }

  predicate Advertises(pc: WorkerPc)
  {
    pc.Recheck? || pc.ClearRetry? || pc.CheckStopAgain? || pc.ClearExit? || pc.Locking? || pc.Woken?
    || pc.Asleep? || WorkerHolds(pc)
  }

  /** Facts about one worker alone. */
  ghost predicate WorkerOk<T>(capacity: nat, d: Worker<T>)
  {
    && (d.waiting <==> Advertises(d.pc))
    && (WorkerHolds(d.pc) ==> d.lock == ByWorker)
    && d.history == d.executed + d.batch + Tickets(d.queue)
    && |d.queue| <= capacity
    && (d.pc.CheckStop? || d.pc.CheckStopAgain? || d.pc.ClearExit? || d.pc.Exited? ==> d.look == d.executed)
    && (!d.pc.Popping? && !d.pc.Running? && !d.pc.NotifyProducers? ==> d.batch == [])
  }

  /** No lost wakeup, for one worker. */
  ghost predicate WakeupOk<T>(p: Pool<T>, w: nat)
    requires w < |p.workers|
  {
    var d := p.workers[w];
    (d.pc.GoSleep? || d.pc.Asleep?) && HeadPublished(d.queue)
    ==> Committed(SubmitterOf(p, d.queue[0].owner), w) || SlowAt(p, w) || !p.accepting
  }

  /** The first stopper still has worker `w` ahead of it, or is at it. */
  predicate Covers(x: Stopper, w: nat)
  {
    || (x.StopLoop? && x.i <= w)
    || (x.StopHeld? && x.i <= w)
    || (x.StopNotify? && x.i <= w)
  }

  ghost predicate StopOk<T>(p: Pool<T>, w: nat)
    requires w < |p.workers|
  {
    var d := p.workers[w];
    && (p.stop && (d.pc.PredEmpty? || d.pc.GoSleep?) ==>
          p.first.Some? && Covers(StopperOf(p, p.first.value), w) && StopperOf(p, p.first.value) != StopNotify(w))
    && (p.stop && d.pc.Asleep? ==> p.first.Some? && Covers(StopperOf(p, p.first.value), w))
    && (d.pc.Exited? || d.pc.ClearExit? ==> p.stop)
  }

  ghost predicate SubmitterOk<T>(p: Pool<T>, s: nat)
  {
    var x := SubmitterOf(p, s);
    && (!x.Out? && !x.Returned? ==> x.idx < |p.workers|)
    && (SubmitterHolds(x) ==> x.idx < |p.workers| && p.workers[x.idx].lock == BySubmitter(s))
    && (p.stop && (x.SlowAsleep? || x.SlowGoSleep?) ==> p.first.Some? && Covers(StopperOf(p, p.first.value), x.idx))
    && (p.stop && x.SlowGoSleep? ==> StopperOf(p, p.first.value) != StopNotify(x.idx))
    && (x.Trying? ==> TriesInOrder(p, x))
    && (x.SlowLock? ==> forall w: nat :: w < |p.workers| ==> w in x.tried)
    && (OwnsTicket(x) ==> x.idx < |p.workers| && Ticket(x.task, s) in p.workers[x.idx].history)
    && (x.Returned? && !x.ok ==> !p.accepting)
  }

  /** The call's task has a ticket in queue `idx`. */
  predicate OwnsTicket<T>(x: Submitter<T>)
  {
    || x.Claimed? || x.Counting? || x.CheckWaiting? || x.NotifyLock? || x.NotifyHold?
    || x.SlowClaimed? || x.SlowNotify? || (x.Returned? && x.ok)
  }

  ghost predicate TriesInOrder<T>(p: Pool<T>, x: Submitter<T>)
    requires x.Trying?
  {
    && x.start < |p.workers| && |x.tried| < |p.workers|
    && x.idx == Around(x.start, |x.tried|, |p.workers|)
    && forall j :: 0 <= j < |x.tried| ==> x.tried[j] == Around(x.start, j, |p.workers|)
  }

  ghost predicate StopperOk<T>(p: Pool<T>, k: nat)
  {
    var x := StopperOf(p, k);
    && (x.NotStopping? || !p.accepting)
    && (x.StopHeld? ==> x.i < |p.workers| && p.workers[x.i].lock == ByStopper(k))
    && (x.StopNotify? ==> x.i < |p.workers|)
  }

  /** Has raised the stop flag. */
  predicate HasStopped(x: Stopper) { !x.NotStopping? && !x.StopFlag? }

  ghost predicate WorkersOk<T>(p: Pool<T>)
  {
    forall w :: 0 <= w < |p.workers| ==> WorkerOk(p.capacity, p.workers[w])
  }

  ghost predicate SleepersOk<T>(p: Pool<T>)
  {
    && (forall w: nat :: w < |p.workers| ==> WakeupOk(p, w))
    && (forall w: nat :: w < |p.workers| ==> StopOk(p, w))
  }

  ghost predicate CallersOk<T>(p: Pool<T>)
  {
    && (p.stop ==> p.first.Some? && !p.accepting && HasStopped(StopperOf(p, p.first.value)))
    && (!p.accepting && !p.stop ==> exists k: nat :: StopperOf(p, k).StopFlag?)
    && (forall s: nat :: SubmitterOk(p, s))
    && (forall k: nat :: StopperOk(p, k))
  }

  /** How many of the tickets belong to call `s`. */
  function Owned<T>(ts: seq<Ticket<T>>, s: nat): nat
  {
    if |ts| == 0 then 0 else Owned(ts[..|ts| - 1], s) + (if ts[|ts| - 1].owner == s then 1 else 0)
  }

  /** How many tickets the queues ever gave to call `s`. */
  function Claims<T>(ws: seq<Worker<T>>, s: nat): nat
  {
    if |ws| == 0 then 0 else Claims(ws[..|ws| - 1], s) + Owned(ws[|ws| - 1].history, s)
  }

  /** A call has one ticket or none, as its place in `Submit` says. */
  ghost predicate TicketsOk<T>(p: Pool<T>)
  {
    forall s: nat :: Claims(p.workers, s) == if OwnsTicket(SubmitterOf(p, s)) then 1 else 0
  }

  ghost predicate Inv<T>(p: Pool<T>) { WorkersOk(p) && SleepersOk(p) && CallersOk(p) && TicketsOk(p) }

  lemma InitInv<T>(threads: nat, capacity: nat, batchSize: nat)
    ensures Inv(Init<T>(threads, capacity, batchSize))
  {
    forall s: nat ensures Claims(Init<T>(threads, capacity, batchSize).workers, s) == 0 {
      NoClaims(Init<T>(threads, capacity, batchSize).workers, s);
    }
  }

  lemma {:induction false} NoClaims<T>(ws: seq<Worker<T>>, s: nat)
    requires forall w :: 0 <= w < |ws| ==> ws[w].history == []
    ensures Claims(ws, s) == 0
  {
    if |ws| > 0 { NoClaims(ws[..|ws| - 1], s); }
  }

  // ---------------------------------------------------------------------------------------
  // Counting tickets
  // ---------------------------------------------------------------------------------------

  lemma {:induction false} ClaimsChange<T>(ws: seq<Worker<T>>, w: nat, x: Worker<T>, s: nat)
    requires w < |ws|
    ensures Claims(ws[w := x], s) == Claims(ws, s) - Owned(ws[w].history, s) + Owned(x.history, s)
  {
    var n := |ws| - 1;
    if w == n {
      assert ws[w := x][..n] == ws[..n];
    } else {
      assert ws[w := x][..n] == ws[..n][w := x];
      ClaimsChange(ws[..n], w, x, s);
    }
  }

  lemma ClaimsSame<T>(ws: seq<Worker<T>>, w: nat, x: Worker<T>)
    requires w < |ws| && x.history == ws[w].history
    ensures forall s: nat :: Claims(ws[w := x], s) == Claims(ws, s)
  {
    forall s: nat ensures Claims(ws[w := x], s) == Claims(ws, s) { ClaimsChange(ws, w, x, s); }
  }

  lemma OneMoreOwned<T>(ts: seq<Ticket<T>>, t: Ticket<T>, s: nat)
    ensures Owned(ts + [t], s) == Owned(ts, s) + (if t.owner == s then 1 else 0)
  {
    assert (ts + [t])[..|ts|] == ts;
  }

  lemma {:induction false} OwnedAppend<T>(a: seq<Ticket<T>>, b: seq<Ticket<T>>, s: nat)
    ensures Owned(a + b, s) == Owned(a, s) + Owned(b, s)
    decreases |b|
  {
    if |b| == 0 {
      assert a + b == a;
    } else {
      var c, t := b[..|b| - 1], b[|b| - 1];
      assert a + b == (a + c) + [t] && b == c + [t];
      OneMoreOwned(a + c, t, s);
      OwnedAppend(a, c, s);
      OneMoreOwned(c, t, s);
    }
  }

  lemma {:induction false} OwnedIn<T>(ts: seq<Ticket<T>>, t: Ticket<T>)
    requires t in ts
    ensures Owned(ts, t.owner) >= 1
  {
    if t != ts[|ts| - 1] { OwnedIn(ts[..|ts| - 1], t); }
  }

  lemma {:induction false} OwnedByOne<T>(ws: seq<Worker<T>>, w: nat, s: nat)
    requires w < |ws|
    ensures Owned(ws[w].history, s) <= Claims(ws, s)
  {
    if w < |ws| - 1 { OwnedByOne(ws[..|ws| - 1], w, s); }
  }

  // ---------------------------------------------------------------------------------------
  // Frames
  // ---------------------------------------------------------------------------------------

  predicate LockMove(before: Owner, after: Owner, me: Owner)
  {
    after == before || (before.Free? && after == me) || (before == me && after.Free?)
  }

  predicate Sleepy(pc: WorkerPc) { pc.GoSleep? || pc.Asleep? }

  /** A worker's own step. */
  lemma WorkerMove<T>(p: Pool<T>, w: nat, x: Worker<T>)
    requires Inv(p) && w < |p.workers|
    requires WorkerOk(p.capacity, x) && p.workers[w].history == x.history
    requires LockMove(p.workers[w].lock, x.lock, ByWorker)
    requires WakeupOk(SetWorker(p, w, x), w) && StopOk(SetWorker(p, w, x), w)
    ensures Inv(SetWorker(p, w, x))
  {
    WorkerMoveSleepers(p, w, x);
    WorkerMoveCallers(p, w, x);
    WorkerMoveTickets(p, w, x);
  }

  lemma WorkerMoveSleepers<T>(p: Pool<T>, w: nat, x: Worker<T>)
    requires SleepersOk(p) && w < |p.workers| && WakeupOk(SetWorker(p, w, x), w) && StopOk(SetWorker(p, w, x), w)
    ensures SleepersOk(SetWorker(p, w, x))
  {
    var q := SetWorker(p, w, x);
    forall v: nat | v < |q.workers| ensures WakeupOk(q, v) && StopOk(q, v) {
      assert WakeupOk(p, v) && StopOk(p, v);
      SameSlow(p, q, v);
    }
  }

  lemma SameSlow<T>(p: Pool<T>, q: Pool<T>, v: nat)
    requires p.submitters == q.submitters
    ensures SlowAt(p, v) <==> SlowAt(q, v)
  {
    assert forall s: nat :: SubmitterOf(p, s) == SubmitterOf(q, s);
  }

  lemma WorkerMoveCallers<T>(p: Pool<T>, w: nat, x: Worker<T>)
    requires CallersOk(p) && w < |p.workers| && p.workers[w].history == x.history
    requires LockMove(p.workers[w].lock, x.lock, ByWorker)
    ensures CallersOk(SetWorker(p, w, x))
  {
    var q := SetWorker(p, w, x);
    forall s: nat ensures SubmitterOk(q, s) { assert SubmitterOk(p, s); }
    forall k: nat ensures StopperOk(q, k) { assert StopperOk(p, k); }
    assert forall k: nat :: StopperOf(q, k) == StopperOf(p, k);
  }

  lemma WorkerMoveTickets<T>(p: Pool<T>, w: nat, x: Worker<T>)
    requires TicketsOk(p) && w < |p.workers| && p.workers[w].history == x.history
    ensures TicketsOk(SetWorker(p, w, x))
  {
    ClaimsSame(p.workers, w, x);
    forall s: nat ensures Claims(p.workers[w := x], s) == if OwnsTicket(SubmitterOf(SetWorker(p, w, x), s)) then 1
        else 0 {
      assert SubmitterOf(SetWorker(p, w, x), s) == SubmitterOf(p, s);
    }
  }

  /** A call's step either leaves the tickets alone or claims its one ticket. */
  predicate TicketMove<T(==)>(before: seq<Ticket<T>>, after: seq<Ticket<T>>, s: nat, b: Submitter<T>, y: Submitter<T>)
  {
    || (after == before && OwnsTicket(b) == OwnsTicket(y))
    || (!OwnsTicket(b) && OwnsTicket(y) && after == before + [Ticket(y.task, s)])
  }

  /** What makes a submitter's step on its queue `w` a good one. */
  ghost predicate GoodMove<T>(p: Pool<T>, w: nat, x: Worker<T>, s: nat, y: Submitter<T>)
  {
    && w < |p.workers|
    && WorkerOk(p.capacity, x) && x.pc == p.workers[w].pc
    && TicketMove(p.workers[w].history, x.history, s, SubmitterOf(p, s), y)
    && LockMove(p.workers[w].lock, x.lock, BySubmitter(s))
    && (var b := SubmitterOf(p, s); b.Out? || b.idx == w)
    && SubmitterOk(SetSubmitter(SetWorker(p, w, x), s, y), s)
    && WakeupOk(SetSubmitter(SetWorker(p, w, x), s, y), w)
  }

  lemma SubmitterMove<T>(p: Pool<T>, w: nat, x: Worker<T>, s: nat, y: Submitter<T>)
    requires Inv(p) && GoodMove(p, w, x, s, y)
    ensures Inv(SetSubmitter(SetWorker(p, w, x), s, y))
  {
    assert WorkersOk(SetSubmitter(SetWorker(p, w, x), s, y));
    SubmitterMoveSleepers(p, w, x, s, y);
    SubmitterMoveCallers(p, w, x, s, y);
    SubmitterMoveTickets(p, w, x, s, y);
  }

  lemma SubmitterMoveSleepers<T>(p: Pool<T>, w: nat, x: Worker<T>, s: nat, y: Submitter<T>)
    requires SleepersOk(p) && GoodMove(p, w, x, s, y)
    ensures SleepersOk(SetSubmitter(SetWorker(p, w, x), s, y))
  {
    var q := SetSubmitter(SetWorker(p, w, x), s, y);
    forall v: nat | v < |q.workers| ensures WakeupOk(q, v) && StopOk(q, v) {
      assert WakeupOk(p, v) && StopOk(p, v);
      if v != w && SlowAt(p, v) { SlowElsewhere(p, w, x, s, y, v); }
    }
  }

  lemma SlowElsewhere<T>(p: Pool<T>, w: nat, x: Worker<T>, s: nat, y: Submitter<T>, v: nat)
    requires w < |p.workers| && v != w && SlowAt(p, v) && (var b := SubmitterOf(p, s); b.Out? || b.idx == w)
    ensures SlowAt(SetSubmitter(SetWorker(p, w, x), s, y), v)
  {
    var t: nat :| InSlow(SubmitterOf(p, t), v);
    assert SubmitterOf(SetSubmitter(SetWorker(p, w, x), s, y), t) == SubmitterOf(p, t);
  }

  lemma SubmitterMoveCallers<T>(p: Pool<T>, w: nat, x: Worker<T>, s: nat, y: Submitter<T>)
    requires CallersOk(p) && GoodMove(p, w, x, s, y)
    ensures CallersOk(SetSubmitter(SetWorker(p, w, x), s, y))
  {
    var q := SetSubmitter(SetWorker(p, w, x), s, y);
    forall t: nat ensures SubmitterOk(q, t) {
      assert SubmitterOk(p, t);
      if t != s { OtherSubmitter(p, w, x, s, y, t); }
    }
    forall k: nat ensures StopperOk(q, k) { assert StopperOk(p, k); }
    assert forall k: nat :: StopperOf(q, k) == StopperOf(p, k);
  }

  lemma OtherSubmitter<T>(p: Pool<T>, w: nat, x: Worker<T>, s: nat, y: Submitter<T>, t: nat)
    requires GoodMove(p, w, x, s, y) && t != s && SubmitterOk(p, t)
    ensures SubmitterOk(SetSubmitter(SetWorker(p, w, x), s, y), t)
  {
  }

  lemma SubmitterMoveTickets<T>(p: Pool<T>, w: nat, x: Worker<T>, s: nat, y: Submitter<T>)
    requires TicketsOk(p) && w < |p.workers|
    requires TicketMove(p.workers[w].history, x.history, s, SubmitterOf(p, s), y)
    ensures TicketsOk(SetSubmitter(SetWorker(p, w, x), s, y))
  {
    var q := SetSubmitter(SetWorker(p, w, x), s, y);
    var before := p.workers[w].history;
    forall t: nat ensures Claims(q.workers, t) == if OwnsTicket(SubmitterOf(q, t)) then 1 else 0 {
      ClaimsChange(p.workers, w, x, t);
      if x.history != before { OneMoreOwned(before, Ticket(y.task, s), t); }
      assert Claims(p.workers, t) == if OwnsTicket(SubmitterOf(p, t)) then 1 else 0;
    }
  }

  /** A step of call `s` at queue `w` under which a sleeping worker still has somebody to wake it. */
  lemma WakeupKept<T>(p: Pool<T>, w: nat, x: Worker<T>, s: nat, y: Submitter<T>)
    requires w < |p.workers| && WakeupOk(p, w) && x.pc == p.workers[w].pc
    requires HeadPublished(x.queue) ==>
               || (HeadPublished(p.workers[w].queue) && x.queue[0].owner == p.workers[w].queue[0].owner)
               || InSlow(y, w) || (x.queue[0].owner == s && Committed(y, w))
    requires Committed(SubmitterOf(p, s), w) ==> Committed(y, w) || InSlow(y, w) || !Sleepy(x.pc)
    requires InSlow(SubmitterOf(p, s), w) ==> InSlow(y, w) || !p.accepting
    ensures WakeupOk(SetSubmitter(SetWorker(p, w, x), s, y), w)
  {
    var q := SetSubmitter(SetWorker(p, w, x), s, y);
    if InSlow(y, w) {
      assert SubmitterOf(q, s) == y;
      assert SlowAt(q, w);
    } else if SlowAt(p, w) && p.accepting {
      var t: nat :| InSlow(SubmitterOf(p, t), w);
      assert SubmitterOf(q, t) == SubmitterOf(p, t);
      assert SlowAt(q, w);
    }
  }

  lemma AdvanceOk<T>(d: Worker<T>, stop: bool, batchSize: nat, capacity: nat)
    requires WorkerOk(capacity, d)
    ensures var x := Advance(d, stop, batchSize);
            && WorkerOk(capacity, x) && x.history == d.history && LockMove(d.lock, x.lock, ByWorker)
  {
    if d.pc.Popping? || d.pc.Running? {
      PopOk(d, stop, batchSize, capacity);
    } else {
      assert Tickets(Advance(d, stop, batchSize).queue) == Tickets(d.queue);
      if d.pc.Recheck? { NothingShown(d); }
    }
  }

  /** Over an invisible head and an empty batch, what is shown is what was executed. */
  lemma NothingShown<T>(d: Worker<T>)
    ensures !HeadPublished(d.queue) && d.batch == [] ==> Shown(d) == d.executed
  {
    if !HeadPublished(d.queue) && d.batch == [] { assert Tickets(Visible(d.queue)) == []; }
  }

  lemma PopOk<T>(d: Worker<T>, stop: bool, batchSize: nat, capacity: nat)
    requires WorkerOk(capacity, d) && (d.pc.Popping? || d.pc.Running?)
    ensures var x := Advance(d, stop, batchSize);
            && WorkerOk(capacity, x) && x.history == d.history && LockMove(d.lock, x.lock, ByWorker)
  {
    var x := Advance(d, stop, batchSize);
    if d.pc.Running? {
      assert d.batch != [] ==> d.executed + d.batch == (d.executed + [d.batch[0]]) + d.batch[1..];
    } else if |x.queue| < |d.queue| {
      MovedTicket(d.executed + d.batch, d.queue);
      assert x.executed + x.batch == d.executed + d.batch + [Ticket(d.queue[0].task, d.queue[0].owner)];
    } else {
      NothingShown(d);
    }
  }

  lemma MovedTicket<T>(front: seq<Ticket<T>>, q: seq<Entry<T>>)
    requires |q| > 0
    ensures front + Tickets(q) == front + [Ticket(q[0].task, q[0].owner)] + Tickets(q[1..])
  {
    assert Tickets(q) == [Ticket(q[0].task, q[0].owner)] + Tickets(q[1..]);
  }

  /** The only way to sleep: under the lock, past a stop flag that was down, with an invisible head. */
  lemma AdvanceToSleep<T>(d: Worker<T>, stop: bool, batchSize: nat)
    ensures var x := Advance(d, stop, batchSize);
            && (x.pc.Asleep? ==> (d.pc.GoSleep? || d.pc.Asleep?) && x.queue == d.queue)
            && (x.pc.GoSleep? ==> d.pc.PredEmpty? && !HeadPublished(x.queue))
            && (x.pc.PredEmpty? ==> !stop)
  {
  }

  lemma WorkKeeps<T>(p: Pool<T>, w: nat)
    requires Inv(p) && w < |p.workers|
    ensures Inv(WorkerNext(p, w))
  {
    var d := p.workers[w];
    assert WorkerOk(p.capacity, d);
    AdvanceOk(d, p.stop, p.batchSize, p.capacity);
    if d.pc.NotifyProducers? {
      NotifyAllKeeps(p, w);
      BatchLeft(p, w);
    } else {
      OwnStep(p, w);
    }
  }

  lemma OwnStep<T>(p: Pool<T>, w: nat)
    requires Inv(p) && w < |p.workers| && !p.workers[w].pc.NotifyProducers?
    ensures Inv(WorkerNext(p, w))
  {
    var d := p.workers[w];
    var x := Advance(d, p.stop, p.batchSize);
    assert WorkerOk(p.capacity, d) && WakeupOk(p, w) && StopOk(p, w);
    AdvanceOk(d, p.stop, p.batchSize, p.capacity);
    AdvanceToSleep(d, p.stop, p.batchSize);
    SameSlow(p, SetWorker(p, w, x), w);
    WorkerMove(p, w, x);
  }

  /** The worker that has notified the producers goes on to run its batch. */
  lemma BatchLeft<T>(p: Pool<T>, w: nat)
    requires Inv(p) && w < |p.workers| && p.workers[w].pc.NotifyProducers? && Inv(NotifyAll(p, w))
    ensures Inv(WorkerNext(p, w))
  {
    var q := NotifyAll(p, w);
    assert q.workers == p.workers && WorkerOk(p.capacity, p.workers[w]);
    AdvanceOk(p.workers[w], p.stop, p.batchSize, p.capacity);
    WorkerMove(q, w, Advance(p.workers[w], p.stop, p.batchSize));
  }

  // ---------------------------------------------------------------------------------------
  // notify_all
  // ---------------------------------------------------------------------------------------

  lemma Awoken<T>(p: Pool<T>, w: nat, s: nat)
    requires w < |p.workers|
    ensures SubmitterOf(NotifyAll(p, w), s) == WakeSubmitter(SubmitterOf(p, s), w)
  {
  }

  lemma NotifyAllKeeps<T>(p: Pool<T>, w: nat)
    requires Inv(p) && w < |p.workers|
    ensures Inv(NotifyAll(p, w))
  {
    var q := NotifyAll(p, w);
    forall v | 0 <= v < |q.workers|
      ensures WorkerOk(q.capacity, q.workers[v]) { assert WorkerOk(p.capacity, p.workers[v]); }
    NotifyAllSleepers(p, w);
    NotifyAllCallers(p, w);
    NotifyAllTickets(p, w);
  }

  lemma NotifyAllSleepers<T>(p: Pool<T>, w: nat)
    requires SleepersOk(p) && w < |p.workers|
    ensures SleepersOk(NotifyAll(p, w))
  {
    forall v: nat | v < |p.workers| ensures WakeupOk(NotifyAll(p, w), v) && StopOk(NotifyAll(p, w), v) {
      assert WakeupOk(p, v) && StopOk(p, v);
      NotifyAllWakeup(p, w, v);
    }
  }

  lemma NotifyAllWakeup<T>(p: Pool<T>, w: nat, v: nat)
    requires w < |p.workers| && v < |p.workers| && WakeupOk(p, v)
    ensures WakeupOk(NotifyAll(p, w), v)
  {
    var q := NotifyAll(p, w);
    if HeadPublished(p.workers[v].queue) { Awoken(p, w, p.workers[v].queue[0].owner); }
    if SlowAt(p, v) {
      var t: nat :| InSlow(SubmitterOf(p, t), v);
      Awoken(p, w, t);
      assert InSlow(SubmitterOf(q, t), v);
    }
  }

  lemma NotifyAllCallers<T>(p: Pool<T>, w: nat)
    requires CallersOk(p) && w < |p.workers|
    ensures CallersOk(NotifyAll(p, w))
  {
    var q := NotifyAll(p, w);
    forall s: nat ensures SubmitterOk(q, s) {
      Awoken(p, w, s);
      assert SubmitterOk(p, s);
    }
    forall k: nat ensures StopperOk(q, k) { assert StopperOk(p, k); }
    assert forall k: nat :: StopperOf(q, k) == StopperOf(p, k);
  }

  lemma NotifyAllTickets<T>(p: Pool<T>, w: nat)
    requires TicketsOk(p) && w < |p.workers|
    ensures TicketsOk(NotifyAll(p, w))
  {
    var q := NotifyAll(p, w);
    if p.workers[w].pc.Asleep? { ClaimsSame(p.workers, w, p.workers[w].(pc := Woken)); }
    forall s: nat ensures Claims(q.workers, s) == if OwnsTicket(SubmitterOf(q, s)) then 1 else 0 {
      Awoken(p, w, s);
      assert Claims(p.workers, s) == if OwnsTicket(SubmitterOf(p, s)) then 1 else 0;
    }
  }

  // ---------------------------------------------------------------------------------------
  // Submit
  // ---------------------------------------------------------------------------------------

  /** A step that changes only where the call stands. */
  lemma SubmitterOnly<T>(p: Pool<T>, s: nat, y: Submitter<T>, w: nat)
    requires Inv(p) && w < |p.workers|
    requires var b := SubmitterOf(p, s);
             && (b.Out? || b.idx == w) && OwnsTicket(b) == OwnsTicket(y)
             && (Committed(b, w) ==> Committed(y, w) || !Sleepy(p.workers[w].pc)) && (InSlow(b, w) ==> InSlow(y, w))
    requires SubmitterOk(SetSubmitter(p, s, y), s)
    ensures Inv(SetSubmitter(p, s, y))
  {
    var d := p.workers[w];
    assert WorkerOk(p.capacity, d) && WakeupOk(p, w);
    assert SetWorker(p, w, d) == p;
    WakeupKept(p, w, d, s, y);
    SubmitterMove(p, w, d, s, y);
  }

  lemma TryKeeps<T>(p: Pool<T>, s: nat, wake: Option<nat>)
    requires Inv(p) && SubmitterOf(p, s).Trying?
    ensures Inv(SubmitterNext(p, s, wake))
  {
    assert SubmitterOk(p, s);
    var x := SubmitterOf(p, s);
    var w := x.idx;
    if |p.workers[w].queue| < p.capacity {
      ClaimKeeps(p, s, Claimed(x.task, w));
    } else {
      TryNext(p, s);
    }
  }

  /** A full queue sends the call to the next one, or into the blocking path. */
  lemma TryNext<T>(p: Pool<T>, s: nat)
    requires Inv(p) && SubmitterOf(p, s).Trying? && SubmitterOk(p, s)
    ensures var x, n := SubmitterOf(p, s), |p.workers|;
            var y := if |x.tried| + 1 < n then Trying(x.task, Following(x.idx, n), x.tried + [x.idx], x.start)
                     else SlowLock(x.task, Following(x.idx, n), x.tried + [x.idx]);
            Inv(SetSubmitter(p, s, y))
  {
    var x, n := SubmitterOf(p, s), |p.workers|;
    if |x.tried| + 1 < n {
      SubmitterOnly(p, s, Trying(x.task, Following(x.idx, n), x.tried + [x.idx], x.start), x.idx);
    } else {
      AllTried(p, x);
      SubmitterOnly(p, s, SlowLock(x.task, Following(x.idx, n), x.tried + [x.idx]), x.idx);
    }
  }

  /** Walking n queues from any start visits every queue. */
  lemma AllTried<T>(p: Pool<T>, x: Submitter<T>)
    requires x.Trying? && TriesInOrder(p, x) && |x.tried| + 1 == |p.workers|
    ensures forall w: nat :: w < |p.workers| ==> w in x.tried + [x.idx]
  {
    var n := |p.workers|;
    forall w: nat | w < n ensures w in x.tried + [x.idx] {
      var j := if w >= x.start then w - x.start else w + n - x.start;
      assert (x.tried + [x.idx])[j] == Around(x.start, j, n) == w;
    }
  }

  lemma ClaimKeeps<T>(p: Pool<T>, s: nat, y: Submitter<T>)
    requires Inv(p)
    requires var x := SubmitterOf(p, s);
             && (x.Trying? || x.SlowTry?) && x.idx < |p.workers| && |p.workers[x.idx].queue| < p.capacity
             && y == if x.Trying? then Claimed(x.task, x.idx) else SlowClaimed(x.task, x.idx)
    ensures var x := SubmitterOf(p, s);
            Inv(SetSubmitter(SetWorker(p, x.idx, Claim(p.workers[x.idx], x.task, s)), s, y))
  {
    var x := SubmitterOf(p, s);
    var w := x.idx;
    var d := p.workers[w];
    assert WorkerOk(p.capacity, d) && WakeupOk(p, w) && SubmitterOk(p, s);
    ClaimedWorker(p.capacity, d, x.task, s);
    WakeupKept(p, w, Claim(d, x.task, s), s, y);
    SubmitterMove(p, w, Claim(d, x.task, s), s, y);
  }

  lemma ClaimedWorker<T>(capacity: nat, d: Worker<T>, task: T, s: nat)
    requires WorkerOk(capacity, d) && |d.queue| < capacity
    ensures var c := Claim(d, task, s); WorkerOk(capacity, c) && Ticket(task, s) in c.history
  {
    var c := Claim(d, task, s);
    assert Tickets(c.queue) == Tickets(d.queue) + [Ticket(task, s)];
    assert c.history[|d.history|] == Ticket(task, s);
  }

  lemma PublishKeeps<T>(p: Pool<T>, s: nat, wake: Option<nat>)
    requires Inv(p) && (SubmitterOf(p, s).Claimed? || SubmitterOf(p, s).SlowClaimed?)
    ensures Inv(SubmitterNext(p, s, wake))
  {
    var x := SubmitterOf(p, s);
    assert SubmitterOk(p, s);
    var w := x.idx;
    var d := p.workers[w];
    assert WorkerOk(p.capacity, d) && WakeupOk(p, w);
    var y := if x.Claimed? then Counting(x.task, w) else SlowNotify(x.task, w);
    PublishedWorker(p.capacity, d, s);
    WakeupKept(p, w, Publish(d, s), s, y);
    PublishIs(p, s, wake);
    SubmitterMove(p, w, Publish(d, s), s, y);
  }

  lemma PublishIs<T>(p: Pool<T>, s: nat, wake: Option<nat>)
    requires var x := SubmitterOf(p, s); (x.Claimed? || x.SlowClaimed?) && x.idx < |p.workers|
    ensures var x := SubmitterOf(p, s);
            SubmitterNext(p, s, wake)
            == SetSubmitter(SetWorker(p, x.idx, Publish(p.workers[x.idx], s)), s,
                            if x.Claimed? then Counting(x.task, x.idx) else SlowNotify(x.task, x.idx))
  {
  }

  lemma PublishedWorker<T>(capacity: nat, d: Worker<T>, s: nat)
    requires WorkerOk(capacity, d)
    ensures var c := Publish(d, s);
            && WorkerOk(capacity, c) && c.history == d.history
            && (HeadPublished(c.queue) ==> c.queue[0].owner == d.queue[0].owner)
            && (HeadPublished(c.queue) && !HeadPublished(d.queue) ==> c.queue[0].owner == s)
  {
    assert Tickets(Publish(d, s).queue) == Tickets(d.queue);
  }

  lemma WakeWorkerKeeps<T>(p: Pool<T>, w: nat)
    requires Inv(p) && w < |p.workers|
    ensures Inv(WakeWorker(p, w))
  {
    if p.workers[w].pc.Asleep? {
      assert WorkerOk(p.capacity, p.workers[w]);
      WorkerMove(p, w, p.workers[w].(pc := Woken));
    }
  }

  /** What notify_one leaves: the worker awake, or the blocked producer that got the notification. */
  lemma NotifyOneKeeps<T>(p: Pool<T>, w: nat, wake: Option<nat>, s: nat)
    requires Inv(p) && w < |p.workers| && !SubmitterOf(p, s).SlowAsleep?
    ensures var q := NotifyOne(p, w, wake);
            && Inv(q) && |q.workers| == |p.workers| && SubmitterOf(q, s) == SubmitterOf(p, s)
            && q.workers[w].lock == p.workers[w].lock && q.workers[w].history == p.workers[w].history
            && (q.workers[w].pc.GoSleep? ==> p.workers[w].pc.GoSleep?)
            && (q.workers[w].pc.Asleep? ==> exists t: nat :: t != s && InSlow(SubmitterOf(q, t), w))
  {
    if wake.Some? && SubmitterOf(p, wake.value).SlowAsleep? && SubmitterOf(p, wake.value).idx == w {
      var t, y := wake.value, SlowWoken(SubmitterOf(p, wake.value).task, w);
      assert SubmitterOk(p, t);
      SubmitterOnly(p, t, y, w);
      assert InSlow(SubmitterOf(NotifyOne(p, w, wake), t), w);
    } else {
      WakeWorkerKeeps(p, w);
    }
  }

  lemma NotifyKeeps<T>(p: Pool<T>, s: nat, wake: Option<nat>)
    requires Inv(p) && (SubmitterOf(p, s).NotifyHold? || SubmitterOf(p, s).SlowNotify?)
    ensures Inv(SubmitterNext(p, s, wake))
  {
    var x := SubmitterOf(p, s);
    assert SubmitterOk(p, s) && WorkerOk(p.capacity, p.workers[x.idx]);
    NotifyOneKeeps(p, x.idx, wake, s);
    Notifies(NotifyOne(p, x.idx, wake), s);
  }

  /** The call that has notified returns. */
  lemma Notifies<T>(q: Pool<T>, s: nat)
    requires Inv(q) && (SubmitterOf(q, s).NotifyHold? || SubmitterOf(q, s).SlowNotify?)
    requires var w := SubmitterOf(q, s).idx;
             && w < |q.workers| && !q.workers[w].pc.GoSleep?
             && (q.workers[w].pc.Asleep? ==> exists t: nat :: t != s && InSlow(SubmitterOf(q, t), w))
    ensures var x := SubmitterOf(q, s); Inv(SetSubmitter(Unlock(q, x.idx), s, Returned(x.task, true, x.idx)))
  {
    var x := SubmitterOf(q, s);
    var w, y := x.idx, Returned(x.task, true, x.idx);
    var r := SetSubmitter(Unlock(q, w), s, y);
    assert SubmitterOk(q, s) && WorkerOk(q.capacity, q.workers[w]);
    if q.workers[w].pc.Asleep? {
      var t: nat :| t != s && InSlow(SubmitterOf(q, t), w);
      assert SubmitterOf(r, t) == SubmitterOf(q, t);
      assert SlowAt(r, w);
    }
    SubmitterMove(q, w, q.workers[w].(lock := Free), s, y);
  }

  /** Taking the lock, when it is free. */
  lemma LockKeeps<T>(p: Pool<T>, s: nat, wake: Option<nat>)
    requires Inv(p)
    requires var x := SubmitterOf(p, s); x.NotifyLock? || x.SlowLock? || x.SlowWoken?
    ensures Inv(SubmitterNext(p, s, wake))
  {
    var x := SubmitterOf(p, s);
    assert SubmitterOk(p, s);
    if p.workers[x.idx].lock.Free? {
      TakeLock(p, s, if x.NotifyLock? then NotifyHold(x.task, x.idx) else SlowTry(x.task, x.idx));
    }
  }

  lemma TakeLock<T>(p: Pool<T>, s: nat, y: Submitter<T>)
    requires Inv(p)
    requires var x := SubmitterOf(p, s);
             && (x.NotifyLock? || x.SlowLock? || x.SlowWoken?) && x.idx < |p.workers| && p.workers[x.idx].lock.Free?
             && y == if x.NotifyLock? then NotifyHold(x.task, x.idx) else SlowTry(x.task, x.idx)
    ensures var w := SubmitterOf(p, s).idx;
            Inv(SetSubmitter(SetWorker(p, w, p.workers[w].(lock := BySubmitter(s))), s, y))
  {
    var w := SubmitterOf(p, s).idx;
    var x := p.workers[w].(lock := BySubmitter(s));
    assert SubmitterOk(p, s) && WorkerOk(p.capacity, p.workers[w]) && WakeupOk(p, w);
    WakeupKept(p, w, x, s, y);
    SubmitterMove(p, w, x, s, y);
  }

  /** Leaving the lock: to sleep, or because the pool no longer accepts. */
  lemma UnlockKeeps<T>(p: Pool<T>, s: nat, y: Submitter<T>)
    requires Inv(p)
    requires var x := SubmitterOf(p, s);
             || (x.SlowGoSleep? && y == SlowAsleep(x.task, x.idx))
             || (x.SlowCheck? && !p.accepting && y == Returned(x.task, false, x.idx))
    ensures var w := SubmitterOf(p, s).idx; w < |p.workers| && Inv(SetSubmitter(Unlock(p, w), s, y))
  {
    assert SubmitterOk(p, s);
    var w := SubmitterOf(p, s).idx;
    var x := p.workers[w].(lock := Free);
    assert WorkerOk(p.capacity, p.workers[w]) && WakeupOk(p, w);
    WakeupKept(p, w, x, s, y);
    SubmitterMove(p, w, x, s, y);
  }

  lemma SlowCheckKeeps<T>(p: Pool<T>, s: nat, wake: Option<nat>)
    requires Inv(p) && (SubmitterOf(p, s).SlowCheck? || SubmitterOf(p, s).SlowGoSleep?)
    ensures Inv(SubmitterNext(p, s, wake))
  {
    var x := SubmitterOf(p, s);
    assert SubmitterOk(p, s);
    if x.SlowGoSleep? {
      UnlockKeeps(p, s, SlowAsleep(x.task, x.idx));
    } else if !p.accepting {
      UnlockKeeps(p, s, Returned(x.task, false, x.idx));
    } else {
      SubmitterOnly(p, s, SlowGoSleep(x.task, x.idx), x.idx);
    }
  }

  lemma CountKeeps<T>(p: Pool<T>, s: nat, wake: Option<nat>)
    requires Inv(p) && (SubmitterOf(p, s).Counting? || SubmitterOf(p, s).CheckWaiting?)
    ensures Inv(SubmitterNext(p, s, wake))
  {
    var x := SubmitterOf(p, s);
    assert SubmitterOk(p, s);
    var w := x.idx;
    assert WorkerOk(p.capacity, p.workers[w]);
    if x.Counting? {
      SubmitterOnly(p, s, CheckWaiting(x.task, w), w);
    } else if p.workers[w].waiting {
      SubmitterOnly(p, s, NotifyLock(x.task, w), w);
    } else {
      SubmitterOnly(p, s, Returned(x.task, true, w), w);
    }
  }

  lemma SlowTryKeeps<T>(p: Pool<T>, s: nat, wake: Option<nat>)
    requires Inv(p) && SubmitterOf(p, s).SlowTry?
    ensures Inv(SubmitterNext(p, s, wake))
  {
    var x := SubmitterOf(p, s);
    assert SubmitterOk(p, s);
    if |p.workers[x.idx].queue| < p.capacity {
      ClaimKeeps(p, s, SlowClaimed(x.task, x.idx));
    } else {
      SubmitterOnly(p, s, SlowCheck(x.task, x.idx), x.idx);
    }
  }

  lemma SubmitStepKeeps<T>(p: Pool<T>, s: nat, wake: Option<nat>)
    requires Inv(p)
    ensures Inv(SubmitterNext(p, s, wake))
  {
    match SubmitterOf(p, s)
    case Trying(_, _, _, _) => TryKeeps(p, s, wake);
    case Claimed(_, _) => PublishKeeps(p, s, wake);
    case Counting(_, _) => CountKeeps(p, s, wake);
    case CheckWaiting(_, _) => CountKeeps(p, s, wake);
    case NotifyLock(_, _) => LockKeeps(p, s, wake);
    case NotifyHold(_, _) => NotifyKeeps(p, s, wake);
    case SlowLock(_, _, _) => LockKeeps(p, s, wake);
    case SlowTry(_, _) => SlowTryKeeps(p, s, wake);
    case SlowCheck(_, _) => SlowCheckKeeps(p, s, wake);
    case SlowGoSleep(_, _) => SlowCheckKeeps(p, s, wake);
    case SlowWoken(_, _) => LockKeeps(p, s, wake);
    case SlowClaimed(_, _) => PublishKeeps(p, s, wake);
    case SlowNotify(_, _) => NotifyKeeps(p, s, wake);
    case _ =>
  }

  lemma BeginKeeps<T>(p: Pool<T>, s: nat, task: T, hint: nat)
    requires Inv(p)
    ensures Inv(Next(p, Submit(s, task, hint)))
  {
    assert SubmitterOk(p, s);
    if hint < |p.workers| && SubmitterOf(p, s).Out? {
      SubmitterOnly(p, s, if p.accepting then Trying(task, hint, [], hint) else Returned(task, false, 0), 0);
    }
  }

  lemma SpuriousKeeps<T>(p: Pool<T>, s: nat)
    requires Inv(p)
    ensures Inv(Next(p, SpuriousSubmitterWake(s)))
  {
    var x := SubmitterOf(p, s);
    assert SubmitterOk(p, s);
    if x.SlowAsleep? { SubmitterOnly(p, s, SlowWoken(x.task, x.idx), x.idx); }
  }

  // ---------------------------------------------------------------------------------------
  // Stop
  // ---------------------------------------------------------------------------------------

  /** A stopper's step that leaves workers and calls alone and reaches no farther back. */
  ghost predicate StopperStep<T>(p: Pool<T>, q: Pool<T>, k: nat)
  {
    && q == p.(accepting := q.accepting, stop := q.stop, first := q.first, stoppers := p.stoppers[k := StopperOf(q, k)])
    && (p.stop ==> q.stop && q.first == p.first) && (q.accepting ==> p.accepting)
    && (q.stop && !p.stop ==> q.first == Some(k) && StopperOf(q, k) == StopLoop(0))
    && (q.stop ==> q.first.Some? && !q.accepting)
    && (!q.accepting && !q.stop ==> StopperOf(q, k).StopFlag?)
    && StopperOk(q, k) && !StopperOf(q, k).StopNotify?
    && (HasStopped(StopperOf(p, k)) ==> HasStopped(StopperOf(q, k)))
    && (forall w: nat :: w < |p.workers| && Covers(StopperOf(p, k), w) ==> Covers(StopperOf(q, k), w))
  }

  lemma StopperOnly<T>(p: Pool<T>, q: Pool<T>, k: nat)
    requires Inv(p) && StopperStep(p, q, k)
    ensures Inv(q)
  {
    forall v: nat | v < |q.workers| ensures WakeupOk(q, v) && StopOk(q, v) {
      assert WakeupOk(p, v) && StopOk(p, v);
      SameSlow(p, q, v);
    }
    forall t: nat ensures SubmitterOk(q, t) {
      assert SubmitterOk(p, t);
      assert SubmitterOf(q, t) == SubmitterOf(p, t);
    }
    forall j: nat ensures StopperOk(q, j) { assert StopperOk(p, j); }
    SameTickets(p, q);
  }

  lemma SameTickets<T>(p: Pool<T>, q: Pool<T>)
    requires TicketsOk(p) && q.workers == p.workers && q.submitters == p.submitters
    ensures TicketsOk(q)
  {
    forall s: nat ensures Claims(q.workers, s) == if OwnsTicket(SubmitterOf(q, s)) then 1 else 0 {
      assert SubmitterOf(q, s) == SubmitterOf(p, s);
    }
  }

  /** A stopper takes or gives back the lock of worker `i`. */
  predicate StopLocks<T>(p: Pool<T>, k: nat, i: nat, lock: Owner, y: Stopper)
  {
    && i < |p.workers|
    && (|| (p.workers[i].lock.Free? && lock == ByStopper(k) && y == StopHeld(i) && StopperOf(p, k) == StopLoop(i))
        || (p.workers[i].lock == ByStopper(k) && lock.Free? && y == StopNotify(i) && StopperOf(p, k) == StopHeld(i)))
  }

  function StopLocked<T>(p: Pool<T>, k: nat, i: nat, lock: Owner, y: Stopper): Pool<T>
    requires i < |p.workers|
  {
    SetWorker(p, i, p.workers[i].(lock := lock)).(stoppers := p.stoppers[k := y])
  }

  lemma StopLockMove<T>(p: Pool<T>, k: nat, i: nat, lock: Owner, y: Stopper)
    requires Inv(p) && StopLocks(p, k, i, lock, y)
    ensures Inv(StopLocked(p, k, i, lock, y))
  {
    var q := StopLocked(p, k, i, lock, y);
    forall v | 0 <= v < |q.workers|
      ensures WorkerOk(q.capacity, q.workers[v]) { assert WorkerOk(p.capacity, p.workers[v]); }
    StopLockSleepers(p, k, i, lock, y);
    StopLockCallers(p, k, i, lock, y);
    WorkerMoveTickets(p, i, p.workers[i].(lock := lock));
    SameTickets(SetWorker(p, i, p.workers[i].(lock := lock)), q);
  }

  lemma StopLockSleepers<T>(p: Pool<T>, k: nat, i: nat, lock: Owner, y: Stopper)
    requires Inv(p) && StopLocks(p, k, i, lock, y)
    ensures SleepersOk(StopLocked(p, k, i, lock, y))
  {
    var q := StopLocked(p, k, i, lock, y);
    forall v: nat | v < |q.workers| ensures WakeupOk(q, v) && StopOk(q, v) {
      assert WakeupOk(p, v) && StopOk(p, v) && WorkerOk(p.capacity, p.workers[v]);
      SameSlow(p, q, v);
    }
  }

  lemma StopLockCallers<T>(p: Pool<T>, k: nat, i: nat, lock: Owner, y: Stopper)
    requires CallersOk(p) && StopLocks(p, k, i, lock, y)
    ensures CallersOk(StopLocked(p, k, i, lock, y))
  {
    var q := StopLocked(p, k, i, lock, y);
    forall t: nat ensures SubmitterOk(q, t) {
      assert SubmitterOk(p, t);
      StopLockCaller(p, k, i, lock, y, t);
    }
    forall j: nat ensures StopperOk(q, j) { assert StopperOk(p, j); }
    if !p.accepting && !p.stop {
      var j: nat :| StopperOf(p, j).StopFlag?;
      assert StopperOf(q, j).StopFlag?;
    }
  }

  lemma StopLockCaller<T>(p: Pool<T>, k: nat, i: nat, lock: Owner, y: Stopper, t: nat)
    requires StopLocks(p, k, i, lock, y) && SubmitterOk(p, t)
    ensures SubmitterOk(StopLocked(p, k, i, lock, y), t)
  {
    assert SubmitterOf(StopLocked(p, k, i, lock, y), t) == SubmitterOf(p, t);
  }

  /** The stopper has notified worker `i` and everybody blocked there, and goes on to the next. */
  lemma StopNotifyKeeps<T>(p: Pool<T>, k: nat)
    requires Inv(p) && StopperOf(p, k).StopNotify?
    ensures Inv(StopperNext(p, k))
  {
    var i := StopperOf(p, k).i;
    assert StopperOk(p, k);
    NotifyAllKeeps(p, i);
    GoOn(p, k, i);
  }

  lemma GoOn<T>(p: Pool<T>, k: nat, i: nat)
    requires Inv(p) && StopperOf(p, k) == StopNotify(i) && i < |p.workers| && Inv(NotifyAll(p, i))
    ensures Inv(NotifyAll(p, i).(stoppers := p.stoppers[k := StopLoop(i + 1)]))
  {
    var m := NotifyAll(p, i);
    var q := m.(stoppers := p.stoppers[k := StopLoop(i + 1)]);
    forall v: nat | v < |q.workers| ensures WakeupOk(q, v) && StopOk(q, v) {
      assert WakeupOk(m, v) && StopOk(m, v);
      SameSlow(m, q, v);
    }
    GoOnCallers(p, k, i);
    SameTickets(m, q);
  }

  lemma GoOnCallers<T>(p: Pool<T>, k: nat, i: nat)
    requires Inv(p) && StopperOf(p, k) == StopNotify(i) && i < |p.workers| && Inv(NotifyAll(p, i))
    ensures CallersOk(NotifyAll(p, i).(stoppers := p.stoppers[k := StopLoop(i + 1)]))
  {
    var m := NotifyAll(p, i);
    var q := m.(stoppers := p.stoppers[k := StopLoop(i + 1)]);
    forall t: nat ensures SubmitterOk(q, t) {
      assert SubmitterOk(m, t) && SubmitterOk(p, t);
      Awoken(p, i, t);
      assert SubmitterOf(q, t) == SubmitterOf(m, t);
    }
    forall j: nat ensures StopperOk(q, j) { assert StopperOk(m, j); }
    if !p.accepting && !p.stop {
      var j: nat :| StopperOf(p, j).StopFlag?;
      assert StopperOf(q, j).StopFlag?;
    }
  }

  lemma StopStepKeeps<T>(p: Pool<T>, k: nat)
    requires Inv(p)
    ensures Inv(StopperNext(p, k))
  {
    assert StopperOk(p, k);
    match StopperOf(p, k)
    case NotStopping => StopBegins(p, k);
    case StopFlag(_) => StopperOnly(p, StopperNext(p, k), k);
    case StopLoop(i) =>
      if i >= |p.workers| { StopEnds(p, k); }
      else if p.workers[i].lock.Free? { StopLockMove(p, k, i, ByStopper(k), StopHeld(i)); }
    case StopHeld(i) => StopLockMove(p, k, i, Free, StopNotify(i));
    case StopNotify(_) => StopNotifyKeeps(p, k);
    case StopDone =>
  }

  lemma StopBegins<T>(p: Pool<T>, k: nat)
    requires Inv(p) && StopperOf(p, k).NotStopping?
    ensures Inv(StopperNext(p, k))
  {
    StopperOnly(p, StopperNext(p, k), k);
  }

  /** The last worker has been notified. */
  lemma StopEnds<T>(p: Pool<T>, k: nat)
    requires Inv(p) && StopperOf(p, k).StopLoop? && StopperOf(p, k).i >= |p.workers|
    ensures Inv(p.(stoppers := p.stoppers[k := StopDone]))
  {
    var q := p.(stoppers := p.stoppers[k := StopDone]);
    forall v: nat | v < |q.workers| ensures WakeupOk(q, v) && StopOk(q, v) {
      assert WakeupOk(p, v) && StopOk(p, v);
      SameSlow(p, q, v);
    }
    forall t: nat ensures SubmitterOk(q, t) {
      assert SubmitterOk(p, t) && SubmitterOf(q, t) == SubmitterOf(p, t);
    }
    forall j: nat ensures StopperOk(q, j) { assert StopperOk(p, j); }
    if !p.accepting && !p.stop {
      var j: nat :| StopperOf(p, j).StopFlag?;
      assert StopperOf(q, j).StopFlag?;
    }
    SameTickets(p, q);
  }

  lemma StepKeeps<T>(p: Pool<T>, a: Action<T>)
    requires Inv(p)
    ensures Inv(Next(p, a))
  {
    match a
    case Submit(s, task, hint) => BeginKeeps(p, s, task, hint);
    case SubmitStep(s, wake) => SubmitStepKeeps(p, s, wake);
    case Work(w) => if w < |p.workers| { WorkKeeps(p, w); }
    case SpuriousWake(w) => if w < |p.workers| { WakeWorkerKeeps(p, w); }
    case SpuriousSubmitterWake(s) => SpuriousKeeps(p, s);
    case StopStep(k) => StopStepKeeps(p, k);
  }

  lemma {:induction false} RunKeeps<T>(p: Pool<T>, run: seq<Action<T>>)
    requires Inv(p)
    ensures Inv(Exec(p, run))
    decreases |run|
  {
    if |run| > 0 {
      StepKeeps(p, run[0]);
      RunKeeps(Next(p, run[0]), run[1..]);
    }
  }

  lemma EveryRun<T>(threads: nat, capacity: nat, batchSize: nat, run: seq<Action<T>>)
    ensures Inv(Exec(Init<T>(threads, capacity, batchSize), run))
  {
    InitInv<T>(threads, capacity, batchSize);
    RunKeeps(Init<T>(threads, capacity, batchSize), run);
  }

  lemma {:induction false} ExecAppend<T>(p: Pool<T>, a: seq<Action<T>>, b: seq<Action<T>>)
    ensures Exec(p, a + b) == Exec(Exec(p, a), b)
    decreases |a|
  {
    if |a| == 0 {
      assert a + b == b;
    } else {
      assert (a + b)[1..] == a[1..] + b;
      ExecAppend(Next(p, a[0]), a[1..], b);
    }
  }

  lemma Exec1<T>(p: Pool<T>, a: Action<T>)
    ensures Exec(p, [a]) == Next(p, a)
  {
    assert Exec(p, [a]) == Exec(Next(p, a), [a][1..]);
  }

  lemma ExecSnoc<T>(p: Pool<T>, run: seq<Action<T>>, a: Action<T>)
    ensures Exec(p, run + [a]) == Next(Exec(p, run), a)
  {
    ExecAppend(p, run, [a]);
    Exec1(Exec(p, run), a);
  }

  // ---------------------------------------------------------------------------------------
  // What every run guarantees
  // ---------------------------------------------------------------------------------------

  /** Some caller of `Stop` is going to raise the flag, or has raised it and still has worker `w` to notify. */
  ghost predicate StopComing<T>(p: Pool<T>, w: nat)
  {
    || (exists k: nat :: StopperOf(p, k).StopFlag?)
    || (p.stop && p.first.Some? && Covers(StopperOf(p, p.first.value), w))
  }

  /** No lost wakeup: with nobody in the blocking path of worker `w`, a worker asleep over a visible head has that
      head's own producer still on its way to notify it; or, once the pool no longer accepts, a caller of `Stop`. */
  lemma NoLostWakeup<T>(threads: nat, capacity: nat, batchSize: nat, run: seq<Action<T>>, w: nat)
    requires var p := Exec(Init<T>(threads, capacity, batchSize), run);
             && w < |p.workers| && p.workers[w].pc.Asleep? && HeadPublished(p.workers[w].queue)
             && (forall s: nat :: !InSlow(SubmitterOf(p, s), w))
    ensures var p := Exec(Init<T>(threads, capacity, batchSize), run);
            if p.accepting then Committed(SubmitterOf(p, p.workers[w].queue[0].owner), w)
            else Committed(SubmitterOf(p, p.workers[w].queue[0].owner), w) || StopComing(p, w)
  {
    EveryRun(threads, capacity, batchSize, run);
    var p := Exec(Init<T>(threads, capacity, batchSize), run);
    assert WakeupOk(p, w) && StopOk(p, w);
  }

  /** Shutdown misses nobody: with the stop flag up, a sleeping worker, and a producer asleep in the blocking path, is
      still ahead of the caller of `Stop` that raised the flag. */
  lemma StopReachesSleepers<T>(threads: nat, capacity: nat, batchSize: nat, run: seq<Action<T>>, w: nat, s: nat)
    ensures var p := Exec(Init<T>(threads, capacity, batchSize), run);
            && (w < |p.workers| && p.stop && p.workers[w].pc.Asleep?
                ==> p.first.Some? && Covers(StopperOf(p, p.first.value), w))
            && (p.stop && SubmitterOf(p, s).SlowAsleep?
                ==> p.first.Some? && Covers(StopperOf(p, p.first.value), SubmitterOf(p, s).idx))
  {
    EveryRun(threads, capacity, batchSize, run);
    var p := Exec(Init<T>(threads, capacity, batchSize), run);
    if w < |p.workers| { assert StopOk(p, w); }
    assert SubmitterOk(p, s);
  }

  /** All tickets a worker has had, wherever they are now. */
  function Everywhere<T>(d: Worker<T>): seq<Ticket<T>> { d.executed + d.batch + Tickets(d.queue) }

  /** How often call `s` occurs among the executed, batched and queued tickets of all workers. */
  function Occurrences<T>(ws: seq<Worker<T>>, s: nat): nat
  {
    if |ws| == 0 then 0 else Occurrences(ws[..|ws| - 1], s) + Owned(Everywhere(ws[|ws| - 1]), s)
  }

  lemma {:induction false} OccurrencesAreClaims<T>(ws: seq<Worker<T>>, s: nat)
    requires forall w :: 0 <= w < |ws| ==> ws[w].history == Everywhere(ws[w])
    ensures Occurrences(ws, s) == Claims(ws, s)
  {
    if |ws| > 0 { OccurrencesAreClaims(ws[..|ws| - 1], s); }
  }

  /** Conservation: a call whose place in `Submit` says that it has a ticket, and so every call that returned true,
      occurs exactly once among all that is executed, batched or queued, with its own task in the queue it chose; every
      other call, and so one that returned false, occurs nowhere.  Tickets are kept in order, and a call enters the
      blocking path only after it has tried every queue. */
  lemma TasksConserved<T>(threads: nat, capacity: nat, batchSize: nat, run: seq<Action<T>>, w: nat, s: nat)
    ensures var p := Exec(Init<T>(threads, capacity, batchSize), run);
            var x := SubmitterOf(p, s);
            && Occurrences(p.workers, s) == (if OwnsTicket(x) then 1 else 0)
            && (OwnsTicket(x) ==> x.idx < |p.workers| && Ticket(x.task, s) in Everywhere(p.workers[x.idx]))
            && (w < |p.workers| ==>
               p.workers[w].history == Everywhere(p.workers[w]) && |p.workers[w].queue| <= p.capacity)
            && (x.SlowLock? && w < |p.workers| ==> w in x.tried)
  {
    EveryRun(threads, capacity, batchSize, run);
    var p := Exec(Init<T>(threads, capacity, batchSize), run);
    assert forall v :: 0 <= v < |p.workers| ==> WorkerOk(p.capacity, p.workers[v]);
    OccurrencesAreClaims(p.workers, s);
    assert SubmitterOk(p, s) && Claims(p.workers, s) == if OwnsTicket(SubmitterOf(p, s)) then 1 else 0;
  }

  /** Only `Stop` ends anything: a call is refused only once the pool no longer accepts, which only a caller of `Stop`
      brings about; the stop flag is raised only by one; and a worker exits only after that. */
  lemma OnlyStopRefuses<T>(threads: nat, capacity: nat, batchSize: nat, run: seq<Action<T>>, w: nat, s: nat)
    ensures var p := Exec(Init<T>(threads, capacity, batchSize), run);
            && (SubmitterOf(p, s).Returned? && !SubmitterOf(p, s).ok ==> !p.accepting)
            && (!p.accepting ==> exists k: nat :: !StopperOf(p, k).NotStopping?)
            && (p.stop ==> p.first.Some? && HasStopped(StopperOf(p, p.first.value)) && !p.accepting)
            && (w < |p.workers| && p.workers[w].pc.Exited? ==> p.stop)
  {
    EveryRun(threads, capacity, batchSize, run);
    var p := Exec(Init<T>(threads, capacity, batchSize), run);
    assert SubmitterOk(p, s);
    if w < |p.workers| { assert StopOk(p, w); }
    if p.stop { assert !StopperOf(p, p.first.value).NotStopping?; }
  }

  lemma AroundDiffers(start: nat, i: nat, j: nat, n: nat)
    requires start < n && i < n && j < n && i != j
    ensures Around(start, i, n) != Around(start, j, n)
  {
  }

  /** The fast path: a call takes a ticket of the queue it is at exactly if that has room; otherwise it goes on to a
      queue it has not tried, and takes to the blocking path, with its task, only when it has tried them all. */
  lemma FastPath<T>(threads: nat, capacity: nat, batchSize: nat, run: seq<Action<T>>, s: nat, wake: Option<nat>)
    requires SubmitterOf(Exec(Init<T>(threads, capacity, batchSize), run), s).Trying?
    ensures var p := Exec(Init<T>(threads, capacity, batchSize), run);
            var x := SubmitterOf(p, s);
            && x.idx < |p.workers|
            && var q := SubmitterNext(p, s, wake);
               var y := SubmitterOf(q, s);
               if |p.workers[x.idx].queue| < p.capacity then
                 && y == Claimed(x.task, x.idx)
                 && q.workers[x.idx].queue == p.workers[x.idx].queue + [Entry(x.task, s, false)]
               else
                 && q.workers == p.workers
                 && (|| (y.Trying? && y.task == x.task && y.tried == x.tried + [x.idx] && y.idx !in y.tried)
                     || (y.SlowLock? && y.task == x.task && forall w: nat :: w < |p.workers| ==> w in y.tried))
  {
    EveryRun(threads, capacity, batchSize, run);
    var p := Exec(Init<T>(threads, capacity, batchSize), run);
    assert SubmitterOk(p, s);
    SubmitStepKeeps(p, s, wake);
    var q := SubmitterNext(p, s, wake);
    assert SubmitterOk(q, s);
    var x, y := SubmitterOf(p, s), SubmitterOf(q, s);
    if y.Trying? {
      forall j | 0 <= j < |y.tried| ensures y.tried[j] != y.idx {
        AroundDiffers(y.start, j, |y.tried|, |q.workers|);
      }
    }
  }

  /** The blocking path: each time the call tries, it takes a ticket exactly if the queue has room; it gives up exactly
      if it then finds that the pool no longer accepts. */
  lemma BlockingPath<T>(threads: nat, capacity: nat, batchSize: nat, run: seq<Action<T>>, s: nat, wake: Option<nat>)
    requires var x := SubmitterOf(Exec(Init<T>(threads, capacity, batchSize), run), s); x.SlowTry? || x.SlowCheck?
    ensures var p := Exec(Init<T>(threads, capacity, batchSize), run);
            var x := SubmitterOf(p, s);
            && x.idx < |p.workers|
            && var q := SubmitterNext(p, s, wake);
               var y := SubmitterOf(q, s);
               && (x.SlowTry? ==>
                     if |p.workers[x.idx].queue| < p.capacity then
                       && OwnsTicket(y) && y.task == x.task && y.idx == x.idx
                       && q.workers[x.idx].queue == p.workers[x.idx].queue + [Entry(x.task, s, false)]
                     else y == SlowCheck(x.task, x.idx) && q.workers == p.workers)
               && (x.SlowCheck? ==>
                     y.task == x.task && (y.Returned? <==> !p.accepting) && (y.SlowGoSleep? <==> p.accepting))
  {
    EveryRun(threads, capacity, batchSize, run);
    assert SubmitterOk(Exec(Init<T>(threads, capacity, batchSize), run), s);
  }

  /** A worker that has popped a batch wakes every producer that sleeps for room in its queue. */
  lemma BatchWakesProducers<T>(p: Pool<T>, w: nat, s: nat)
    requires w < |p.workers| && p.workers[w].pc.NotifyProducers?
    ensures var x, y := SubmitterOf(p, s), SubmitterOf(WorkerNext(p, w), s);
            y == if x.SlowAsleep? && x.idx == w then SlowWoken(x.task, w) else x
  {
  }

  // ---------------------------------------------------------------------------------------
  // What shutdown leaves behind
  // ---------------------------------------------------------------------------------------

  /** Where a run stood after its first t steps. */
  function At<T>(p: Pool<T>, run: seq<Action<T>>, t: nat): Pool<T>
    requires t <= |run|
  {
    Exec(p, run[..t])
  }

  /** Step t of the run is worker `w` examining its queue. */
  predicate LooksAt<T(==)>(p: Pool<T>, run: seq<Action<T>>, t: nat, w: nat)
    requires t < |run|
  {
    var q := At(p, run, t);
    run[t] == Work(w) && w < |q.workers| && Looks(q.workers[w], q.batchSize)
  }

  /** The last step of the run at which worker `w` examined its queue. */
  function LastLook<T(==)>(p: Pool<T>, run: seq<Action<T>>, w: nat): (t: Option<nat>)
    ensures t.Some? ==> t.value < |run|
  {
    if |run| == 0 then None
    else if LooksAt(p, run, |run| - 1, w) then Some(|run| - 1) else LastLook(p, run[..|run| - 1], w)
  }

  /** Worker `w` of a pool as the steps of others leave it. */
  predicate LeftAlone<T(==)>(p: Pool<T>, q: Pool<T>, w: nat)
  {
    && |q.workers| == |p.workers| && q.batchSize == p.batchSize
    && (w < |p.workers| ==>
          var d, e := p.workers[w], q.workers[w];
          && e.look == d.look && e.executed == d.executed && e.batch == d.batch
          && (e.pc == d.pc || (d.pc.Asleep? && e.pc.Woken?)))
  }

  lemma NotifiedAlone<T>(p: Pool<T>, v: nat, wake: Option<nat>, w: nat)
    requires v < |p.workers|
    ensures LeftAlone(p, NotifyOne(p, v, wake), w) && LeftAlone(p, NotifyAll(p, v), w)
            && LeftAlone(p, WakeWorker(p, v), w)
  {
  }

  lemma SubmitLeavesAlone<T>(p: Pool<T>, s: nat, wake: Option<nat>, w: nat)
    ensures LeftAlone(p, SubmitterNext(p, s, wake), w)
  {
    var x := SubmitterOf(p, s);
    if !x.Out? && !x.Returned? && x.idx < |p.workers| {
      if x.NotifyHold? || x.SlowNotify? {
        NotifiedAlone(p, x.idx, wake, w);
      } else {
        QuietSubmit(p, s, wake, w);
      }
    }
  }

  lemma QuietSubmit<T>(p: Pool<T>, s: nat, wake: Option<nat>, w: nat)
    requires var x := SubmitterOf(p, s); !x.NotifyHold? && !x.SlowNotify?
    ensures LeftAlone(p, SubmitterNext(p, s, wake), w)
  {
    if SubmitterOf(p, s).Claimed? || SubmitterOf(p, s).SlowClaimed? || SubmitterOf(p, s).Trying?
        || SubmitterOf(p, s).SlowTry? {
      TicketSubmit(p, s, wake, w);
    }
  }

  lemma TicketSubmit<T>(p: Pool<T>, s: nat, wake: Option<nat>, w: nat)
    requires var x := SubmitterOf(p, s); x.Claimed? || x.SlowClaimed? || x.Trying? || x.SlowTry?
    ensures LeftAlone(p, SubmitterNext(p, s, wake), w)
  {
  }

  lemma StopLeavesAlone<T>(p: Pool<T>, k: nat, w: nat)
    ensures LeftAlone(p, StopperNext(p, k), w)
  {
    if StopperOf(p, k).StopNotify? && StopperOf(p, k).i < |p.workers| { NotifiedAlone(p, StopperOf(p, k).i, None, w); }
  }

  /** Only its own steps move a worker on. */
  lemma OthersLeaveAlone<T>(p: Pool<T>, a: Action<T>, w: nat)
    requires a != Work(w)
    ensures LeftAlone(p, Next(p, a), w)
  {
    match a
    case Submit(_, _, _) =>
    case SubmitStep(s, wake) => SubmitLeavesAlone(p, s, wake, w);
    case Work(v) => if v < |p.workers| { NotifiedAlone(p, v, None, w); }
    case SpuriousWake(v) => if v < |p.workers| { NotifiedAlone(p, v, None, w); }
    case SpuriousSubmitterWake(_) =>
    case StopStep(k) => StopLeavesAlone(p, k, w);
  }

  lemma OwnLook<T>(p: Pool<T>, w: nat)
    requires w < |p.workers|
    ensures var d, q := p.workers[w], WorkerNext(p, w);
            && |q.workers| == |p.workers| && q.batchSize == p.batchSize
            && q.workers[w] == Advance(d, p.stop, p.batchSize)
            && q.workers[w].look == if Looks(d, p.batchSize) then Shown(d) else d.look
  {
    NotifiedAlone(p, w, None, w);
  }

  /** What a worker remembers is what it was shown at the last step of the run at which it looked; one that never looked
      is where it began. */
  lemma {:induction false} LookIsLast<T>(p: Pool<T>, run: seq<Action<T>>, w: nat)
    requires w < |p.workers| && p.workers[w].pc.Popping? && p.workers[w].batch == []
    ensures var q := Exec(p, run);
            && |q.workers| == |p.workers| && q.batchSize == p.batchSize
            && match LastLook(p, run, w)
               case None => q.workers[w].pc.Popping? && q.workers[w].batch == []
               case Some(t) => w < |At(p, run, t).workers| && q.workers[w].look == Shown(At(p, run, t).workers[w])
    decreases |run|
  {
    if |run| > 0 {
      var n := |run| - 1;
      var before := run[..n];
      assert run == before + [run[n]];
      ExecSnoc(p, before, run[n]);
      LookIsLast(p, before, w);
      if run[n] == Work(w) { OwnLook(Exec(p, before), w); } else { OthersLeaveAlone(Exec(p, before), run[n], w); }
      var t := LastLook(p, before, w);
      if t.Some? { assert before[..t.value] == run[..t.value]; }
    }
  }

  /** Tickets in a list in which their owner occurs once are not in a second part of it. */
  lemma NotInBoth<T>(a: seq<Ticket<T>>, b: seq<Ticket<T>>, t: Ticket<T>)
    requires Owned(a + b, t.owner) <= 1
    ensures !(t in a && t in b)
  {
    OwnedAppend(a, b, t.owner);
    if t in a && t in b {
      OwnedIn(a, t);
      OwnedIn(b, t);
    }
  }

  /** Exactly which accepted tasks a worker that has exited leaves unexecuted: those whose ticket could not be popped,
      and had not been, when the worker last looked at its queue.  That is so whether the ticket became visible just
      after that look, after the exit, or behind a ticket that was not published. */
  lemma StrandedExactlyWhenUnseen<T>(threads: nat, capacity: nat, batchSize: nat, run: seq<Action<T>>, w: nat, s: nat)
    requires var p := Exec(Init<T>(threads, capacity, batchSize), run);
             && w < |p.workers| && p.workers[w].pc.Exited?
             && OwnsTicket(SubmitterOf(p, s)) && SubmitterOf(p, s).idx == w
    ensures var p := Exec(Init<T>(threads, capacity, batchSize), run);
            var last := LastLook(Init<T>(threads, capacity, batchSize), run, w);
            && last.Some?
            && var then_ := At(Init<T>(threads, capacity, batchSize), run, last.value);
               var d, mine := p.workers[w], Ticket(SubmitterOf(p, s).task, s);
               && w < |then_.workers|
               && (mine in d.executed <==> mine in Shown(then_.workers[w]))
               && (mine in Tickets(d.queue) <==> mine !in Shown(then_.workers[w]))
  {
    var start := Init<T>(threads, capacity, batchSize);
    EveryRun(threads, capacity, batchSize, run);
    InitialSize(start, run);
    LookIsLast(start, run, w);
    ExitedWorker(Exec(start, run), w, s);
  }

  lemma {:induction false} InitialSize<T>(p: Pool<T>, run: seq<Action<T>>)
    ensures |Exec(p, run).workers| == |p.workers|
    decreases |run|
  {
    if |run| > 0 {
      match run[0] {
        case Work(v) => if v < |p.workers| { OwnLook(p, v); }
        case _ => OthersLeaveAlone(p, run[0], 0);
      }
      InitialSize(Next(p, run[0]), run[1..]);
    }
  }

  /** In a worker that has exited, an accepted task is executed or queued, as it was shown at the last look or not. */
  lemma ExitedWorker<T>(p: Pool<T>, w: nat, s: nat)
    requires Inv(p) && w < |p.workers| && p.workers[w].pc.Exited?
    requires OwnsTicket(SubmitterOf(p, s)) && SubmitterOf(p, s).idx == w
    ensures var d, mine := p.workers[w], Ticket(SubmitterOf(p, s).task, s);
            && (mine in d.executed <==> mine in d.look) && (mine in Tickets(d.queue) <==> mine !in d.look)
  {
    var d, mine := p.workers[w], Ticket(SubmitterOf(p, s).task, s);
    assert WorkerOk(p.capacity, d) && SubmitterOk(p, s);
    assert d.executed + d.batch == d.executed;
    OwnedByOne(p.workers, w, s);
    assert Claims(p.workers, s) == if OwnsTicket(SubmitterOf(p, s)) then 1 else 0;
    NotInBoth(d.executed, Tickets(d.queue), mine);
  }

  /** A worker that has exited is not heard of again: what it left is never executed. */
  lemma {:induction false} ExitIsFinal<T>(p: Pool<T>, run: seq<Action<T>>, w: nat)
    requires w < |p.workers| && p.workers[w].pc.Exited?
    ensures var q := Exec(p, run);
            w < |q.workers| && q.workers[w].pc.Exited? && q.workers[w].executed == p.workers[w].executed
    decreases |run|
  {
    if |run| > 0 {
      if run[0] == Work(w) { OwnLook(p, w); } else { OthersLeaveAlone(p, run[0], w); }
      ExitIsFinal(Next(p, run[0]), run[1..], w);
    }
  }
}
