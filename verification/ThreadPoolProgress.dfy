/** Nobody waits for a lock in vain: in every run of the pool whoever holds one is about to move, and whoever does not
    move is asleep, has finished, or waits for such a lock. */
module ThreadPoolProgress {
  import opened Common
  import opened ThreadPool

  // ---------------------------------------------------------------------------------------
  // Who holds a lock
  // ---------------------------------------------------------------------------------------

  /** The owner of a lock is at a place where it holds it. */
  ghost predicate LockOk<T>(p: Pool<T>, w: nat)
    requires w < |p.workers|
  {
    match p.workers[w].lock
    case Free => true
    case ByWorker => WorkerHolds(p.workers[w].pc)
    case BySubmitter(s) => SubmitterHolds(SubmitterOf(p, s)) && SubmitterOf(p, s).idx == w
    case ByStopper(k) => StopperOf(p, k) == StopHeld(w)
  }

  ghost predicate LocksOk<T>(p: Pool<T>) { forall w: nat :: w < |p.workers| ==> LockOk(p, w) }

  lemma NotifyOneLocks<T>(p: Pool<T>, w: nat, wake: Option<nat>, v: nat)
    requires w < |p.workers| && v < |p.workers| && LockOk(p, v)
    ensures v < |NotifyOne(p, w, wake).workers| && LockOk(NotifyOne(p, w, wake), v)
  {
  }

  lemma NotifyAllLocks<T>(p: Pool<T>, w: nat, v: nat)
    requires w < |p.workers| && v < |p.workers| && LockOk(p, v)
    ensures v < |NotifyAll(p, w).workers| && LockOk(NotifyAll(p, w), v)
  {
  }

  /** A step of call `s` that moves no worker and changes at most the lock of worker `w`, which is then free, or the
      call's own and it is where it holds it, or somebody else's as before. */
  ghost predicate OwnLock<T>(p: Pool<T>, q: Pool<T>, s: nat, w: nat)
  {
    && |q.workers| == |p.workers| && w < |p.workers| && q.stoppers == p.stoppers
    && (forall u: nat :: u < |p.workers| ==> q.workers[u].pc == p.workers[u].pc)
    && (forall u: nat :: u < |p.workers| && u != w ==> q.workers[u].lock == p.workers[u].lock)
    && (forall t: nat :: t != s ==> SubmitterOf(q, t) == SubmitterOf(p, t))
    && (|| q.workers[w].lock.Free?
        || (q.workers[w].lock == BySubmitter(s) && SubmitterHolds(SubmitterOf(q, s)) && SubmitterOf(q, s).idx == w)
        || (q.workers[w].lock == p.workers[w].lock && p.workers[w].lock != BySubmitter(s)))
  }

  lemma OwnLockOk<T>(p: Pool<T>, q: Pool<T>, s: nat, w: nat, v: nat)
    requires OwnLock(p, q, s, w) && v < |p.workers| && LockOk(p, v)
    requires SubmitterHolds(SubmitterOf(p, s)) ==> SubmitterOf(p, s).idx == w
    ensures LockOk(q, v)
  {
    if q.workers[v].lock.ByStopper? { assert StopperOf(q, q.workers[v].lock.k) == StopperOf(p, q.workers[v].lock.k); }
  }

  lemma FastStep<T>(p: Pool<T>, s: nat, wake: Option<nat>)
    requires var x := SubmitterOf(p, s);
             && (x.Trying? || x.Claimed? || x.Counting? || x.CheckWaiting?) && x.idx < |p.workers|
             && p.workers[x.idx].lock != BySubmitter(s)
    ensures OwnLock(p, SubmitterNext(p, s, wake), s, SubmitterOf(p, s).idx)
  {
  }

  lemma LockingStep<T>(p: Pool<T>, s: nat, wake: Option<nat>)
    requires var x := SubmitterOf(p, s);
             && (x.NotifyLock? || x.SlowLock? || x.SlowWoken? || x.SlowAsleep?) && x.idx < |p.workers|
             && p.workers[x.idx].lock != BySubmitter(s)
    ensures OwnLock(p, SubmitterNext(p, s, wake), s, SubmitterOf(p, s).idx)
  {
  }

  lemma HoldingStep<T>(p: Pool<T>, s: nat, wake: Option<nat>)
    requires var x := SubmitterOf(p, s);
             && (x.SlowTry? || x.SlowCheck? || x.SlowGoSleep? || x.SlowClaimed?) && x.idx < |p.workers|
             && p.workers[x.idx].lock == BySubmitter(s)
    ensures OwnLock(p, SubmitterNext(p, s, wake), s, SubmitterOf(p, s).idx)
  {
  }

  lemma NotifyingStep<T>(p: Pool<T>, s: nat, wake: Option<nat>)
    requires var x := SubmitterOf(p, s); (x.NotifyHold? || x.SlowNotify?) && x.idx < |p.workers|
    ensures var w := SubmitterOf(p, s).idx; OwnLock(NotifyOne(p, w, wake), SubmitterNext(p, s, wake), s, w)
  {
  }

  /** A call that holds a lock gives it back, or keeps it and its place among those that hold it. */
  lemma SubmitLocks<T>(p: Pool<T>, s: nat, wake: Option<nat>, v: nat)
    requires SubmitterOk(p, s) && LocksOk(p) && v < |p.workers|
    ensures v < |SubmitterNext(p, s, wake).workers| && LockOk(SubmitterNext(p, s, wake), v)
  {
    var x := SubmitterOf(p, s);
    assert LockOk(p, v);
    if !x.Out? && !x.Returned? {
      assert LockOk(p, x.idx);
      if x.NotifyHold? || x.SlowNotify? {
        NotifyOneLocks(p, x.idx, wake, v);
        NotifyingStep(p, s, wake);
        NotifierStays(p, s, x.idx, wake);
        OwnLockOk(NotifyOne(p, x.idx, wake), SubmitterNext(p, s, wake), s, x.idx, v);
      } else {
        if SubmitterHolds(x) { HoldingStep(p, s, wake); }
        else if x.Trying? || x.Claimed? || x.Counting? || x.CheckWaiting? { FastStep(p, s, wake); }
        else { LockingStep(p, s, wake); }
        OwnLockOk(p, SubmitterNext(p, s, wake), s, x.idx, v);
      }
    }
  }

  lemma NotifierStays<T>(p: Pool<T>, s: nat, w: nat, wake: Option<nat>)
    requires w < |p.workers| && SubmitterHolds(SubmitterOf(p, s))
    ensures SubmitterOf(NotifyOne(p, w, wake), s) == SubmitterOf(p, s)
  {
  }

  lemma WorkLocks<T>(p: Pool<T>, w: nat, v: nat)
    requires WorkersOk(p) && LocksOk(p) && w < |p.workers| && v < |p.workers|
    ensures v < |WorkerNext(p, w).workers| && LockOk(WorkerNext(p, w), v)
  {
    var d := p.workers[w];
    assert LockOk(p, v) && LockOk(p, w);
    AdvanceLock(d, p.stop, p.batchSize);
    if d.pc.NotifyProducers? {
      NotifyAllLocks(p, w, v);
      WorkMoves(NotifyAll(p, w), w, Advance(d, p.stop, p.batchSize), v);
    } else {
      WorkMoves(p, w, Advance(d, p.stop, p.batchSize), v);
    }
  }

  lemma AdvanceLock<T>(d: Worker<T>, stop: bool, batchSize: nat)
    requires d.lock == ByWorker ==> WorkerHolds(d.pc)
    requires WorkerHolds(d.pc) ==> d.lock == ByWorker
    ensures var e := Advance(d, stop, batchSize);
            (e.lock == ByWorker ==> WorkerHolds(e.pc)) && (e.lock == d.lock || e.lock.Free? || e.lock == ByWorker)
  {
  }

  lemma WorkMoves<T>(p: Pool<T>, w: nat, e: Worker<T>, v: nat)
    requires w < |p.workers| && v < |p.workers| && LockOk(p, v)
    requires e.lock == ByWorker ==> WorkerHolds(e.pc)
    requires e.lock == p.workers[w].lock || e.lock.Free? || e.lock == ByWorker
    ensures LockOk(SetWorker(p, w, e), v)
  {
    var q := SetWorker(p, w, e);
    assert forall t: nat :: SubmitterOf(q, t) == SubmitterOf(p, t);
    assert forall k: nat :: StopperOf(q, k) == StopperOf(p, k);
  }

  lemma StopLocks<T>(p: Pool<T>, k: nat, v: nat)
    requires StopperOk(p, k) && LocksOk(p) && v < |p.workers|
    ensures v < |StopperNext(p, k).workers| && LockOk(StopperNext(p, k), v)
  {
    assert LockOk(p, v);
    assert forall u: nat :: u < |p.workers| && p.workers[u].lock == ByStopper(k) ==> LockOk(p, u);
    if StopperOf(p, k).StopNotify? {
      NotifyAllLocks(p, StopperOf(p, k).i, v);
      StopMoves(NotifyAll(p, StopperOf(p, k).i), StopperNext(p, k), k, StopperOf(p, k).i, v);
    } else if StopperOf(p, k).StopLoop? || StopperOf(p, k).StopHeld? {
      StopMoves(p, StopperNext(p, k), k, StopperOf(p, k).i, v);
    }
  }

  lemma StopMoves<T>(p: Pool<T>, q: Pool<T>, k: nat, i: nat, v: nat)
    requires |q.workers| == |p.workers| && v < |p.workers| && LockOk(p, v) && q.submitters == p.submitters
    requires forall u: nat :: u < |p.workers| ==> q.workers[u].pc == p.workers[u].pc
    requires forall u: nat :: u < |p.workers| && u != i ==> q.workers[u].lock == p.workers[u].lock
    requires q.stoppers == p.stoppers[k := StopperOf(q, k)]
    requires StopperOf(p, k).StopHeld? ==> StopperOf(p, k).i == i
    requires i < |p.workers| ==>
               || q.workers[i].lock.Free?
               || (q.workers[i].lock == ByStopper(k) && StopperOf(q, k) == StopHeld(i))
               || (q.workers[i].lock == p.workers[i].lock && p.workers[i].lock != ByStopper(k))
    ensures LockOk(q, v)
  {
    assert forall t: nat :: SubmitterOf(q, t) == SubmitterOf(p, t);
    assert forall j: nat :: j != k ==> StopperOf(q, j) == StopperOf(p, j);
  }

  lemma StepLocks<T>(p: Pool<T>, a: Action<T>)
    requires Inv(p) && LocksOk(p)
    ensures LocksOk(Next(p, a))
  {
    InitialSize(p, [a]);
    Exec1(p, a);
    forall v: nat | v < |Next(p, a).workers| ensures LockOk(Next(p, a), v) { StepLock(p, a, v); }
  }

  lemma StepLock<T>(p: Pool<T>, a: Action<T>, v: nat)
    requires Inv(p) && LocksOk(p) && v < |p.workers| && v < |Next(p, a).workers|
    ensures LockOk(Next(p, a), v)
  {
    assert LockOk(p, v);
    match a
    case Submit(s, task, hint) => BeginLocks(p, s, task, hint, v);
    case SubmitStep(s, wake) =>
      assert SubmitterOk(p, s);
      SubmitLocks(p, s, wake, v);
    case Work(w) => if w < |p.workers| { WorkLocks(p, w, v); }
    case SpuriousWake(w) => if w < |p.workers| { NotifyOneLocks(p, w, None, v); }
    case SpuriousSubmitterWake(s) => SpuriousLocks(p, s, v);
    case StopStep(k) =>
      assert StopperOk(p, k);
      StopLocks(p, k, v);
  }

  lemma BeginLocks<T>(p: Pool<T>, s: nat, task: T, hint: nat, v: nat)
    requires v < |p.workers| && LockOk(p, v)
    ensures v < |Next(p, Submit(s, task, hint)).workers| && LockOk(Next(p, Submit(s, task, hint)), v)
  {
  }

  lemma SpuriousLocks<T>(p: Pool<T>, s: nat, v: nat)
    requires v < |p.workers| && LockOk(p, v)
    ensures v < |Next(p, SpuriousSubmitterWake(s)).workers| && LockOk(Next(p, SpuriousSubmitterWake(s)), v)
  {
  }

  lemma {:induction false} RunLocks<T>(p: Pool<T>, run: seq<Action<T>>)
    requires Inv(p) && LocksOk(p)
    ensures LocksOk(Exec(p, run))
    decreases |run|
  {
    if |run| > 0 {
      StepLocks(p, run[0]);
      StepKeeps(p, run[0]);
      RunLocks(Next(p, run[0]), run[1..]);
    }
  }

  // ---------------------------------------------------------------------------------------
  // Who can move
  // ---------------------------------------------------------------------------------------

  predicate LockFree<T>(p: Pool<T>, w: nat) { w < |p.workers| && p.workers[w].lock.Free? }

  /** The worker has a step to make. */
  predicate WorkerCan<T(==)>(p: Pool<T>, w: nat) { w < |p.workers| && WorkerNext(p, w) != p }

  /** The call has a step to make, whomever a notification wakes. */
  ghost predicate CallCan<T>(p: Pool<T>, s: nat) { forall wake: Option<nat> :: SubmitterNext(p, s, wake) != p }

  predicate StopperCan<T(==)>(p: Pool<T>, k: nat) { StopperNext(p, k) != p }

  /** Whoever holds the lock of worker `w` can move. */
  ghost predicate HolderCan<T>(p: Pool<T>, w: nat)
    requires w < |p.workers|
  {
    match p.workers[w].lock
    case Free => true
    case ByWorker => WorkerCan(p, w)
    case BySubmitter(s) => CallCan(p, s)
    case ByStopper(k) => StopperCan(p, k)
  }

  lemma WorkerMoves<T>(p: Pool<T>, w: nat)
    requires w < |p.workers| && p.batchSize > 0
    requires var d := p.workers[w];
             !d.pc.Asleep? && !d.pc.Exited? && (d.pc.Locking? || d.pc.Woken? ==> d.lock.Free?)
    ensures WorkerCan(p, w)
  {
    var d := p.workers[w];
    WorkerGoes(d, p.stop, p.batchSize);
    OwnLook(p, w);
    assert WorkerNext(p, w).workers[w] != d;
  }

  lemma WorkerGoes<T>(d: Worker<T>, stop: bool, batchSize: nat)
    requires batchSize > 0 && !d.pc.Asleep? && !d.pc.Exited? && (d.pc.Locking? || d.pc.Woken? ==> d.lock.Free?)
    ensures Advance(d, stop, batchSize) != d
  {
  }

  lemma CallMoves<T>(p: Pool<T>, s: nat)
    requires var x := SubmitterOf(p, s);
             && !x.Out? && !x.Returned? && !x.SlowAsleep? && x.idx < |p.workers|
             && (x.NotifyLock? || x.SlowLock? || x.SlowWoken? ==> LockFree(p, x.idx))
    ensures CallCan(p, s)
  {
    var x := SubmitterOf(p, s);
    forall wake: Option<nat> ensures SubmitterNext(p, s, wake) != p { CallGoes(p, s, wake); }
  }

  lemma CallGoes<T>(p: Pool<T>, s: nat, wake: Option<nat>)
    requires var x := SubmitterOf(p, s);
             && !x.Out? && !x.Returned? && !x.SlowAsleep? && x.idx < |p.workers|
             && (x.NotifyLock? || x.SlowLock? || x.SlowWoken? ==> LockFree(p, x.idx))
    ensures SubmitterOf(SubmitterNext(p, s, wake), s) != SubmitterOf(p, s)
  {
    var x := SubmitterOf(p, s);
    if x.Trying? { assert |x.tried + [x.idx]| == |x.tried| + 1; }
  }

  lemma StopperMoves<T>(p: Pool<T>, k: nat)
    requires StopperOk(p, k) && !StopperOf(p, k).StopDone?
    requires StopperOf(p, k).StopLoop? && StopperOf(p, k).i < |p.workers| ==> LockFree(p, StopperOf(p, k).i)
    ensures StopperCan(p, k)
  {
    assert StopperOf(StopperNext(p, k), k) != StopperOf(p, k);
  }

  /** In every run: a worker that is neither asleep nor gone, a call that has not returned and is not asleep, and a
      caller of `Stop` that has not finished can each make a step, unless the lock they want is held; and then its
      holder can. */
  lemma NobodyWaitsInVain<T>(threads: nat, capacity: nat, batchSize: nat, run: seq<Action<T>>, w: nat, s: nat, k: nat)
    requires batchSize > 0
    ensures var p := Exec(Init<T>(threads, capacity, batchSize), run);
            var x, y := SubmitterOf(p, s), StopperOf(p, k);
            && (w < |p.workers| ==>
                  var pc := p.workers[w].pc;
                  && HolderCan(p, w)
                  && (pc.Asleep? || pc.Exited? || WorkerCan(p, w) || ((pc.Locking? || pc.Woken?) && !LockFree(p, w))))
            && (|| x.Out? || x.Returned? || x.SlowAsleep? || CallCan(p, s)
                || ((x.NotifyLock? || x.SlowLock? || x.SlowWoken?) && x.idx < |p.workers| && !LockFree(p, x.idx)))
            && (y.StopDone? || StopperCan(p, k) || (y.StopLoop? && y.i < |p.workers| && !LockFree(p, y.i)))
  {
    var start, p := Init<T>(threads, capacity, batchSize), Exec(Init<T>(threads, capacity, batchSize), run);
    EveryRun(threads, capacity, batchSize, run);
    InitInv<T>(threads, capacity, batchSize);
    RunLocks(start, run);
    SameBatch(start, run);
    assert SubmitterOk(p, s) && StopperOk(p, k);
    if w < |p.workers| { WorkerOrHolder(p, w); }
    CallOrLock(p, s);
    if !StopperOf(p, k).StopDone? && (StopperOf(p, k).StopLoop? && StopperOf(p, k).i < |p.workers| ==>
                                      LockFree(p, StopperOf(p, k).i)) {
      StopperMoves(p, k);
    }
  }

  lemma WorkerOrHolder<T>(p: Pool<T>, w: nat)
    requires Inv(p) && LocksOk(p) && w < |p.workers| && p.batchSize > 0
    ensures HolderCan(p, w)
    ensures var pc := p.workers[w].pc;
            pc.Asleep? || pc.Exited? || WorkerCan(p, w) || ((pc.Locking? || pc.Woken?) && !LockFree(p, w))
  {
    var d := p.workers[w];
    assert LockOk(p, w);
    if !d.pc.Asleep? && !d.pc.Exited? && (d.pc.Locking? || d.pc.Woken? ==> d.lock.Free?) { WorkerMoves(p, w); }
    match d.lock
    case Free =>
    case ByWorker =>
    case BySubmitter(t) => CallMoves(p, t);
    case ByStopper(j) => assert StopperOk(p, j); StopperMoves(p, j);
  }

  lemma CallOrLock<T>(p: Pool<T>, s: nat)
    requires SubmitterOk(p, s)
    ensures var x := SubmitterOf(p, s);
            || x.Out? || x.Returned? || x.SlowAsleep? || CallCan(p, s)
            || ((x.NotifyLock? || x.SlowLock? || x.SlowWoken?) && x.idx < |p.workers| && !LockFree(p, x.idx))
  {
    var x := SubmitterOf(p, s);
    if !x.Out? && !x.Returned? && !x.SlowAsleep?
       && (x.NotifyLock? || x.SlowLock? || x.SlowWoken? ==> LockFree(p, x.idx)) {
      CallMoves(p, s);
    }
  }

  lemma {:induction false} SameBatch<T>(p: Pool<T>, run: seq<Action<T>>)
    ensures Exec(p, run).batchSize == p.batchSize
    decreases |run|
  {
    if |run| > 0 {
      match run[0] {
        case Work(v) => if v < |p.workers| { OwnLook(p, v); }
        case _ => OthersLeaveAlone(p, run[0], 0);
      }
      SameBatch(Next(p, run[0]), run[1..]);
    }
  }
}
