/**
  Things the pool does not promise, each as a concrete run: a wakeup lost to the blocking submit path, for every queue
  capacity, and an accepted task that is never executed because of shutdown, in two ways.
 */
module ThreadPoolRuns {
  import opened Common
  import opened ThreadPool

  // ---------------------------------------------------------------------------------------
  // A lost wakeup
  // ---------------------------------------------------------------------------------------

  function Queued(k: nat): seq<Entry<int>> { seq(k, (i: nat) => Entry(i, i, true)) }

  function Numbers(k: nat): seq<Ticket<int>> { seq(k, (i: nat) => Ticket(i, i)) }

  function SleepingWorker(k: nat): Worker<int>
  {
    Worker(Queued(k), Asleep, true, Free, [], [], Numbers(k), [])
  }

  /** The single worker sleeps; producers 0..k-1 have pushed and are about to look at the waiting flag. */
  function Pushed(k: nat, c: nat, b: nat): Pool<int>
  {
    Pool([SleepingWorker(k)], map i: nat | i < k :: CheckWaiting(i, 0), map[], true, false, None, c, b)
  }

  /** The queue is full, producer c sleeps in the blocking path, and the first `done` producers have notified. */
  function Notified(done: nat, c: nat, b: nat): Pool<int>
  {
    Pool([SleepingWorker(c)],
         map i: nat | i <= c ::
           if i == c then SlowAsleep(i, 0) else if i < done then Returned(i, true, 0) else CheckWaiting(i, 0),
         map[], true, false, None, c, b)
  }

  function Repeat<T>(a: Action<T>, n: nat): seq<Action<T>> { seq(n, _ => a) }

  function FallAsleep(): seq<Action<int>> { Repeat(Work(0), 9) }

  function PushOne(k: nat): seq<Action<int>>
  {
    [Submit(k, k, 0)] + [SubmitStep(k, None)] + [SubmitStep(k, None)] + [SubmitStep(k, None)]
  }

  function PushAll(k: nat): seq<Action<int>>
  {
    if k == 0 then [] else PushAll(k - 1) + PushOne(k - 1)
  }

  function BlockOne(c: nat): seq<Action<int>>
  {
    [Submit(c, c, 0)] + [SubmitStep(c, None)] + [SubmitStep(c, None)] + [SubmitStep(c, None)] + [SubmitStep(c, None)]
    + [SubmitStep(c, None)]
  }

  /** Producer k notifies; the scheduler hands the notification to producer c, which finds the queue still full. */
  function NotifyTheOther(k: nat, c: nat): seq<Action<int>>
  {
    [SubmitStep(k, None)] + [SubmitStep(k, None)] + [SubmitStep(k, Some(c))]
    + [SubmitStep(c, None)] + [SubmitStep(c, None)] + [SubmitStep(c, None)] + [SubmitStep(c, None)]
  }

  function NotifyAllInVain(k: nat, c: nat): seq<Action<int>>
  {
    if k == 0 then [] else NotifyAllInVain(k - 1, c) + NotifyTheOther(k - 1, c)
  }

  function LostRun(c: nat): seq<Action<int>>
  {
    FallAsleep() + PushAll(c) + BlockOne(c) + NotifyAllInVain(c, c)
  }

  /** A submission that finds room in the first queue, up to its look at the waiting flag. */
  function Accepted(p: Pool<int>, s: nat, task: int): Pool<int>
    requires |p.workers| == 1
  {
    SetSubmitter(SetWorker(p, 0, Publish(Claim(p.workers[0], task, s), s)), s, CheckWaiting(task, 0))
  }

  lemma NextSubmit(p: Pool<int>, s: nat, task: int)
    requires |p.workers| == 1 && p.accepting && SubmitterOf(p, s).Out?
    ensures Next(p, Submit(s, task, 0)) == SetSubmitter(p, s, Trying(task, 0, [], 0))
  {
  }

  lemma NextClaim(p: Pool<int>, s: nat, task: int)
    requires |p.workers| == 1 && |p.workers[0].queue| < p.capacity && SubmitterOf(p, s) == Trying(task, 0, [], 0)
    ensures Next(p, SubmitStep(s, None))
         == SetSubmitter(SetWorker(p, 0, Claim(p.workers[0], task, s)), s, Claimed(task, 0))
  {
  }

  lemma NextPublish(p: Pool<int>, s: nat, task: int)
    requires |p.workers| == 1 && SubmitterOf(p, s) == Claimed(task, 0)
    ensures Next(p, SubmitStep(s, None))
            == SetSubmitter(SetWorker(p, 0, Publish(p.workers[0], s)), s, Counting(task, 0))
  {
  }

  lemma NextCount(p: Pool<int>, s: nat, task: int)
    requires |p.workers| == 1 && SubmitterOf(p, s) == Counting(task, 0)
    ensures Next(p, SubmitStep(s, None)) == SetSubmitter(p, s, CheckWaiting(task, 0))
  {
  }

  lemma SubmitAccepted(p: Pool<int>, s: nat, task: int)
    requires |p.workers| == 1 && p.accepting && SubmitterOf(p, s).Out? && |p.workers[0].queue| < p.capacity
    ensures Exec(p, [Submit(s, task, 0)] + [SubmitStep(s, None)] + [SubmitStep(s, None)] + [SubmitStep(s, None)])
         == Accepted(p, s, task)
  {
    var a: Action<int> := SubmitStep(s, None);
    var begin := [Submit(s, task, 0)];
    var p1 := SetSubmitter(p, s, Trying(task, 0, [], 0));
    var p2 := SetSubmitter(SetWorker(p1, 0, Claim(p.workers[0], task, s)), s, Claimed(task, 0));
    var p3 := SetSubmitter(SetWorker(p2, 0, Publish(Claim(p.workers[0], task, s), s)), s, Counting(task, 0));
    Exec1(p, Submit(s, task, 0));
    NextSubmit(p, s, task);
    ExecSnoc(p, begin, a);
    NextClaim(p1, s, task);
    ExecSnoc(p, begin + [a], a);
    NextPublish(p2, s, task);
    ExecSnoc(p, begin + [a] + [a], a);
    NextCount(p3, s, task);
    AcceptedIs(p, s, task);
  }

  /** Overwritten intermediate values do not show. */
  lemma AcceptedIs(p: Pool<int>, s: nat, task: int)
    requires |p.workers| == 1
    ensures var p1 := SetSubmitter(p, s, Trying(task, 0, [], 0));
            var p2 := SetSubmitter(SetWorker(p1, 0, Claim(p.workers[0], task, s)), s, Claimed(task, 0));
            var p3 := SetSubmitter(SetWorker(p2, 0, Publish(Claim(p.workers[0], task, s), s)), s, Counting(task, 0));
            SetSubmitter(p3, s, CheckWaiting(task, 0)) == Accepted(p, s, task)
  {
  }

  lemma PushStep(k: nat, c: nat, b: nat)
    requires k < c
    ensures Exec(Pushed(k, c, b), PushOne(k)) == Pushed(k + 1, c, b)
  {
    var p := Pushed(k, c, b);
    SubmitAccepted(p, k, k);
    var d := Claim(SleepingWorker(k), k, k);
    assert Publish(d, k).queue == Queued(k + 1);
    assert d.history == Numbers(k + 1);
    assert Accepted(p, k, k).submitters == Pushed(k + 1, c, b).submitters;
  }

  lemma SleepFirst(c: nat, b: nat)
    ensures Exec(Init<int>(1, c, b), FallAsleep()) == Pushed(0, c, b)
  {
    var p := Init<int>(1, c, b);
    SleepSteps(c, b, 9);
    assert p.submitters == Pushed(0, c, b).submitters;
    assert Queued(0) == [] && Numbers(0) == [];
  }

  /** The worker after k steps over an empty queue. */
  function Settling(k: nat): Worker<int>
    requires k <= 9
  {
    var pcs := [Popping, CheckStop, SetWaiting, Recheck, CheckStopAgain, Locking, PredStop, PredEmpty, GoSleep, Asleep];
    Worker([], pcs[k], k >= 3, if 6 <= k <= 8 then ByWorker else Free, [], [], [], [])
  }

  lemma {:induction false} SleepSteps(c: nat, b: nat, k: nat)
    requires k <= 9
    ensures Exec(Init<int>(1, c, b), Repeat(Work(0), k)) == Pool([Settling(k)], map[], map[], true, false, None, c, b)
    decreases k
  {
    if k == 0 {
      assert Init<int>(1, c, b).workers == [Settling(0)];
    } else {
      SleepSteps(c, b, k - 1);
      assert Repeat<int>(Work(0), k) == Repeat<int>(Work(0), k - 1) + [Work(0)];
      ExecSnoc(Init<int>(1, c, b), Repeat(Work(0), k - 1), Work(0));
      Settles(k - 1, b);
      LoneWorker(Settling(k - 1), c, b);
    }
  }

  lemma LoneWorker(d: Worker<int>, c: nat, b: nat)
    requires !d.pc.NotifyProducers?
    ensures Next(Pool([d], map[], map[], true, false, None, c, b), Work(0))
         == Pool([Advance(d, false, b)], map[], map[], true, false, None, c, b)
  {
    assert [d][0 := Advance(d, false, b)] == [Advance(d, false, b)];
  }

  lemma Settles(k: nat, b: nat)
    requires k < 9
    ensures Advance(Settling(k), false, b) == Settling(k + 1)
  {
    assert Shown(Settling(k)) == [];
  }

  lemma PushAfter(p: Pool<int>, run: seq<Action<int>>, k: nat, c: nat, b: nat)
    requires k < c && Exec(p, run) == Pushed(k, c, b)
    ensures Exec(p, run + PushOne(k)) == Pushed(k + 1, c, b)
  {
    ExecAppend(p, run, PushOne(k));
    PushStep(k, c, b);
  }

  lemma {:induction false} FillQueue(p: Pool<int>, run: seq<Action<int>>, k: nat, c: nat, b: nat)
    requires k <= c && Exec(p, run) == Pushed(0, c, b)
    ensures Exec(p, run + PushAll(k)) == Pushed(k, c, b)
    decreases k
  {
    if k == 0 {
      assert run + PushAll(0) == run;
    } else {
      FillQueue(p, run, k - 1, c, b);
      assert run + PushAll(k) == run + PushAll(k - 1) + PushOne(k - 1);
      PushAfter(p, run + PushAll(k - 1), k - 1, c, b);
    }
  }

  /** Producer c finds every queue full and takes the lock of its slow-path queue. */
  lemma BlockLock(c: nat, b: nat) returns (q: Pool<int>)
    ensures q == SetSubmitter(SetWorker(Pushed(c, c, b), 0, SleepingWorker(c).(lock := BySubmitter(c))), c,
            SlowTry(c, 0))
    ensures Exec(Pushed(c, c, b), [Submit(c, c, 0)] + [SubmitStep(c, None)] + [SubmitStep(c, None)]) == q
  {
    var p := Pushed(c, c, b);
    var a0: Action<int>, a := Submit(c, c, 0), SubmitStep(c, None);
    var p1 := SetSubmitter(p, c, Trying(c, 0, [], 0));
    var p2 := SetSubmitter(p1, c, SlowLock(c, 0, [0]));
    q := SetSubmitter(SetWorker(p, 0, SleepingWorker(c).(lock := BySubmitter(c))), c, SlowTry(c, 0));
    Exec1(p, a0);
    assert Next(p, a0) == p1;
    ExecSnoc(p, [a0], a);
    assert [] + [0] == [0];
    assert Next(p1, a) == p2;
    ExecSnoc(p, [a0] + [a], a);
    assert Next(p2, a) == q;
  }

  lemma BlockStep(c: nat, b: nat)
    ensures Exec(Pushed(c, c, b), BlockOne(c)) == Notified(0, c, b)
  {
    var p := Pushed(c, c, b);
    var a: Action<int> := SubmitStep(c, None);
    var p3 := BlockLock(c, b);
    var first: seq<Action<int>> := [Submit(c, c, 0)] + [a] + [a];
    var p4 := SetSubmitter(p3, c, SlowCheck(c, 0));
    ExecSnoc(p, first, a);
    assert Next(p3, a) == p4;
    ExecSnoc(p, first + [a], a);
    ExecSnoc(p, first + [a] + [a], a);
    LieDown(p4, c);
    BlockedIs(c, b, p4);
  }

  lemma BlockedIs(c: nat, b: nat, p: Pool<int>)
    requires p.workers == [SleepingWorker(c).(lock := BySubmitter(c))]
    requires p.submitters == Pushed(c, c, b).submitters[c := SlowTry(c, 0)][c := SlowCheck(c, 0)]
    requires p.stoppers == map[] && p.accepting && !p.stop && p.first == None && p.capacity == c && p.batchSize == b
    ensures SetSubmitter(Unlock(p, 0), c, SlowAsleep(c, 0)) == Notified(0, c, b)
  {
    var q := SetSubmitter(Unlock(p, 0), c, SlowAsleep(c, 0));
    assert q.submitters == Notified(0, c, b).submitters;
    assert q.workers == [SleepingWorker(c)];
  }

  /** From the check of the accepting flag to sleep. */
  lemma LieDown(p: Pool<int>, c: nat)
    requires |p.workers| == 1 && p.accepting && SubmitterOf(p, c) == SlowCheck(c, 0)
    ensures Next(Next(p, SubmitStep(c, None)), SubmitStep(c, None)) == SetSubmitter(Unlock(p, 0), c, SlowAsleep(c, 0))
  {
    var p1 := SetSubmitter(p, c, SlowGoSleep(c, 0));
    assert Next(p, SubmitStep(c, None)) == p1;
    assert Next(p1, SubmitStep(c, None)) == SetSubmitter(Unlock(p1, 0), c, SlowAsleep(c, 0));
  }

  lemma VainStep(k: nat, c: nat, b: nat)
    requires k < c
    ensures Exec(Notified(k, c, b), NotifyTheOther(k, c)) == Notified(k + 1, c, b)
  {
    var p := Notified(k, c, b);
    var mid := VainNotify(k, c, b);
    var first: seq<Action<int>> := [SubmitStep(k, None)] + [SubmitStep(k, None)] + [SubmitStep(k, Some(c))];
    var a: Action<int> := SubmitStep(c, None);
    ExecSnoc(p, first, a);
    ExecSnoc(p, first + [a], a);
    ExecSnoc(p, first + [a] + [a], a);
    ExecSnoc(p, first + [a] + [a] + [a], a);
    SleepAgain(k, c, b, mid);
  }

  /** The blocked producer wakes, finds the queue full, and sleeps again. */
  lemma SleepAgain(k: nat, c: nat, b: nat, mid: Pool<int>)
    requires k < c
    requires mid == SetSubmitter(SetSubmitter(Notified(k, c, b), c, SlowWoken(c, 0)), k, Returned(k, true, 0))
    ensures var a := SubmitStep(c, None); Next(Next(Next(Next(mid, a), a), a), a) == Notified(k + 1, c, b)
  {
    var a: Action<int> := SubmitStep(c, None);
    var p4 := SetSubmitter(SetWorker(mid, 0, SleepingWorker(c).(lock := BySubmitter(c))), c, SlowTry(c, 0));
    var p5 := SetSubmitter(p4, c, SlowCheck(c, 0));
    var p6 := SetSubmitter(Unlock(p5, 0), c, SlowAsleep(c, 0));
    WakeAndTry(mid, c);
    LieDown(p5, c);
    assert p6.workers == [SleepingWorker(c)];
    MoreNotified(k, c, b, mid, p6);
  }

  lemma WakeAndTry(p: Pool<int>, c: nat)
    requires p.workers == [SleepingWorker(c)] && p.capacity == c && SubmitterOf(p, c) == SlowWoken(c, 0)
    ensures var p1 := SetSubmitter(SetWorker(p, 0, SleepingWorker(c).(lock := BySubmitter(c))), c, SlowTry(c, 0));
            && Next(p, SubmitStep(c, None)) == p1
            && Next(p1, SubmitStep(c, None)) == SetSubmitter(p1, c, SlowCheck(c, 0))
  {
  }

  lemma MoreNotified(k: nat, c: nat, b: nat, mid: Pool<int>, last: Pool<int>)
    requires k < c
    requires mid == SetSubmitter(SetSubmitter(Notified(k, c, b), c, SlowWoken(c, 0)), k, Returned(k, true, 0))
    requires last.submitters == mid.submitters[c := SlowTry(c, 0)][c := SlowCheck(c, 0)][c := SlowAsleep(c, 0)]
    ensures last.submitters == Notified(k + 1, c, b).submitters
  {
  }

  /** The notification reaches the blocked producer. */
  lemma VainNotify(k: nat, c: nat, b: nat) returns (q: Pool<int>)
    requires k < c
    ensures q == SetSubmitter(SetSubmitter(Notified(k, c, b), c, SlowWoken(c, 0)), k, Returned(k, true, 0))
    ensures Exec(Notified(k, c, b), [SubmitStep(k, None)] + [SubmitStep(k, None)] + [SubmitStep(k, Some(c))]) == q
  {
    var p := Notified(k, c, b);
    var p1 := SetSubmitter(p, k, NotifyLock(k, 0));
    var p2 := SetSubmitter(SetWorker(p1, 0, SleepingWorker(c).(lock := BySubmitter(k))), k, NotifyHold(k, 0));
    q := SetSubmitter(SetSubmitter(Notified(k, c, b), c, SlowWoken(c, 0)), k, Returned(k, true, 0));
    Exec1(p, SubmitStep(k, None));
    LockToNotify(p, k, c);
    ExecSnoc(p, [SubmitStep(k, None)], SubmitStep(k, None));
    ExecSnoc(p, [SubmitStep(k, None)] + [SubmitStep(k, None)], SubmitStep(k, Some(c)));
    NotifyWrongOne(p, k, c);
  }

  lemma LockToNotify(p: Pool<int>, k: nat, c: nat)
    requires p.workers == [SleepingWorker(c)] && SubmitterOf(p, k) == CheckWaiting(k, 0)
    ensures var p1 := SetSubmitter(p, k, NotifyLock(k, 0));
            && Next(p, SubmitStep(k, None)) == p1
            && Next(p1, SubmitStep(k, None))
            == SetSubmitter(SetWorker(p1, 0, SleepingWorker(c).(lock := BySubmitter(k))), k, NotifyHold(k, 0))
  {
  }

  lemma NotifyWrongOne(p: Pool<int>, k: nat, c: nat)
    requires p.workers == [SleepingWorker(c)] && k != c && SubmitterOf(p, c) == SlowAsleep(c, 0)
    ensures var p1 := SetSubmitter(p, k, NotifyLock(k, 0));
            var p2 := SetSubmitter(SetWorker(p1, 0, SleepingWorker(c).(lock := BySubmitter(k))), k, NotifyHold(k, 0));
            Next(p2, SubmitStep(k, Some(c)))
            == SetSubmitter(SetSubmitter(p, c, SlowWoken(c, 0)), k, Returned(k, true, 0))
  {
    var p1 := SetSubmitter(p, k, NotifyLock(k, 0));
    var p2 := SetSubmitter(SetWorker(p1, 0, SleepingWorker(c).(lock := BySubmitter(k))), k, NotifyHold(k, 0));
    var p3 := NotifyOne(p2, 0, Some(c));
    assert p3 == SetSubmitter(p2, c, SlowWoken(c, 0));
    assert Unlock(p3, 0).workers == p.workers;
  }

  lemma VainAfter(p: Pool<int>, run: seq<Action<int>>, k: nat, c: nat, b: nat)
    requires k < c && Exec(p, run) == Notified(k, c, b)
    ensures Exec(p, run + NotifyTheOther(k, c)) == Notified(k + 1, c, b)
  {
    ExecAppend(p, run, NotifyTheOther(k, c));
    VainStep(k, c, b);
  }

  lemma {:induction false} AllInVain(p: Pool<int>, run: seq<Action<int>>, k: nat, c: nat, b: nat)
    requires k <= c && Exec(p, run) == Notified(0, c, b)
    ensures Exec(p, run + NotifyAllInVain(k, c)) == Notified(k, c, b)
    decreases k
  {
    if k == 0 {
      assert run + NotifyAllInVain(0, c) == run;
    } else {
      AllInVain(p, run, k - 1, c, b);
      assert run + NotifyAllInVain(k, c) == run + NotifyAllInVain(k - 1, c) + NotifyTheOther(k - 1, c);
      VainAfter(p, run + NotifyAllInVain(k - 1, c), k - 1, c, b);
    }
  }

  /** With the blocking path in use a wakeup can be lost, whatever the capacity: every notify_one meant for the worker
      is spent on the producer waiting for room.  In the final state the worker sleeps over a full, visible queue,
      every fast submitter has returned, nobody is left to notify, and no step of any of these threads changes
      anything. */
  lemma WakeupLostToBlockedProducer(c: nat, b: nat)
    requires c >= 1
    ensures var p := Exec(Init<int>(1, c, b), LostRun(c));
            && p == Notified(c, c, b)
            && p.workers[0].pc.Asleep? && |p.workers[0].queue| == c && HeadPublished(p.workers[0].queue)
            && (forall s: nat :: !Committed(SubmitterOf(p, s), 0))
            && (forall s: nat, wake: Option<nat> :: SubmitterNext(p, s, wake) == p)
            && WorkerNext(p, 0) == p
  {
    LostRunEnds(c, b);
    NobodyMoves(c, b);
  }

  lemma LostRunEnds(c: nat, b: nat)
    ensures Exec(Init<int>(1, c, b), LostRun(c)) == Notified(c, c, b)
  {
    var p := Init<int>(1, c, b);
    SleepFirst(c, b);
    FillQueue(p, FallAsleep(), c, c, b);
    BlockAfter(p, FallAsleep() + PushAll(c), c, b);
    AllInVain(p, FallAsleep() + PushAll(c) + BlockOne(c), c, c, b);
  }

  lemma BlockAfter(p: Pool<int>, run: seq<Action<int>>, c: nat, b: nat)
    requires Exec(p, run) == Pushed(c, c, b)
    ensures Exec(p, run + BlockOne(c)) == Notified(0, c, b)
  {
    ExecAppend(p, run, BlockOne(c));
    BlockStep(c, b);
  }

  lemma NobodyMoves(c: nat, b: nat)
    requires c >= 1
    ensures var p := Notified(c, c, b);
            && (forall s: nat :: !Committed(SubmitterOf(p, s), 0))
            && (forall s: nat, wake: Option<nat> :: SubmitterNext(p, s, wake) == p)
            && WorkerNext(p, 0) == p
            && p.workers[0].pc.Asleep? && |p.workers[0].queue| == c && HeadPublished(p.workers[0].queue)
  {
    var p := Notified(c, c, b);
    forall s: nat
      ensures SubmitterOf(p, s).Out? || SubmitterOf(p, s).Returned? || SubmitterOf(p, s).SlowAsleep?
    {
    }
  }

  // ---------------------------------------------------------------------------------------
  // An accepted task that never runs
  // ---------------------------------------------------------------------------------------

  function SubmitSteps(s: nat, n: nat): seq<Action<int>> { Repeat(SubmitStep(s, None), n) }

  /** The worker looks, a whole submission follows, then `Stop` raises the flag and the worker reads it. */
  function StrandRun(s: nat, task: int, k: nat): seq<Action<int>>
  {
    [Work(0)] + ([Submit(s, task, 0)] + SubmitSteps(s, 4)) + [StopStep(k)] + [StopStep(k)] + [Work(0)]
  }

  /** As above, but the ticket is published only after the worker has exited. */
  function LateRun(s: nat, task: int, k: nat): seq<Action<int>>
  {
    [Work(0)] + ([Submit(s, task, 0)] + SubmitSteps(s, 1)) + [StopStep(k)] + [StopStep(k)] + [Work(0)]
    + SubmitSteps(s, 3)
  }

  /** `s` has got through the first n steps of its submission to the only worker, which has found its queue empty. */
  function Halfway(s: nat, task: int, n: nat, c: nat, b: nat): Pool<int>
  {
    var d := FreshWorker<int>().(pc := CheckStop);
    var p := Pool([if n == 0 then d else Claim(d, task, s)], map[], map[], true, false, None, c, b);
    if n == 0 then SetSubmitter(p, s, Trying(task, 0, [], 0))
    else if n == 1 then SetSubmitter(p, s, Claimed(task, 0))
    else
      SetSubmitter(SetWorker(p, 0, Publish(p.workers[0], s)), s,
                   if n == 2 then Counting(task, 0)
                   else if n == 3 then CheckWaiting(task, 0) else Returned(task, true, 0))
  }

  lemma {:induction false} Submits(s: nat, task: int, n: nat, c: nat, b: nat)
    requires c >= 1 && n <= 4
    ensures Exec(Halfway(s, task, 0, c, b), SubmitSteps(s, n)) == Halfway(s, task, n, c, b)
    decreases n
  {
    if n > 0 {
      Submits(s, task, n - 1, c, b);
      assert SubmitSteps(s, n) == SubmitSteps(s, n - 1) + [SubmitStep(s, None)];
      ExecSnoc(Halfway(s, task, 0, c, b), SubmitSteps(s, n - 1), SubmitStep(s, None));
      OneSubmitStep(s, task, n - 1, c, b);
    }
  }

  lemma OneSubmitStep(s: nat, task: int, n: nat, c: nat, b: nat)
    requires c >= 1 && n < 4
    ensures Next(Halfway(s, task, n, c, b), SubmitStep(s, None)) == Halfway(s, task, n + 1, c, b)
  {
    var p := Halfway(s, task, n, c, b);
    if n == 0 { NextClaim(p, s, task); }
    else if n == 1 { NextPublish(p, s, task); }
    else if n == 2 { NextCount(p, s, task); }
  }

  lemma Started(s: nat, task: int, c: nat, b: nat)
    ensures Exec(Init<int>(1, c, b), [Work(0)] + [Submit(s, task, 0)]) == Halfway(s, task, 0, c, b)
  {
    var p, d := Init<int>(1, c, b), FreshWorker<int>();
    assert p.workers == [d] && Shown(d) == [];
    Exec1(p, Work(0));
    assert Next(p, Work(0)) == SetWorker(p, 0, d.(pc := CheckStop));
    ExecSnoc(p, [Work(0)], Submit(s, task, 0));
  }

  /** After n steps of the submission `Stop` raises the flag, and the worker, on its way to sleep, reads it and
      exits. */
  lemma Shutdown(s: nat, task: int, n: nat, k: nat, c: nat, b: nat)
    requires c >= 1 && n <= 4
    ensures var p := Halfway(s, task, n, c, b);
            var q := Exec(p, [StopStep(k)] + [StopStep(k)] + [Work(0)]);
            && q.workers == [p.workers[0].(pc := Exited)] && q.submitters == p.submitters && q.capacity == c
  {
    var p := Halfway(s, task, n, c, b);
    Exec1(p, StopStep(k));
    var p1 := Next(p, StopStep(k));
    assert StopperOf(p1, k) == StopFlag(true);
    ExecSnoc(p, [StopStep(k)], StopStep(k));
    var p2 := Next(p1, StopStep(k));
    assert p2.stop && p2.workers == p.workers && p2.submitters == p.submitters;
    ExecSnoc(p, [StopStep(k)] + [StopStep(k)], Work(0));
  }

  lemma Prologue(s: nat, task: int, n: nat, k: nat, c: nat, b: nat)
    requires c >= 1 && n <= 4
    ensures var run :=
              [Work(0)] + ([Submit(s, task, 0)] + SubmitSteps(s, n)) + [StopStep(k)] + [StopStep(k)] + [Work(0)];
            var p, q := Halfway(s, task, n, c, b), Exec(Init<int>(1, c, b), run);
            && q.workers == [p.workers[0].(pc := Exited)] && q.submitters == p.submitters && q.capacity == c
  {
    var start := Init<int>(1, c, b);
    var first := [Work(0)] + [Submit(s, task, 0)];
    var last: seq<Action<int>> := [StopStep(k)] + [StopStep(k)] + [Work(0)];
    Started(s, task, c, b);
    Submits(s, task, n, c, b);
    ExecAppend(start, first, SubmitSteps(s, n));
    ExecAppend(start, first + SubmitSteps(s, n), last);
    Shutdown(s, task, n, k, c, b);
    assert [Work(0)] + ([Submit(s, task, 0)] + SubmitSteps(s, n)) + [StopStep(k)] + [StopStep(k)] + [Work(0)]
        == first + SubmitSteps(s, n) + last;
  }

  /** What both runs end with: the call has returned true, and its task sits visible in the queue of a worker that has
      exited. */
  predicate Stranded(p: Pool<int>, s: nat, task: int)
  {
    && SubmitterOf(p, s) == Returned(task, true, 0)
    && |p.workers| == 1 && p.workers[0].pc.Exited? && HeadPublished(p.workers[0].queue)
    && p.workers[0].executed == [] && p.workers[0].batch == [] && Tickets(p.workers[0].queue) == [Ticket(task, s)]
  }

  /** `Submit` returns true before `Stop` is even called, and yet the task is never executed, whatever happens later:
      the worker had found its queue empty just before the push and reads the stop flag just after it. */
  lemma AcceptedTaskStranded(s: nat, task: int, k: nat, c: nat, b: nat, more: seq<Action<int>>)
    requires c >= 1
    ensures Stranded(Exec(Init<int>(1, c, b), StrandRun(s, task, k)), s, task)
    ensures var q := Exec(Exec(Init<int>(1, c, b), StrandRun(s, task, k)), more);
            |q.workers| > 0 && q.workers[0].executed == []
  {
    Prologue(s, task, 4, k, c, b);
    var p := Exec(Init<int>(1, c, b), StrandRun(s, task, k));
    assert p.workers[0].queue == [Entry(task, s, true)];
    ExitIsFinal(p, more, 0);
  }

  /** A call that had claimed its ticket before `Stop` publishes it after the worker has exited and returns true. */
  lemma AcceptedAfterExit(s: nat, task: int, k: nat, c: nat, b: nat, more: seq<Action<int>>)
    requires c >= 1
    ensures Stranded(Exec(Init<int>(1, c, b), LateRun(s, task, k)), s, task)
    ensures var q := Exec(Exec(Init<int>(1, c, b), LateRun(s, task, k)), more);
            |q.workers| > 0 && q.workers[0].executed == []
  {
    Prologue(s, task, 1, k, c, b);
    var start := Init<int>(1, c, b);
    var early := [Work(0)] + ([Submit(s, task, 0)] + SubmitSteps(s, 1)) + [StopStep(k)] + [StopStep(k)] + [Work(0)];
    ExecAppend(start, early, SubmitSteps(s, 3));
    Finishes(Exec(start, early), s, task);
    ExitIsFinal(Exec(start, LateRun(s, task, k)), more, 0);
  }

  lemma Finishes(p: Pool<int>, s: nat, task: int)
    requires p.workers == [Claim(FreshWorker<int>().(pc := CheckStop), task, s).(pc := Exited)]
    requires SubmitterOf(p, s) == Claimed(task, 0)
    ensures Stranded(Exec(p, SubmitSteps(s, 3)), s, task)
  {
    var a: Action<int> := SubmitStep(s, None);
    assert SubmitSteps(s, 3) == [a] + [a] + [a];
    Exec1(p, a);
    NextPublish(p, s, task);
    var p1 := SetSubmitter(SetWorker(p, 0, Publish(p.workers[0], s)), s, Counting(task, 0));
    ExecSnoc(p, [a], a);
    NextCount(p1, s, task);
    ExecSnoc(p, [a] + [a], a);
    PublishedOnly(task, s);
    LastStep(SetSubmitter(p1, s, CheckWaiting(task, 0)), s, task);
  }

  lemma PublishedOnly(task: int, s: nat)
    ensures var d := Claim(FreshWorker<int>().(pc := CheckStop), task, s).(pc := Exited);
            Publish(d, s) == Worker([Entry(task, s, true)], Exited, false, Free, [], [], [Ticket(task, s)], [])
  {
    var d := Claim(FreshWorker<int>().(pc := CheckStop), task, s);
    assert d.queue == [Entry(task, s, false)] && d.history == [Ticket(task, s)];
    assert PublishBy(d.queue, s) == [Entry(task, s, true)];
  }

  lemma LastStep(p: Pool<int>, s: nat, task: int)
    requires p.workers == [Worker([Entry(task, s, true)], Exited, false, Free, [], [], [Ticket(task, s)], [])]
    requires SubmitterOf(p, s) == CheckWaiting(task, 0)
    ensures Stranded(Next(p, SubmitStep(s, None)), s, task)
  {
    assert Next(p, SubmitStep(s, None)) == SetSubmitter(p, s, Returned(task, true, 0));
  }
}
