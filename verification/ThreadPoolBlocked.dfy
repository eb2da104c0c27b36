/** A producer that is never woken: the worker's notification of those who wait for room is made without the lock, so it
    can come between a producer's failed try and its going to sleep. */
module ThreadPoolBlocked {
  import opened Common
  import opened ThreadPool
  import opened ThreadPoolRuns

  /** One worker, c calls that have returned and perhaps one in the blocking path. */
  function World(d: Worker<int>, k: nat, blocked: Option<Submitter<int>>, c: nat, b: nat): Pool<int>
  {
    var done := map i: nat | i < k :: Returned(i, true, 0);
    Pool([d], if blocked.Some? then done[k := blocked.value] else done, map[], true, false, None, c, b)
  }

  lemma Worked(d: Worker<int>, k: nat, blocked: Option<Submitter<int>>, c: nat, b: nat)
    requires !d.pc.NotifyProducers?
    ensures Next(World(d, k, blocked, c, b), Work(0)) == World(Advance(d, false, b), k, blocked, c, b)
  {
    assert [d][0 := Advance(d, false, b)] == [Advance(d, false, b)];
  }

  // ---------------------------------------------------------------------------------------
  // Filling the queue
  // ---------------------------------------------------------------------------------------

  /** A worker that has not begun, with k tickets in its queue. */
  function Idle(k: nat): Worker<int> { Worker(Queued(k), Popping, false, Free, [], [], Numbers(k), []) }

  function SubmitOne(k: nat): seq<Action<int>> { PushOne(k) + [SubmitStep(k, None)] }

  function SubmitAll(k: nat): seq<Action<int>>
  {
    if k == 0 then [] else SubmitAll(k - 1) + SubmitOne(k - 1)
  }

  lemma Submitted(k: nat, c: nat, b: nat)
    requires k < c
    ensures Exec(World(Idle(k), k, None, c, b), SubmitOne(k)) == World(Idle(k + 1), k + 1, None, c, b)
  {
    var p := World(Idle(k), k, None, c, b);
    SubmitAccepted(p, k, k);
    ExecSnoc(p, PushOne(k), SubmitStep(k, None));
    AcceptedAs(k, c, b);
    ReturnsAs(k, c, b);
  }

  lemma AcceptedAs(k: nat, c: nat, b: nat)
    ensures var p := Accepted(World(Idle(k), k, None, c, b), k, k);
            p.workers == [Idle(k + 1)] && p == World(Idle(k + 1), k, Some(CheckWaiting(k, 0)), c, b)
  {
    var d := Claim(Idle(k), k, k);
    assert Publish(d, k).queue == Queued(k + 1);
    assert d.history == Numbers(k + 1);
  }

  lemma ReturnsAs(k: nat, c: nat, b: nat)
    ensures Next(World(Idle(k + 1), k, Some(CheckWaiting(k, 0)), c, b), SubmitStep(k, None))
         == World(Idle(k + 1), k + 1, None, c, b)
  {
    var p := World(Idle(k + 1), k, Some(CheckWaiting(k, 0)), c, b);
    assert Next(p, SubmitStep(k, None)) == SetSubmitter(p, k, Returned(k, true, 0));
    assert p.submitters[k := Returned(k, true, 0)] == World(Idle(k + 1), k + 1, None, c, b).submitters;
  }

  lemma {:induction false} Filled(k: nat, c: nat, b: nat)
    requires k <= c
    ensures Exec(Init<int>(1, c, b), SubmitAll(k)) == World(Idle(k), k, None, c, b)
  {
    if k == 0 {
      assert Queued(0) == [] && Numbers(0) == [];
      assert Init<int>(1, c, b).workers == [Idle(0)];
      assert Init<int>(1, c, b).submitters == World(Idle(0), 0, None, c, b).submitters;
    } else {
      Filled(k - 1, c, b);
      FilledMore(Init<int>(1, c, b), SubmitAll(k - 1), k - 1, c, b);
    }
  }

  lemma FilledMore(start: Pool<int>, run: seq<Action<int>>, k: nat, c: nat, b: nat)
    requires k < c && Exec(start, run) == World(Idle(k), k, None, c, b)
    ensures Exec(start, run + SubmitOne(k)) == World(Idle(k + 1), k + 1, None, c, b)
  {
    ExecAppend(start, run, SubmitOne(k));
    Submitted(k, c, b);
  }

  // ---------------------------------------------------------------------------------------
  // A producer on its way to sleep
  // ---------------------------------------------------------------------------------------

  function BlockRun(c: nat): seq<Action<int>> { [Submit(c, c, 0)] + SubmitSteps(c, 4) }

  /** After the n-th step of the call: all queues are full, so it takes the lock, tries once more, and is about to
      sleep. */
  function Blocking(n: nat, c: nat, b: nat): Pool<int>
    requires n <= 4
  {
    var d := if n < 2 then Idle(c) else Idle(c).(lock := BySubmitter(c));
    var x := [Trying(c, 0, [], 0), SlowLock(c, 0, [0]), SlowTry(c, 0), SlowCheck(c, 0), SlowGoSleep(c, 0)][n];
    World(d, c, Some(x), c, b)
  }

  lemma BlockingStep(n: nat, c: nat, b: nat)
    requires n < 4
    ensures Next(Blocking(n, c, b), SubmitStep(c, None)) == Blocking(n + 1, c, b)
  {
    var p := Blocking(n, c, b);
    assert p.workers[0].queue == Queued(c) && |Queued(c)| == c;
    assert [] + [0] == [0];
    assert SubmitterOf(p, c) == p.submitters[c];
    var q := Next(p, SubmitStep(c, None));
    assert q.submitters == Blocking(n + 1, c, b).submitters;
    assert q.workers == Blocking(n + 1, c, b).workers;
  }

  lemma {:induction false} Blocks(n: nat, c: nat, b: nat)
    requires n <= 4
    ensures Exec(Blocking(0, c, b), SubmitSteps(c, n)) == Blocking(n, c, b)
  {
    if n > 0 {
      Blocks(n - 1, c, b);
      assert SubmitSteps(c, n) == SubmitSteps(c, n - 1) + [SubmitStep(c, None)];
      ExecSnoc(Blocking(0, c, b), SubmitSteps(c, n - 1), SubmitStep(c, None));
      BlockingStep(n - 1, c, b);
    }
  }

  lemma Blocked(c: nat, b: nat)
    ensures Exec(World(Idle(c), c, None, c, b), BlockRun(c)) == Blocking(4, c, b)
  {
    var p := World(Idle(c), c, None, c, b);
    NextSubmit(p, c, c);
    Exec1(p, Submit(c, c, 0));
    ExecAppend(p, [Submit(c, c, 0)], SubmitSteps(c, 4));
    Blocks(4, c, b);
  }

  // ---------------------------------------------------------------------------------------
  // The worker empties its queue meanwhile, batch by batch
  // ---------------------------------------------------------------------------------------

  /** The worker has executed j tasks and popped i more. */
  function Draining(j: nat, i: nat, c: nat, look: seq<Ticket<int>>): Worker<int>
    requires j + i <= c
  {
    Worker(Queued(c)[j + i..], Popping, false, BySubmitter(c), Numbers(c)[j..j + i], Numbers(c)[..j], Numbers(c), look)
  }

  /** The worker has executed the first j tasks, of which the last i are from a batch of m. */
  function Executing(j: nat, i: nat, m: nat, c: nat, look: seq<Ticket<int>>): Worker<int>
    requires i <= m && j + m <= c
  {
    Worker(Queued(c)[j + m..], Running, false, BySubmitter(c), Numbers(c)[j + i..j + m], Numbers(c)[..j + i],
           Numbers(c), look)
  }

  /** With the producer about to sleep. */
  function Waiting(d: Worker<int>, c: nat, b: nat): Pool<int> { World(d, c, Some(SlowGoSleep(c, 0)), c, b) }

  lemma Pops(j: nat, i: nat, c: nat, b: nat, look: seq<Ticket<int>>) returns (seen: seq<Ticket<int>>)
    requires j + i < c && i < b
    ensures Advance(Draining(j, i, c, look), false, b) == Draining(j, i + 1, c, seen)
  {
    var d := Draining(j, i, c, look);
    seen := Shown(d);
    assert d.queue[0] == Entry(j + i, j + i, true) && d.queue[1..] == Queued(c)[j + i + 1..];
    assert |d.batch| == i && d.batch + [Ticket(j + i, j + i)] == Numbers(c)[j..j + i + 1];
  }

  lemma {:induction false} PopsAll(j: nat, i: nat, c: nat, b: nat, look: seq<Ticket<int>>)
    returns (seen: seq<Ticket<int>>)
    requires j + i <= c && i <= b
    ensures Exec(Waiting(Draining(j, 0, c, look), c, b), Repeat(Work(0), i)) == Waiting(Draining(j, i, c, seen), c, b)
    decreases i
  {
    seen := look;
    if i > 0 {
      var before := PopsAll(j, i - 1, c, b, look);
      assert Repeat<int>(Work(0), i) == Repeat<int>(Work(0), i - 1) + [Work(0)];
      ExecSnoc(Waiting(Draining(j, 0, c, look), c, b), Repeat(Work(0), i - 1), Work(0));
      Worked(Draining(j, i - 1, c, before), c, Some(SlowGoSleep(c, 0)), c, b);
      seen := Pops(j, i - 1, c, b, before);
    }
  }

  /** The notification finds nobody asleep: the producer is still about to go to sleep. */
  lemma NotifiesNobody(j: nat, m: nat, c: nat, b: nat, look: seq<Ticket<int>>) returns (seen: seq<Ticket<int>>)
    requires 1 <= m <= b && j + m <= c && (m == b || j + m == c)
    ensures var p := Waiting(Draining(j, m, c, look), c, b);
            Next(Next(p, Work(0)), Work(0)) == Waiting(Executing(j, 0, m, c, seen), c, b)
  {
    var x := Some(SlowGoSleep(c, 0));
    var d := Draining(j, m, c, look);
    assert |d.batch| == m && (d.queue == [] || m == b);
    var e := Advance(d, false, b);
    seen := e.look;
    Worked(d, c, x, c, b);
    assert e == d.(pc := NotifyProducers, look := seen);
    var q := Waiting(e, c, b);
    assert NotifyAll(q, 0).submitters == q.submitters;
    assert Next(q, Work(0)).workers == [Advance(e, false, b)];
    assert Advance(e, false, b) == Executing(j, 0, m, c, seen);
  }

  lemma {:induction false} Executes(j: nat, i: nat, m: nat, c: nat, b: nat, look: seq<Ticket<int>>)
    requires i <= m && j + m <= c
    ensures Exec(Waiting(Executing(j, 0, m, c, look), c, b), Repeat(Work(0), i))
         == Waiting(Executing(j, i, m, c, look), c, b)
    decreases i
  {
    if i > 0 {
      Executes(j, i - 1, m, c, b, look);
      assert Repeat<int>(Work(0), i) == Repeat<int>(Work(0), i - 1) + [Work(0)];
      ExecSnoc(Waiting(Executing(j, 0, m, c, look), c, b), Repeat(Work(0), i - 1), Work(0));
      ExecutesOne(j, i - 1, m, c, b, look);
    }
  }

  lemma ExecutesOne(j: nat, i: nat, m: nat, c: nat, b: nat, look: seq<Ticket<int>>)
    requires i < m && j + m <= c
    ensures Next(Waiting(Executing(j, i, m, c, look), c, b), Work(0)) == Waiting(Executing(j, i + 1, m, c, look), c, b)
  {
    var d := Executing(j, i, m, c, look);
    Worked(d, c, Some(SlowGoSleep(c, 0)), c, b);
    assert d.batch[1..] == Numbers(c)[j + i + 1..j + m] && d.executed + [d.batch[0]] == Numbers(c)[..j + i + 1];
    assert Advance(d, false, b) == Executing(j, i + 1, m, c, look);
  }

  lemma BatchDone(j: nat, m: nat, c: nat, b: nat, look: seq<Ticket<int>>)
    requires j + m <= c
    ensures Next(Waiting(Executing(j, m, m, c, look), c, b), Work(0)) == Waiting(Draining(j + m, 0, c, look), c, b)
  {
    var d := Executing(j, m, m, c, look);
    Worked(d, c, Some(SlowGoSleep(c, 0)), c, b);
    assert Numbers(c)[j + m..j + m] == [];
    assert Advance(d, false, b) == Draining(j + m, 0, c, look);
  }

  /** One batch of m. */
  function Batch(m: nat): seq<Action<int>>
  {
    Repeat(Work(0), m) + ([Work(0)] + [Work(0)]) + Repeat(Work(0), m) + [Work(0)]
  }

  lemma OneBatch(j: nat, m: nat, c: nat, b: nat, look: seq<Ticket<int>>) returns (seen: seq<Ticket<int>>)
    requires 1 <= m <= b && j + m <= c && (m == b || j + m == c)
    ensures Exec(Waiting(Draining(j, 0, c, look), c, b), Batch(m)) == Waiting(Draining(j + m, 0, c, seen), c, b)
  {
    var p := Waiting(Draining(j, 0, c, look), c, b);
    var r1 := Repeat(Work(0), m);
    var r2 := r1 + ([Work(0)] + [Work(0)]);
    seen := PopsAll(j, m, c, b, look);
    ExecAppend(p, r1, [Work(0)] + [Work(0)]);
    TwoSteps(Exec(p, r1), Work(0), Work(0));
    seen := NotifiesNobody(j, m, c, b, seen);
    ExecAppend(p, r2, Repeat(Work(0), m));
    Executes(j, m, m, c, b, seen);
    ExecSnoc(p, r2 + Repeat(Work(0), m), Work(0));
    BatchDone(j, m, c, b, seen);
  }

  function BatchSize(j: nat, c: nat, b: nat): nat
    requires j <= c
  {
    if c - j <= b then c - j else b
  }

  /** As many batches as it takes. */
  function Batches(j: nat, c: nat, b: nat): seq<Action<int>>
    requires j <= c && b >= 1
    decreases c - j
  {
    if j == c then [] else Batch(BatchSize(j, c, b)) + Batches(j + BatchSize(j, c, b), c, b)
  }

  lemma {:induction false} AllBatches(j: nat, c: nat, b: nat, look: seq<Ticket<int>>) returns (seen: seq<Ticket<int>>)
    requires j <= c && b >= 1
    ensures Exec(Waiting(Draining(j, 0, c, look), c, b), Batches(j, c, b)) == Waiting(Draining(c, 0, c, seen), c, b)
    decreases c - j
  {
    seen := look;
    if j < c {
      seen := FirstBatch(j, c, b, look);
      seen := AllBatches(j + BatchSize(j, c, b), c, b, seen);
    }
  }

  lemma FirstBatch(j: nat, c: nat, b: nat, look: seq<Ticket<int>>) returns (seen: seq<Ticket<int>>)
    requires j < c && b >= 1
    ensures var m := BatchSize(j, c, b);
            Exec(Waiting(Draining(j, 0, c, look), c, b), Batches(j, c, b))
            == Exec(Waiting(Draining(j + m, 0, c, seen), c, b), Batches(j + m, c, b))
  {
    var m := BatchSize(j, c, b);
    seen := OneBatch(j, m, c, b, look);
    ExecAppend(Waiting(Draining(j, 0, c, look), c, b), Batch(m), Batches(j + m, c, b));
  }

  // ---------------------------------------------------------------------------------------
  // Both asleep
  // ---------------------------------------------------------------------------------------

  /** A worker with nothing left, n steps after it has found its queue empty. */
  function Resting(n: nat, c: nat, look: seq<Ticket<int>>): Worker<int>
    requires n <= 9
  {
    var s := Settling(n);
    Worker([], s.pc, s.waiting, s.lock, [], Numbers(c), Numbers(c), look)
  }

  lemma Rests(n: nat, c: nat, b: nat, look: seq<Ticket<int>>) returns (seen: seq<Ticket<int>>)
    requires n < 9
    ensures Advance(Resting(n, c, look), false, b) == Resting(n + 1, c, seen)
  {
    seen := Advance(Resting(n, c, look), false, b).look;
  }

  lemma {:induction false} RestsAll(n: nat, c: nat, b: nat, look: seq<Ticket<int>>) returns (seen: seq<Ticket<int>>)
    requires n <= 9
    ensures var x := Some(SlowAsleep(c, 0));
            Exec(World(Resting(0, c, look), c, x, c, b), Repeat(Work(0), n)) == World(Resting(n, c, seen), c, x, c, b)
    decreases n
  {
    var x := Some(SlowAsleep(c, 0));
    seen := look;
    if n > 0 {
      var before := RestsAll(n - 1, c, b, look);
      assert Repeat<int>(Work(0), n) == Repeat<int>(Work(0), n - 1) + [Work(0)];
      ExecSnoc(World(Resting(0, c, look), c, x, c, b), Repeat(Work(0), n - 1), Work(0));
      Worked(Resting(n - 1, c, before), c, x, c, b);
      seen := Rests(n - 1, c, b, before);
    }
  }

  /** Only now does the producer go to sleep. */
  lemma FallsAsleep(c: nat, b: nat, look: seq<Ticket<int>>)
    ensures Next(Waiting(Draining(c, 0, c, look), c, b), SubmitStep(c, None))
         == World(Resting(0, c, look), c, Some(SlowAsleep(c, 0)), c, b)
  {
    assert Numbers(c)[c..c] == [] && Numbers(c)[..c] == Numbers(c) && Queued(c)[c..] == [];
    var r := Next(Waiting(Draining(c, 0, c, look), c, b), SubmitStep(c, None));
    assert r.submitters == World(Resting(0, c, look), c, Some(SlowAsleep(c, 0)), c, b).submitters;
    assert r.workers == [Resting(0, c, look)];
  }

  function ForgottenRun(c: nat, b: nat): seq<Action<int>>
    requires b >= 1
  {
    SubmitAll(c) + BlockRun(c) + Batches(0, c, b) + [SubmitStep(c, None)] + Repeat(Work(0), 9)
  }

  lemma TwoSteps(p: Pool<int>, a: Action<int>, b: Action<int>)
    ensures Exec(p, [a] + [b]) == Next(Next(p, a), b)
  {
    Exec1(p, a);
    ExecSnoc(p, [a], b);
  }

  lemma ForgottenRunEnds(c: nat, b: nat) returns (look: seq<Ticket<int>>)
    requires b >= 1
    ensures Exec(Init<int>(1, c, b), ForgottenRun(c, b)) == World(Resting(9, c, look), c, Some(SlowAsleep(c, 0)), c, b)
  {
    var start := Init<int>(1, c, b);
    var r1 := SubmitAll(c) + BlockRun(c);
    Filled(c, c, b);
    ExecAppend(start, SubmitAll(c), BlockRun(c));
    Blocked(c, b);
    assert Queued(c)[0..] == Queued(c) && Numbers(c)[..0] == [] && Numbers(c)[0..0] == [];
    assert Blocking(4, c, b) == Waiting(Draining(0, 0, c, []), c, b);
    ExecAppend(start, r1, Batches(0, c, b));
    look := AllBatches(0, c, b, []);
    look := Afterwards(start, r1 + Batches(0, c, b), c, b, look);
  }

  lemma Afterwards(start: Pool<int>, run: seq<Action<int>>, c: nat, b: nat, look: seq<Ticket<int>>)
    returns (seen: seq<Ticket<int>>)
    requires Exec(start, run) == Waiting(Draining(c, 0, c, look), c, b)
    ensures Exec(start, run + [SubmitStep(c, None)] + Repeat(Work(0), 9))
         == World(Resting(9, c, seen), c, Some(SlowAsleep(c, 0)), c, b)
  {
    ExecSnoc(start, run, SubmitStep(c, None));
    FallsAsleep(c, b, look);
    ExecAppend(start, run + [SubmitStep(c, None)], Repeat(Work(0), 9));
    seen := RestsAll(9, c, b, look);
  }

  /** A producer can be forgotten, whatever the capacity and the batch size: in the final state it sleeps for room while
      the queue is empty and the pool accepts, the worker sleeps too, everybody else has returned, and no step of any of
      these threads changes anything. */
  lemma BlockedProducerForgotten(c: nat, b: nat)
    requires c >= 1 && b >= 1
    ensures var p := Exec(Init<int>(1, c, b), ForgottenRun(c, b));
            && SubmitterOf(p, c) == SlowAsleep(c, 0) && p.accepting && |p.workers| == 1
            && p.workers[0].queue == [] && p.workers[0].pc.Asleep? && p.workers[0].executed == Numbers(c)
            && (forall s: nat, wake: Option<nat> :: SubmitterNext(p, s, wake) == p)
            && WorkerNext(p, 0) == p
  {
    var look := ForgottenRunEnds(c, b);
    NobodyLeft(c, b, look);
  }

  lemma NobodyLeft(c: nat, b: nat, look: seq<Ticket<int>>)
    ensures var p := World(Resting(9, c, look), c, Some(SlowAsleep(c, 0)), c, b);
            (forall s: nat, wake: Option<nat> :: SubmitterNext(p, s, wake) == p) && WorkerNext(p, 0) == p
  {
    var p := World(Resting(9, c, look), c, Some(SlowAsleep(c, 0)), c, b);
    forall s: nat
      ensures SubmitterOf(p, s).Out? || SubmitterOf(p, s).Returned? || SubmitterOf(p, s).SlowAsleep?
    {
    }
  }
}
