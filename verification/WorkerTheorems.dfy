/** The properties of a worker, for every run of its own steps interleaved with those of other threads. */
module WorkerTheorems {
  import opened Common
  import opened Framing
  import opened Rpc
  import opened Connection
  import opened ConnectionProofs
  import opened ConnectionAnswers
  import opened WorkerLoop
  import opened WorkerProofs

  ghost function RunFromStart(world: World, actions: seq<Action>): Worker
  {
    InitOk(world);
    Run(Init, world, actions)
  }

  lemma EveryRun(world: World, actions: seq<Action>)
    ensures Inv(RunFromStart(world, actions), world)
  {
    InitOk(world);
    RunOk(Init, world, actions);
  }

  /** No response is stranded: writability is watched exactly while something is queued, and a connection that is not
      closing then has its coroutine suspended on writability with a write deadline. */
  lemma NoResponseStranded(world: World, actions: seq<Action>, fd: int)
    requires fd in RunFromStart(world, actions).connections
    ensures var w := RunFromStart(world, actions); var c := w.connections[fd].conn;
            && fd in w.armed && (w.armed[fd] <==> c.io.chunks != [])
            && (c.io.chunks != [] && !c.shouldClose ==> c.pc == AtWrite && c.writeWaiter && c.io.writeDeadline.Some?)
  {
    EveryRun(world, actions);
    var w := RunFromStart(world, actions);
    assert LiveOk(w, world, Healthy(world), fd, {});
  }

  /** The counters agree with each other and with where the jobs are; the guard before the decrement never fails. */
  lemma AccountsBalance(world: World, actions: seq<Action>)
    ensures var w := RunFromStart(world, actions);
            && w.counters.submitted == w.counters.inFlight + w.counters.completed
            && w.counters.inFlight == |w.tasks| + |w.completed| + |w.draining| + |w.lost|
            && (w.draining != [] ==> w.counters.inFlight > 0)
  {
    EveryRun(world, actions);
  }

  /** The connection with a token, open or closed. */
  ghost predicate HasToken(w: Worker, t: nat, c: Conn)
  {
    || (exists fd :: fd in w.connections && w.connections[fd] == Entry(c, t))
    || (t in w.past && w.past[t] == c)
  }

  lemma TokenFacts(w: Worker, world: World, t: nat, c: Conn)
    requires Inv(w, world) && HasToken(w, t, c)
    ensures TokenOk(w.issued, w.handled, world(t), Healthy(world), t, c, false)
  {
    if t in w.past && w.past[t] == c {
      assert PastOk(w, world, Healthy(world), t);
    } else {
      var fd :| fd in w.connections && w.connections[fd] == Entry(c, t);
      assert LiveOk(w, world, Healthy(world), fd, {});
    }
  }

  // ---------------------------------------------------------------------------------------
  // Each job is submitted and handled once
  // ---------------------------------------------------------------------------------------

  lemma {:induction false} InByToken(jobs: seq<Job>, j: Job)
    requires j in jobs
    ensures Dispatch(j.sequence, j.request) in ByToken(jobs, j.token)
  {
    if j != jobs[|jobs| - 1] { InByToken(jobs[..|jobs| - 1], j); }
  }

  lemma {:induction false} KeysDiffer(jobs: seq<Job>, t: nat, last: int, i: nat, k: nat)
    requires Numbered(ByToken(jobs, t), last) && i < k < |jobs| && jobs[i].token == t && jobs[k].token == t
    ensures jobs[i].sequence != jobs[k].sequence
  {
    var before, j := jobs[..|jobs| - 1], jobs[|jobs| - 1];
    ByTokenSnoc(before, j, t);
    assert jobs == before + [j];
    var ds := ByToken(before, t);
    if k < |jobs| - 1 {
      if j.token == t {
        assert (ds + [Dispatch(j.sequence, j.request)])[..|ds|] == ds;
        KeysDiffer(before, t, j.sequence - 1, i, k);
      } else {
        KeysDiffer(before, t, last, i, k);
      }
    } else {
      assert (ds + [Dispatch(j.sequence, j.request)])[..|ds|] == ds;
      InByToken(before, jobs[i]);
      var p :| 0 <= p < |ds| && ds[p] == Dispatch(jobs[i].sequence, jobs[i].request);
      NumberedBelow(ds, j.sequence - 1, p);
    }
  }

  lemma TwiceInMultiset<T>(s: seq<T>, i: nat, k: nat)
    requires i < k < |s| && s[i] == s[k]
    ensures multiset(s)[s[i]] >= 2
  {
    var x := s[i];
    assert s == s[..k] + [x] + s[k + 1..];
    assert x == s[..k][i];
    assert multiset(s) == multiset(s[..k]) + multiset([x]) + multiset(s[k + 1..]);
    assert multiset(s[..k])[x] >= 1;
  }

  lemma {:induction false} TwoPlaces<T>(s: seq<T>, x: T) returns (i: nat, k: nat)
    requires multiset(s)[x] >= 2
    ensures i < k < |s| && s[i] == x && s[k] == x
  {
    var before, last := s[..|s| - 1], s[|s| - 1];
    assert s == before + [last];
    assert multiset(s) == multiset(before) + multiset([last]);
    if last == x {
      assert multiset(before)[x] >= 1;
      i :| 0 <= i < |before| && before[i] == x;
      k := |s| - 1;
    } else {
      i, k := TwoPlaces(before, x);
    }
  }

  /** Jobs taken from a list in which a connection's sequence numbers do not repeat do not repeat them either. */
  lemma PartKeysDiffer(all: seq<Job>, part: seq<Job>, t: nat, last: int, i: nat, k: nat)
    requires Numbered(ByToken(all, t), last) && multiset(part) <= multiset(all)
    requires i < k < |part| && part[i].token == t && part[k].token == t
    ensures part[i].sequence != part[k].sequence
  {
    var a, b := part[i], part[k];
    if a == b {
      TwiceInMultiset(part, i, k);
      var p, q := TwoPlaces(all, a);
      KeysDiffer(all, t, last, p, q);
    } else {
      var p := Place(all, part, i);
      var q := Place(all, part, k);
      if p < q { KeysDiffer(all, t, last, p, q); } else { KeysDiffer(all, t, last, q, p); }
    }
  }

  lemma Place<T>(all: seq<T>, part: seq<T>, i: nat) returns (p: nat)
    requires multiset(part) <= multiset(all) && i < |part|
    ensures p < |all| && all[p] == part[i]
  {
    assert part[i] in multiset(part);
    assert part[i] in multiset(all);
    p :| 0 <= p < |all| && all[p] == part[i];
  }

  /** Two results the owner has dealt with for one connection have different sequence numbers. */
  lemma HandledOnce(w: Worker, world: World, t: nat, c: Conn, i: nat, k: nat)
    requires Inv(w, world) && HasToken(w, t, c)
    requires i < k < |w.handled| && w.handled[i].token == t && w.handled[k].token == t
    ensures w.handled[i].sequence != w.handled[k].sequence
  {
    TokenFacts(w, world, t, c);
    PartKeysDiffer(w.issued, w.handled, t, c.io.sequence, i, k);
  }

  /** The jobs of one connection among those dealt with. */
  function OfToken(jobs: seq<Job>, t: nat): seq<Job>
  {
    if |jobs| == 0 then []
    else
      var last := jobs[|jobs| - 1];
      var before := OfToken(jobs[..|jobs| - 1], t);
      if last.token == t then before + [last] else before
  }

  lemma {:induction false} OfTokenReplies(env: Env, jobs: seq<Job>, t: nat, k: nat)
    requires k < |OfToken(jobs, t)|
    ensures |Replies(env, jobs, t)| == |OfToken(jobs, t)|
    ensures var j := OfToken(jobs, t)[k];
            j.token == t && j in jobs
                && Replies(env, jobs, t)[k] == env.responses.serialise(Serve(env.registry, j.request))
  {
    var before, last := jobs[..|jobs| - 1], jobs[|jobs| - 1];
    if k < |OfToken(before, t)| { OfTokenReplies(env, before, t, k); }
    else { OfTokenLength(env, before, t); }
  }

  lemma {:induction false} OfTokenLength(env: Env, jobs: seq<Job>, t: nat)
    ensures |Replies(env, jobs, t)| == |OfToken(jobs, t)|
  {
    if |jobs| > 0 { OfTokenLength(env, jobs[..|jobs| - 1], t); }
  }

  lemma {:induction false} OfTokenPlace(jobs: seq<Job>, t: nat, i: nat, k: nat) returns (p: nat, q: nat)
    requires i < k < |OfToken(jobs, t)|
    ensures p < q < |jobs| && jobs[p] == OfToken(jobs, t)[i] && jobs[q] == OfToken(jobs, t)[k]
  {
    var before, last := jobs[..|jobs| - 1], jobs[|jobs| - 1];
    if k < |OfToken(before, t)| {
      p, q := OfTokenPlace(before, t, i, k);
    } else {
      q := |jobs| - 1;
      p := OfTokenAt(before, t, i);
    }
  }

  lemma {:induction false} OfTokenAt(jobs: seq<Job>, t: nat, i: nat) returns (p: nat)
    requires i < |OfToken(jobs, t)|
    ensures p < |jobs| && jobs[p] == OfToken(jobs, t)[i]
  {
    var before := jobs[..|jobs| - 1];
    if i < |OfToken(before, t)| { p := OfTokenAt(before, t, i); } else { p := |jobs| - 1; }
  }

  /** Across closes and reuse of descriptors, the k-th pool result queued on a connection is the handler's answer to a
      request that this connection itself dispatched, and no other result queued on it is for the same request. */
  lemma ResultsReachTheirOwner(world: World, actions: seq<Action>, t: nat, c: Conn, k: nat)
    requires HasToken(RunFromStart(world, actions), t, c) && k < |c.io.handed|
    ensures var js := OfToken(RunFromStart(world, actions).handled, t);
            && |c.io.handed| <= |js|
            && c.io.handed[k] == world(t).responses.serialise(Serve(world(t).registry, js[k].request))
            && Dispatch(js[k].sequence, js[k].request) in c.io.dispatched
            && (forall i :: 0 <= i < k ==> js[i].sequence != js[k].sequence)
  {
    EveryRun(world, actions);
    var w := RunFromStart(world, actions);
    var js := OfToken(w.handled, t);
    TokenFacts(w, world, t, c);
    OfTokenLength(world(t), w.handled, t);
    OfTokenReplies(world(t), w.handled, t, k);
    HandledWereIssued(w);
    InByToken(w.issued, js[k]);
    forall i | 0 <= i < k ensures js[i].sequence != js[k].sequence {
      OfTokenReplies(world(t), w.handled, t, i);
      var p, q := OfTokenPlace(w.handled, t, i, k);
      HandledOnce(w, world, t, c, p, q);
    }
  }

  /** A live connection has been given every result dealt with on its behalf. */
  lemma NothingWithheld(world: World, actions: seq<Action>, fd: int)
    requires fd in RunFromStart(world, actions).connections
    ensures var w := RunFromStart(world, actions); var e := w.connections[fd];
            e.conn.io.handed == Replies(world(e.token), w.handled, e.token)
  {
    EveryRun(world, actions);
    var w := RunFromStart(world, actions);
    assert LiveOk(w, world, Healthy(world), fd, {});
  }

  /** Everything a connection ever queues is the answer owed to a request body it took from its own stream. */
  lemma QueuedIsOwed(world: World, actions: seq<Action>, t: nat, c: Conn, k: nat)
    requires HasToken(RunFromStart(world, actions), t, c) && k < |c.io.queued|
    ensures exists j ::
              0 <= j < |c.io.taken| && c.io.queued[k] == world(t).responses.serialise(Answer(world(t), c.io.taken[j]))
  {
    EveryRun(world, actions);
    var w, env, b := RunFromStart(world, actions), world(t), c.io.queued[k];
    TokenFacts(w, world, t, c);
    assert Merged(c.io.queued, Immediate(env, c.io.taken), c.io.handed);
    assert b in multiset(c.io.queued);
    if b in Immediate(env, c.io.taken) {
      ImmediateAnswers(env, c.io.taken, b);
    } else {
      assert b in multiset(c.io.handed);
      var i :| 0 <= i < |c.io.handed| && c.io.handed[i] == b;
      ResultsReachTheirOwner(world, actions, t, c, i);
      var q := OfToken(w.handled, t)[i].request;
      DispatchedWasForwarded(c.io.dispatched, Dispatch(OfToken(w.handled, t)[i].sequence, q));
      ForwardedWasTaken(env, c.io.taken, q);
    }
  }

  /** A timeout alone does not unmap: the connection is finished at once, but it is closed only when epoll next reports
      its descriptor or a result for it cannot be queued. */
  lemma TimeoutLeavesMapped(world: World, actions: seq<Action>, fd: int, now: nat)
    requires fd in RunFromStart(world, actions).connections
    ensures var w := RunFromStart(world, actions); var c := w.connections[fd].conn;
            Sound(w) &&
            var v := TickAll(w, world, now);
            fd in v.connections && v.armed == w.armed
            && (IsFinished(v.connections[fd].conn) <==>
                  c.shouldClose || (c.readDeadline.Some? && now >= c.readDeadline.value)
                  || (c.io.writeDeadline.Some? && now >= c.io.writeDeadline.value))
  {
    EveryRun(world, actions);
    var w := RunFromStart(world, actions);
    InvSound(w, world);
    assert LiveOk(w, world, Healthy(world), fd, {});
    TickOk(w.connections[fd].conn, world(w.connections[fd].token), now);
  }
}
