/** `RpcClientPool::Call`: attempts on one channel after another, and the health record that steers them. */
module Failover {
  import opened Common
  import opened Framing
  import opened Rpc
  import opened ClientCalls

  // ---------------------------------------------------------------------------------------
  // Connection errors
  // ---------------------------------------------------------------------------------------

  predicate OccursAt(text: string, part: string, i: nat) { i + |part| <= |text| && text[i..i + |part|] == part }

  predicate Contains(text: string, part: string) { exists i :: 0 <= i <= |text| && OccursAt(text, part, i) }

  const CONNECTION_ERRORS: seq<string> :=
    ["connect failed", "send request failed", "connection closed", "connection inactive", "dispatcher stopped",
        "call timeout"]

  /** Judged by the message alone. */
  predicate IsConnectionError(r: Result)
  {
    r.code != OK && exists k :: 0 <= k < |CONNECTION_ERRORS| && Contains(r.message, CONNECTION_ERRORS[k])
  }

  const NO_ENDPOINTS: Result := Result(InternalError, "no endpoints configured", [])

  function AllFailed(n: nat): Result
  {
    Result(InternalError, "all channels failed after " + Decimal(n) + " attempts", [])
  }

  /** A text with a character that does not occur in the other cannot be part of it. */
  lemma PartCharacters(text: string, part: string, x: char)
    requires Contains(text, part) && x in part
    ensures x in text
  {
    var i :| 0 <= i <= |text| && OccursAt(text, part, i);
    var j :| 0 <= j < |part| && part[j] == x;
    assert text[i..i + |part|][j] == text[i + j];
  }

  lemma {:induction false} OnlyDigits(n: nat, x: char)
    requires x in Decimal(n)
    ensures '0' <= x <= '9'
  {
    if n >= 10 && x != DigitChar(n % 10) { OnlyDigits(n / 10, x); }
  }

  /** The six phrases. */
  lemma ConnectionErrorsAre(r: Result)
    ensures IsConnectionError(r) <==>
            && r.code != OK
            && (|| Contains(r.message, "connect failed") || Contains(r.message, "send request failed")
                || Contains(r.message, "connection closed") || Contains(r.message, "connection inactive")
                || Contains(r.message, "dispatcher stopped") || Contains(r.message, "call timeout"))
  {
    assert CONNECTION_ERRORS[0] == "connect failed" && CONNECTION_ERRORS[1] == "send request failed";
    assert CONNECTION_ERRORS[2] == "connection closed" && CONNECTION_ERRORS[3] == "connection inactive";
    assert CONNECTION_ERRORS[4] == "dispatcher stopped" && CONNECTION_ERRORS[5] == "call timeout";
  }

  /** The failures a client makes up itself count as connection errors when it could not connect, when the connection
      was closed or inactive, and when the call timed out; */
  lemma OwnFailuresAreRetried()
    ensures IsConnectionError(Failure("connect failed").result)
    ensures IsConnectionError(Failure("connection closed").result)
    ensures IsConnectionError(Failure("connection inactive (heartbeat timeout)").result)
    ensures IsConnectionError(Failure("call timeout").result)
  {
    Opens("connect failed", "");
    Opens("connection closed", "");
    InactiveIsRetried();
    Opens("call timeout", "");
  }

  lemma InactiveIsRetried()
    ensures IsConnectionError(Failure("connection inactive (heartbeat timeout)").result)
  {
    var inactive, why := "connection inactive", " (heartbeat timeout)";
    assert inactive + why == "connection inactive (heartbeat timeout)";
    Opens(inactive, why);
  }

  /** and, whatever the reason, when the request could not be sent or the connection not be read. */
  lemma BrokenConnectionsAreRetried(reason: string)
    ensures IsConnectionError(Failure("send request failed: " + reason).result)
    ensures IsConnectionError(Failure("dispatcher stopped: " + reason).result)
  {
    var sending, stopped := "send request failed", "dispatcher stopped";
    assert "send request failed: " + reason == sending + (": " + reason);
    Opens(sending, ": " + reason);
    assert "dispatcher stopped: " + reason == stopped + (": " + reason);
    Opens(stopped, ": " + reason);
  }

  lemma Opens(part: string, after: string)
    requires part in CONNECTION_ERRORS
    ensures IsConnectionError(Failure(part + after).result)
    ensures after == "" ==> IsConnectionError(Failure(part).result)
  {
    assert "" + part + after == part + after;
    Between("", part, after);
    if after == "" { assert part + after == part; }
  }

  /** But a stream that has become unreadable counts as an answer, though the dispatcher stops there and every call on
      the connection fails with it; so does a dispatcher that could not start. */
  lemma BrokenStreamIsAnAnswer()
    ensures !IsConnectionError(Failed(Unparsable).result)
    ensures !IsConnectionError(Failed(Because("invalid response frame length")).result)
    ensures !IsConnectionError(Failed(Because("event loop init failed")).result)
    ensures !IsConnectionError(Failed(Because("event loop add fd failed")).result)
  {
    UnparsableIsAnAnswer();
    BadLengthIsAnAnswer();
    NoneWithoutC("event loop init failed");
    NoneWithoutC("event loop add fd failed");
  }

  lemma BadLengthIsAnAnswer()
    ensures !IsConnectionError(Failure("invalid response frame length").result)
  {
    NoneWithoutC("invalid response frame length");
  }

  lemma Lacks(text: string, part: string, j: nat)
    requires j < |part| && part[j] !in text
    ensures !Contains(text, part)
  {
    if Contains(text, part) { PartCharacters(text, part, part[j]); }
  }

  /** Five phrases have a letter in common, and the other one has a letter of its own. */
  lemma NoneWithoutC(text: string)
    requires 'c' !in text && 'q' !in text
    ensures !IsConnectionError(Failure(text).result)
  {
    Lacks(text, "connect failed", 0);
    Lacks(text, "send request failed", 7);
    Lacks(text, "connection closed", 0);
    Lacks(text, "connection inactive", 0);
    Lacks(text, "dispatcher stopped", 6);
    Lacks(text, "call timeout", 0);
    ConnectionErrorsAre(Failure(text).result);
  }

  lemma UnparsableIsAnAnswer()
    ensures !IsConnectionError(Failed(Unparsable).result)
  {
    TooLate("connect failed");
    Lacks(BAD_RESPONSE, "send request failed", 7);
    TooLate("connection closed");
    TooLate("connection inactive");
    Lacks(BAD_RESPONSE, "dispatcher stopped", 7);
    TooLate("call timeout");
    ConnectionErrorsAre(Failed(Unparsable).result);
  }

  /** The only c comes too late for anything long to begin there. */
  lemma TooLate(part: string)
    requires |part| >= 12 && part[0] == 'c'
    ensures !Contains(BAD_RESPONSE, part)
  {
    var early := BAD_RESPONSE[..16];
    assert early == "failed to parse " && |BAD_RESPONSE| == 27;
    assert 'c' !in early;
    forall i | 0 <= i <= 27 ensures !OccursAt(BAD_RESPONSE, part, i) {
      if i < 16 && i + |part| <= 27 { assert BAD_RESPONSE[i..i + |part|][0] == BAD_RESPONSE[i] == early[i]; }
    }
  }

  /** The final failure is not taken for a connection error. */
  lemma AllFailedIsFinal(n: nat)
    ensures !IsConnectionError(AllFailed(n))
  {
    var text := AllFailed(n).message;
    assert 'o' !in "all channels failed after " && 'o' !in " attempts";
    assert 'q' !in "all channels failed after " && 'q' !in " attempts";
    if 'o' in text { OnlyDigits(n, 'o'); }
    if 'q' in text { OnlyDigits(n, 'q'); }
    forall k | 0 <= k < |CONNECTION_ERRORS| ensures !Contains(text, CONNECTION_ERRORS[k]) {
      NamesALetter(k);
      if Contains(text, CONNECTION_ERRORS[k])
          { PartCharacters(text, CONNECTION_ERRORS[k], if k == 1 then 'q' else 'o'); }
    }
  }

  lemma NamesALetter(k: nat)
    requires k < |CONNECTION_ERRORS|
    ensures (if k == 1 then 'q' else 'o') in CONNECTION_ERRORS[k]
  {
    assert "connect failed"[1] == 'o' && "send request failed"[7] == 'q' && "connection closed"[1] == 'o';
    assert "connection inactive"[1] == 'o' && "dispatcher stopped"[13] == 'o' && "call timeout"[9] == 'o';
  }

  // ---------------------------------------------------------------------------------------
  // Health
  // ---------------------------------------------------------------------------------------

  datatype Health = Health(healthy: bool, failures: nat)

  /** What happens to a channel: an attempt or a warm-up reaches it, an attempt does not, or a warm-up does not. */
  datatype Contact = Reached | Missed | Shut

  /** What has happened since the channel was last reached. */
  function Recent(history: seq<Contact>): seq<Contact>
  {
    if |history| == 0 || history[|history| - 1] == Reached then []
    else Recent(history[..|history| - 1]) + [history[|history| - 1]]
  }

  /** The record is what the history says: a channel is in service exactly if it was reached last, or has since missed
      fewer attempts than the bound and no warm-up. */
  predicate Recorded(h: Health, history: seq<Contact>, maxFailures: nat)
  {
    && (h.healthy <==> Recent(history) == [] || (Shut !in Recent(history) && |Recent(history)| < maxFailures))
    && (Shut !in Recent(history) ==> h.failures == |Recent(history)|)
  }

  lemma OneMoreContact(h: Health, history: seq<Contact>, contact: Contact, maxFailures: nat)
    requires Recorded(h, history, maxFailures)
    ensures Recorded(match contact
                     case Reached => Health(true, 0)
                     case Missed => Health(if h.failures + 1 >= maxFailures then false else h.healthy, h.failures + 1)
                     case Shut => Health(false, maxFailures),
                     history + [contact], maxFailures)
  {
    assert (history + [contact])[..|history|] == history;
    if contact != Reached { assert Recent(history + [contact])[|Recent(history)|] == contact; }
  }

  /** What channel c replies at the k-th attempt of a call. */
  type Replies = (nat, nat) -> Result

  predicate Fails(replies: Replies, attempts: seq<nat>, k: nat)
    requires k < |attempts|
  {
    IsConnectionError(replies(k, attempts[k]))
  }

  function ContactOf(reply: Result): Contact { if IsConnectionError(reply) then Missed else Reached }

  /** The histories with the attempts of a call added. */
  function Noted(history: seq<seq<Contact>>, attempts: seq<nat>, replies: Replies): (r: seq<seq<Contact>>)
    requires forall k :: 0 <= k < |attempts| ==> attempts[k] < |history|
    ensures |r| == |history|
  {
    if |attempts| == 0 then history
    else
      var n := |attempts| - 1;
      var before, c := Noted(history, attempts[..n], replies), attempts[n];
      before[c := before[c] + [ContactOf(replies(n, c))]]
  }

  /** Healthy and not tried yet. */
  predicate Candidate(hs: seq<Health>, tried: seq<nat>, c: nat) { c < |hs| && hs[c].healthy && c !in tried }

  predicate AnyCandidate(hs: seq<Health>, tried: seq<nat>) { exists c :: 0 <= c < |hs| && Candidate(hs, tried, c) }

  /** What may be selected after `tried`: a healthy untried channel while there is one, and then the first. */
  predicate Selectable(hs: seq<Health>, tried: seq<nat>, c: nat)
  {
    c < |hs| && if AnyCandidate(hs, tried) then Candidate(hs, tried, c) else c == 0
  }

  predicate Follows(hs: seq<Health>, attempts: seq<nat>)
  {
    forall k :: 0 <= k < |attempts| ==> Selectable(hs, attempts[..k], attempts[k])
  }

  predicate AllFail(replies: Replies, attempts: seq<nat>)
  {
    forall k :: 0 <= k < |attempts| ==> Fails(replies, attempts, k)
  }

  /** What `Call` makes of the record it starts with and the replies it gets: the attempts go to different healthy
      channels while there are any, and to the first channel then; they end at the first reply that is not a connection
      error, which is the result, or after as many as there are channels. */
  predicate CallOutcome(start: seq<Health>, replies: Replies, result: Result, attempts: seq<nat>)
  {
    var n := |attempts|;
    && Follows(start, attempts)
    && if |start| == 0 then n == 0 && result == NO_ENDPOINTS
       else
         && 0 < n <= |start| && AllFail(replies, attempts[..n - 1])
         && if Fails(replies, attempts, n - 1) then n == |start| && result == AllFailed(n)
            else result == replies(n - 1, attempts[n - 1])
  }

  // ---------------------------------------------------------------------------------------
  // Attempts
  // ---------------------------------------------------------------------------------------

  function Below(n: nat): (r: set<nat>)
    ensures |r| == n && forall x :: x in r <==> 0 <= x < n
  {
    if n == 0 then {} else Below(n - 1) + {n - 1}
  }

  function Members(s: seq<nat>): (r: set<nat>)
    ensures forall x :: x in r <==> x in s
  {
    if |s| == 0 then {} else Members(s[..|s| - 1]) + {s[|s| - 1]}
  }

  lemma {:induction false} DistinctSize(s: seq<nat>)
    requires forall i, j :: 0 <= i < j < |s| ==> s[i] != s[j]
    ensures |Members(s)| == |s|
  {
    if |s| > 0 {
      DistinctSize(s[..|s| - 1]);
      assert s[|s| - 1] !in s[..|s| - 1];
    }
  }

  /** As many different channels as there are cannot all miss one of them. */
  lemma NoRoom(s: seq<nat>, n: nat, c: nat)
    requires c < n && c !in s && forall i :: 0 <= i < |s| ==> s[i] < n
    requires forall i, j :: 0 <= i < j < |s| ==> s[i] != s[j]
    ensures |s| < n
  {
    DistinctSize(s);
    Smaller(Members(s), Below(n) - {c});
  }

  lemma {:induction false} Smaller(a: set<nat>, b: set<nat>)
    requires a <= b
    ensures |a| <= |b|
  {
    if a != {} {
      var x :| x in a;
      Smaller(a - {x}, b - {x});
    }
  }

  /** While healthy untried channels remain, the attempts are different and healthy. */
  lemma DistinctWhileAny(hs: seq<Health>, attempts: seq<nat>)
    requires Follows(hs, attempts) && forall k :: 0 <= k < |attempts| ==> AnyCandidate(hs, attempts[..k])
    ensures forall i, j :: 0 <= i < j < |attempts| ==> attempts[i] != attempts[j]
    ensures forall k :: 0 <= k < |attempts| ==> hs[attempts[k]].healthy
  {
    forall i, j | 0 <= i < j < |attempts| ensures attempts[i] != attempts[j] {
      assert Selectable(hs, attempts[..j], attempts[j]);
      assert attempts[..j][i] == attempts[i];
    }
    forall k | 0 <= k < |attempts| ensures hs[attempts[k]].healthy {
      assert Selectable(hs, attempts[..k], attempts[k]);
    }
  }

  /** After as many attempts as there are channels, no healthy channel was left out. */
  lemma NoneLeftOut(hs: seq<Health>, attempts: seq<nat>, c: nat)
    requires Follows(hs, attempts) && |attempts| == |hs| && c < |hs| && hs[c].healthy
    ensures c in attempts
  {
    if c !in attempts {
      forall k | 0 <= k < |attempts| ensures AnyCandidate(hs, attempts[..k]) {
        assert Candidate(hs, attempts[..k], c);
      }
      DistinctWhileAny(hs, attempts);
      assert forall k :: 0 <= k < |attempts| ==> Selectable(hs, attempts[..k], attempts[k]);
      NoRoom(attempts, |hs|, c);
    }
  }

  /** And if some channel was not healthy, the first one was asked as a last resort. */
  lemma FirstAsked(hs: seq<Health>, attempts: seq<nat>, u: nat)
    requires Follows(hs, attempts) && |attempts| == |hs| && u < |hs| && !hs[u].healthy
    ensures 0 in attempts
  {
    if forall k :: 0 <= k < |attempts| ==> AnyCandidate(hs, attempts[..k]) {
      DistinctWhileAny(hs, attempts);
      assert u !in attempts;
      assert forall k :: 0 <= k < |attempts| ==> Selectable(hs, attempts[..k], attempts[k]);
      NoRoom(attempts, |hs|, u);
    } else {
      var k :| 0 <= k < |attempts| && !AnyCandidate(hs, attempts[..k]);
      assert Selectable(hs, attempts[..k], attempts[k]);
    }
  }

  lemma {:induction false} MembersSize(s: seq<nat>)
    ensures |Members(s)| <= |s|
  {
    if |s| > 0 { MembersSize(s[..|s| - 1]); }
  }

  /** With every channel healthy, there is one left until all have been asked. */
  lemma OneLeft(hs: seq<Health>, tried: seq<nat>)
    requires |tried| < |hs| && forall c :: 0 <= c < |hs| ==> hs[c].healthy
    ensures AnyCandidate(hs, tried)
  {
    if !AnyCandidate(hs, tried) {
      forall c | c in Below(|hs|) ensures c in Members(tried) { assert !Candidate(hs, tried, c); }
      Smaller(Below(|hs|), Members(tried));
      MembersSize(tried);
    }
  }

  // ---------------------------------------------------------------------------------------
  // When a call succeeds
  // ---------------------------------------------------------------------------------------

  /** Is going to be asked if no channel before it answers: a healthy channel or, if not all are healthy, the first. */
  predicate Reserve(hs: seq<Health>, c: nat)
  {
    c < |hs| && (hs[c].healthy || (c == 0 && exists u :: 0 <= u < |hs| && !hs[u].healthy))
  }

  /** Answers at whatever attempt it is asked. */
  ghost predicate AlwaysAnswers(replies: Replies, c: nat) { forall k: nat :: !IsConnectionError(replies(k, c)) }

  lemma AttemptInRange(hs: seq<Health>, attempts: seq<nat>, k: nat)
    requires Follows(hs, attempts) && k < |attempts|
    ensures attempts[k] < |hs|
  {
    assert Selectable(hs, attempts[..k], attempts[k]);
  }

  lemma AllAsked(hs: seq<Health>, attempts: seq<nat>, c: nat)
    requires Follows(hs, attempts) && |attempts| == |hs| && Reserve(hs, c)
    ensures c in attempts
  {
    if hs[c].healthy {
      NoneLeftOut(hs, attempts, c);
    } else {
      FirstAsked(hs, attempts, c);
    }
  }

  lemma OnlyReserveAsked(hs: seq<Health>, attempts: seq<nat>, k: nat)
    requires Follows(hs, attempts) && k < |attempts| <= |hs|
    ensures Reserve(hs, attempts[k])
  {
    assert Selectable(hs, attempts[..k], attempts[k]);
    if (forall u :: 0 <= u < |hs| ==> hs[u].healthy) { OneLeft(hs, attempts[..k]); }
  }

  /** Whatever the replies, one channel in reserve that always answers is enough for the call to return an answer. */
  lemma OneAnsweringChannelSuffices(start: seq<Health>, replies: Replies, result: Result, attempts: seq<nat>, c: nat)
    requires CallOutcome(start, replies, result, attempts) && Reserve(start, c) && AlwaysAnswers(replies, c)
    ensures !Fails(replies, attempts, |attempts| - 1) && !IsConnectionError(result)
  {
    if Fails(replies, attempts, |attempts| - 1) {
      EveryAttemptFailed(start, replies, result, attempts);
      AllAsked(start, attempts, c);
      AskedFailed(replies, attempts, c);
    }
  }

  lemma AskedFailed(replies: Replies, attempts: seq<nat>, c: nat)
    requires AllFail(replies, attempts) && c in attempts
    ensures !AlwaysAnswers(replies, c)
  {
    var k: nat :| k < |attempts| && attempts[k] == c;
    assert Fails(replies, attempts, k);
  }

  lemma EveryAttemptFailed(start: seq<Health>, replies: Replies, result: Result, attempts: seq<nat>)
    requires |start| > 0 && CallOutcome(start, replies, result, attempts) && Fails(replies, attempts, |attempts| - 1)
    ensures |attempts| == |start| && AllFail(replies, attempts)
  {
    var n := |attempts| - 1;
    forall k | 0 <= k < |attempts| ensures Fails(replies, attempts, k) {
      if k < n { assert Fails(replies, attempts[..n], k) && attempts[..n][k] == attempts[k]; }
    }
  }

  /** And whatever the replies, a call that returns an answer got it from a channel in reserve. */
  lemma AnswersComeFromReserve(start: seq<Health>, replies: Replies, result: Result, attempts: seq<nat>)
    requires |start| > 0 && CallOutcome(start, replies, result, attempts) && !Fails(replies, attempts, |attempts| - 1)
    ensures var n := |attempts| - 1;
            && Reserve(start, attempts[n]) && result == replies(n, attempts[n]) && !IsConnectionError(result)
  {
    OnlyReserveAsked(start, attempts, |attempts| - 1);
  }

  /** Each channel gives one reply throughout the call. */
  ghost predicate Steady(replies: Replies, each: seq<Result>)
  {
    forall k: nat, c: nat :: c < |each| ==> replies(k, c) == each[c]
  }

  /** With steady channels the two meet: a call returns an answer exactly if a channel in reserve gives one. */
  lemma SucceedsExactlyWhen(start: seq<Health>, replies: Replies, each: seq<Result>, result: Result, attempts: seq<nat>)
    requires |start| == |each| > 0 && Steady(replies, each) && CallOutcome(start, replies, result, attempts)
    ensures (exists c :: 0 <= c < |start| && Reserve(start, c) && !IsConnectionError(each[c]))
            <==> !Fails(replies, attempts, |attempts| - 1)
    ensures if Fails(replies, attempts, |attempts| - 1) then result == AllFailed(|start|)
            else result in each && !IsConnectionError(result)
  {
    if c :| 0 <= c < |start| && Reserve(start, c) && !IsConnectionError(each[c]) {
      assert AlwaysAnswers(replies, c);
      OneAnsweringChannelSuffices(start, replies, result, attempts, c);
    }
    if !Fails(replies, attempts, |attempts| - 1) { AnswersComeFromReserve(start, replies, result, attempts); }
  }

  // ---------------------------------------------------------------------------------------
  // What is retried
  // ---------------------------------------------------------------------------------------

  /** The text names none of the errors. */
  predicate Innocent(message: string)
  {
    forall k :: 0 <= k < |CONNECTION_ERRORS| ==> !Contains(message, CONNECTION_ERRORS[k])
  }

  /** Whoever made it, the first reply is what the call returns, after that one attempt, exactly if it is OK or its text
      contains none of the six phrases.  Otherwise another attempt follows, on a healthy channel not asked yet if there
      is one; and with a single channel the reply is replaced. */
  lemma RetriedExactlyWhen(start: seq<Health>, replies: Replies, result: Result, attempts: seq<nat>)
    requires |start| > 0 && CallOutcome(start, replies, result, attempts)
    ensures var first := replies(0, attempts[0]);
            && (|attempts| == 1 && result == first <==> first.code == OK || Innocent(first.message))
            && (first.code != OK && !Innocent(first.message) ==>
                  if |start| == 1 then |attempts| == 1 && result == AllFailed(1)
                  else |attempts| >= 2 && Selectable(start, [attempts[0]], attempts[1]))
  {
    var n := |attempts|;
    var first := replies(0, attempts[0]);
    AllFailedIsFinal(1);
    assert IsConnectionError(first) <==> first.code != OK && !Innocent(first.message);
    if n > 1 {
      assert attempts[..n - 1][0] == attempts[0] && Fails(replies, attempts[..n - 1], 0);
      assert Selectable(start, attempts[..1], attempts[1]);
      assert attempts[..1] == [attempts[0]];
    }
  }

  /** What a caller of a single server gets. */
  function ServedBy(registry: Registry, q: Request): Result { FromServer(0, Serve(registry, q)).result }

  /** Every server has the method, and its handler ends in an error whose text contains one of the phrases. */
  ghost predicate EveryoneServes(registries: nat -> Registry, q: Request, n: nat)
  {
    forall c: nat :: c < n ==>
      MethodKey(q.service, q.operation) in registries(c) && IsConnectionError(ServedBy(registries(c), q))
  }

  /** Then, with all channels healthy, the request is executed once by every server, each of which has answered, and the
      caller is told that all channels failed. */
  lemma ServedEverywhereReportedFailed(start: seq<Health>, registries: nat -> Registry, q: Request, replies: Replies,
                                       result: Result, attempts: seq<nat>)
    requires |start| > 0 && (forall c :: 0 <= c < |start| ==> start[c].healthy)
    requires EveryoneServes(registries, q, |start|)
    requires forall k: nat, c: nat :: replies(k, c) == ServedBy(registries(c), q)
    requires CallOutcome(start, replies, result, attempts)
    ensures result == AllFailed(|start|) && |attempts| == |start|
    ensures forall c :: 0 <= c < |start| ==> c in attempts
    ensures forall i, j :: 0 <= i < j < |attempts| ==> attempts[i] != attempts[j]
  {
    AttemptInRange(start, attempts, |attempts| - 1);
    assert Fails(replies, attempts, |attempts| - 1);
    forall c | 0 <= c < |start| ensures c in attempts { NoneLeftOut(start, attempts, c); }
    forall k | 0 <= k < |attempts| ensures AnyCandidate(start, attempts[..k]) { OneLeft(start, attempts[..k]); }
    DistinctWhileAny(start, attempts);
  }

  /** Any phrase in an exception thrown by a handler does it. */
  lemma HandlerTextsCount(registry: Registry, q: Request, before: string, k: nat, after: string)
    requires k < |CONNECTION_ERRORS| && MethodKey(q.service, q.operation) in registry
    requires var what := before + CONNECTION_ERRORS[k] + after;
             var end := registry[MethodKey(q.service, q.operation)](q.payload);
             end == StdException(what) || (end.RpcFailure? && end.code != OK && end.what == what)
    ensures IsConnectionError(ServedBy(registry, q))
  {
    HandlerText(registry, q, before, CONNECTION_ERRORS[k], after);
  }

  /** What a handler throws is part of the message its caller gets. */
  lemma HandlerText(registry: Registry, q: Request, before: string, part: string, after: string)
    requires MethodKey(q.service, q.operation) in registry
    requires var what := before + part + after;
             var end := registry[MethodKey(q.service, q.operation)](q.payload);
             end == StdException(what) || (end.RpcFailure? && end.code != OK && end.what == what)
    ensures var r := ServedBy(registry, q); r.code != OK && Contains(r.message, part)
  {
    var end := registry[MethodKey(q.service, q.operation)](q.payload);
    if end.StdException? {
      Between("handler exception: " + before, part, after);
      assert "handler exception: " + (before + part + after) == ("handler exception: " + before) + part + after;
    } else {
      Between(before, part, after);
    }
  }

  lemma Between(before: string, part: string, after: string)
    ensures Contains(before + part + after, part)
  {
    assert OccursAt(before + part + after, part, |before|);
  }

  // ---------------------------------------------------------------------------------------
  // The pool
  // ---------------------------------------------------------------------------------------

  class Pool {
    var channels: seq<Health>
    const maxFailures: nat

    /** For each channel, what has happened to it. */
    ghost var history: seq<seq<Contact>>

    ghost predicate Valid()
      reads this
    {
      |history| == |channels| && forall c :: 0 <= c < |channels| ==> Recorded(channels[c], history[c], maxFailures)
    }

    constructor (n: nat, maxFailures: nat)
      ensures Valid() && |channels| == n && this.maxFailures == maxFailures
      ensures forall c :: 0 <= c < n ==> channels[c].healthy && history[c] == []
    {
      channels := seq(n, (c: nat) => Health(true, 0));
      history := seq(n, (c: nat) => []);
      this.maxFailures := maxFailures;
    }

    /** The healthy channels not excluded, in order. */
    method Candidates(excluded: seq<nat>) returns (found: seq<nat>)
      ensures forall k :: 0 <= k < |found| ==> Candidate(channels, excluded, found[k])
      ensures |found| == 0 <==> !AnyCandidate(channels, excluded)
    {
      found := [];
      for i := 0 to |channels|
        invariant forall k :: 0 <= k < |found| ==> Candidate(channels, excluded, found[k])
        invariant |found| == 0 ==> forall c :: 0 <= c < i ==> !Candidate(channels, excluded, c)
      {
        if channels[i].healthy && i !in excluded { found := found + [i]; }
      }
      if |found| > 0 { assert Candidate(channels, excluded, found[0]); }
    }

    /** `choice` is what the balancer makes of the number of candidates; both balancers stay in range. */
    method SelectChannel(excluded: seq<nat>, choice: nat) returns (selected: Option<nat>)
      ensures selected.None? <==> |channels| == 0
      ensures selected.Some? ==> Selectable(channels, excluded, selected.value)
    {
      var found := Candidates(excluded);
      if |found| == 0 {
        return if |channels| > 0 then Some(0) else None;
      }
      return Some(found[choice % |found|]);
    }

    /** Tries every channel in turn.  Afterwards exactly those that could be connected are in service, and it has
        succeeded exactly if there is one. */
    method Warmup(connects: nat -> bool) returns (ok: bool)
      requires Valid()
      modifies this
      ensures Valid() && |channels| == |old(channels)|
      ensures forall c :: 0 <= c < |channels| ==>
                && (channels[c].healthy <==> connects(c))
                && history[c] == old(history)[c] + [if connects(c) then Reached else Shut]
      ensures ok <==> exists c :: 0 <= c < |channels| && channels[c].healthy
    {
      var connected := 0;
      for i := 0 to |channels|
        invariant Valid() && |channels| == |old(channels)|
        invariant forall c :: 0 <= c < i ==>
                    && (channels[c].healthy <==> connects(c))
                    && history[c] == old(history)[c] + [if connects(c) then Reached else Shut]
        invariant forall c :: i <= c < |channels| ==> history[c] == old(history)[c]
        invariant connected > 0 <==> exists c :: 0 <= c < i && channels[c].healthy
      {
        if connects(i) { connected := connected + 1; }
        WarmOne(i, connects(i));
      }
      ok := connected > 0;
    }

    method WarmOne(c: nat, connected: bool)
      requires Valid() && c < |channels|
      modifies this
      ensures Valid() && |channels| == |old(channels)| && channels[c].healthy == connected
      ensures history == old(history)[c := old(history)[c] + [if connected then Reached else Shut]]
      ensures forall d :: 0 <= d < |channels| && d != c ==> channels[d] == old(channels)[d]
    {
      OneMoreContact(channels[c], history[c], if connected then Reached else Shut, maxFailures);
      channels := channels[c := if connected then Health(true, 0) else Health(false, maxFailures)];
      history := history[c := history[c] + [if connected then Reached else Shut]];
    }

    /** A channel is in service exactly if it was reached last, or has since missed fewer than `maxFailures` attempts
        and no warm-up. */
    method RecordReachability(c: nat, reachable: bool)
      requires Valid() && c < |channels|
      modifies this
      ensures Valid() && |channels| == |old(channels)|
      ensures history == old(history)[c := old(history)[c] + [if reachable then Reached else Missed]]
      ensures forall d :: 0 <= d < |channels| && d != c ==> channels[d] == old(channels)[d]
    {
      OneMoreContact(channels[c], history[c], if reachable then Reached else Missed, maxFailures);
      if reachable {
        channels := channels[c := Health(true, 0)];
      } else {
        var failures := channels[c].failures + 1;
        channels := channels[c := Health(channels[c].healthy, failures)];
        if failures >= maxFailures { channels := channels[c := Health(false, failures)]; }
      }
      history := history[c := history[c] + [if reachable then Reached else Missed]];
    }

    /** The retry loop. */
    method Call(replies: Replies, choices: nat -> nat) returns (result: Result, ghost attempts: seq<nat>)
      requires Valid()
      modifies this
      ensures Valid() && |channels| == |old(channels)|
      ensures CallOutcome(old(channels), replies, result, attempts)
      ensures forall k :: 0 <= k < |attempts| ==> attempts[k] < |old(history)|
      ensures history == Noted(old(history), attempts, replies)
    {
      attempts := [];
      if |channels| == 0 { return NO_ENDPOINTS, []; }
      var maxAttempts := |channels|;
      var tried := [];
      for attempt := 0 to maxAttempts
        invariant Valid() && |channels| == maxAttempts && tried == attempts && |attempts| == attempt
        invariant SoFar(old(channels), channels, old(history), history, replies, attempts)
      {
        ghost var before := channels;
        var c, reply := TryOne(tried, attempt, choices(attempt), replies);
        SameSelection(old(channels), before, tried, c);
        NotedMore(old(history), attempts, replies, c);
        if !IsConnectionError(reply) {
          Answered(old(channels), replies, attempts, c);
          return reply, attempts + [c];
        }
        OneMoreTried(old(channels), before, channels, old(history), history, replies, attempts, c);
        tried, attempts := tried + [c], attempts + [c];
      }
      Exhausted(old(channels), replies, attempts);
      result := AllFailed(maxAttempts);
    }

    /** One attempt: on the channel selected, whose reply is recorded. */
    method TryOne(tried: seq<nat>, attempt: nat, choice: nat, replies: Replies) returns (c: nat, reply: Result)
      requires Valid() && |channels| > 0
      modifies this
      ensures Valid() && |channels| == |old(channels)| && c < |channels| && Selectable(old(channels), tried, c)
      ensures reply == replies(attempt, c)
      ensures history == old(history)[c := old(history)[c] + [ContactOf(reply)]]
      ensures forall d :: 0 <= d < |channels| && d != c ==> channels[d] == old(channels)[d]
    {
      var selected := SelectChannel(tried, choice);
      c := selected.value;
      reply := replies(attempt, c);
      RecordReachability(c, !IsConnectionError(reply));
    }
  }

  lemma NotedMore(history: seq<seq<Contact>>, attempts: seq<nat>, replies: Replies, c: nat)
    requires c < |history| && forall k :: 0 <= k < |attempts| ==> attempts[k] < |history|
    ensures var before := Noted(history, attempts, replies);
            Noted(history, attempts + [c], replies)
            == before[c := before[c] + [ContactOf(replies(|attempts|, c))]]
  {
    assert (attempts + [c])[..|attempts|] == attempts;
  }

  /** In the middle of a call: every attempt so far has failed and is recorded, and the untried channels are as they
      were. */
  ghost predicate SoFar(start: seq<Health>, now: seq<Health>, before: seq<seq<Contact>>, history: seq<seq<Contact>>,
                        replies: Replies, attempts: seq<nat>)
  {
    && |now| == |start| == |before| && (forall k :: 0 <= k < |attempts| ==> attempts[k] < |before|)
    && Follows(start, attempts) && AllFail(replies, attempts) && history == Noted(before, attempts, replies)
    && (forall c :: 0 <= c < |start| && c !in attempts ==> now[c] == start[c])
  }

  lemma OneMoreTried(start: seq<Health>, now: seq<Health>, then_: seq<Health>, before: seq<seq<Contact>>,
                     history: seq<seq<Contact>>, replies: Replies, attempts: seq<nat>, c: nat)
    requires c < |before| && forall k :: 0 <= k < |attempts| ==> attempts[k] < |before|
    requires SoFar(start, now, before, Noted(before, attempts, replies), replies, attempts)
    requires Selectable(start, attempts, c) && IsConnectionError(replies(|attempts|, c))
    requires history == Noted(before, attempts + [c], replies)
    requires |then_| == |now| && forall d :: 0 <= d < |now| && d != c ==> then_[d] == now[d]
    ensures SoFar(start, then_, before, history, replies, attempts + [c])
  {
    FollowsMore(start, attempts, c);
    AllFailMore(replies, attempts, c);
    assert forall d :: d !in attempts + [c] ==> d !in attempts && d != c;
  }

  /** A call ends with the first reply that is not a connection error. */
  lemma Answered(start: seq<Health>, replies: Replies, attempts: seq<nat>, c: nat)
    requires Follows(start, attempts) && Selectable(start, attempts, c) && |attempts| < |start|
    requires AllFail(replies, attempts) && !IsConnectionError(replies(|attempts|, c))
    ensures CallOutcome(start, replies, replies(|attempts|, c), attempts + [c])
  {
    FollowsMore(start, attempts, c);
    assert (attempts + [c])[..|attempts|] == attempts;
  }

  lemma Exhausted(start: seq<Health>, replies: Replies, attempts: seq<nat>)
    requires Follows(start, attempts) && |attempts| == |start| > 0 && AllFail(replies, attempts)
    ensures CallOutcome(start, replies, AllFailed(|start|), attempts)
  {
    AllFailBefore(replies, attempts, |attempts| - 1);
  }

  lemma AllFailBefore(replies: Replies, attempts: seq<nat>, n: nat)
    requires AllFail(replies, attempts) && n <= |attempts|
    ensures AllFail(replies, attempts[..n])
  {
    forall k | 0 <= k < n ensures Fails(replies, attempts[..n], k) { assert Fails(replies, attempts, k); }
  }

  lemma AllFailMore(replies: Replies, attempts: seq<nat>, c: nat)
    requires AllFail(replies, attempts) && IsConnectionError(replies(|attempts|, c))
    ensures AllFail(replies, attempts + [c])
  {
    var more := attempts + [c];
    forall k | 0 <= k < |more| ensures Fails(replies, more, k) {
      if k < |attempts| { assert Fails(replies, attempts, k) && more[k] == attempts[k]; }
    }
  }

  /** Only channels already tried have changed their health, so the selection is as from the start. */
  lemma SameSelection(start: seq<Health>, now: seq<Health>, tried: seq<nat>, c: nat)
    requires |start| == |now| && forall k :: 0 <= k < |start| && k !in tried ==> now[k] == start[k]
    requires Selectable(now, tried, c)
    ensures Selectable(start, tried, c)
  {
    forall k | 0 <= k < |start| ensures Candidate(now, tried, k) == Candidate(start, tried, k) {}
  }

  lemma FollowsMore(hs: seq<Health>, attempts: seq<nat>, c: nat)
    requires Follows(hs, attempts) && Selectable(hs, attempts, c)
    ensures Follows(hs, attempts + [c])
  {
    var more := attempts + [c];
    forall k | 0 <= k < |more| ensures Selectable(hs, more[..k], more[k]) {
      if k < |attempts| { assert more[..k] == attempts[..k]; } else { assert more[..k] == attempts; }
    }
  }
}
