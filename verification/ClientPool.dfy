/** The load balancers of the client pool. */
module ClientPool {
  // ---------------------------------------------------------------------------------------
  // Round robin
  // ---------------------------------------------------------------------------------------

  class RoundRobinBalancer {
    var nextIndex: nat

    constructor ()
      ensures nextIndex == 0
    {
      nextIndex := 0;
    }

    method Select(candidates: nat) returns (index: nat)
      requires candidates > 0
      modifies this
      ensures index < candidates && index == old(nextIndex) % candidates && nextIndex == old(nextIndex) + 1
    {
      index := nextIndex % candidates;
      nextIndex := nextIndex + 1;
    }
  }

  /** How often candidate v of n is picked by `picks` selections from counter value `from` on. */
  function Picked(from: nat, picks: nat, n: nat, v: nat): nat
    requires n > 0
  {
    if picks == 0 then 0
    else Picked(from, picks - 1, n, v) + (if (from + picks - 1) % n == v then 1 else 0)
  }

  /** How often it is picked by the first m selections of all. */
  function PickedOfFirst(m: nat, n: nat, v: nat): nat
    requires n > 0
  {
    m / n + (if v < m % n then 1 else 0)
  }

  lemma NextQuotient(m: nat, n: nat)
    requires n > 0
    ensures if m % n + 1 == n then (m + 1) / n == m / n + 1 && (m + 1) % n == 0
            else (m + 1) / n == m / n && (m + 1) % n == m % n + 1
  {
    var q, r := m / n, m % n;
    assert m == q * n + r;
    if r + 1 == n {
      assert m + 1 == (q + 1) * n;
      Quotient(m + 1, n, q + 1, 0);
    } else {
      Quotient(m + 1, n, q, r + 1);
    }
  }

  lemma Quotient(m: nat, n: nat, q: nat, r: nat)
    requires n > 0 && m == q * n + r && r < n
    ensures m / n == q && m % n == r
  {
    var d := m / n - q;
    assert m == (m / n) * n + m % n;
    assert d * n == r - m % n by {
      assert (m / n) * n == (q + d) * n == q * n + d * n;
    }
    assert d >= 1 ==> d * n >= n;
    assert d <= -1 ==> d * n <= -(n as int);
  }

  lemma {:induction false} PickedIsDifference(from: nat, picks: nat, n: nat, v: nat)
    requires n > 0 && v < n
    ensures Picked(from, picks, n, v) == PickedOfFirst(from + picks, n, v) - PickedOfFirst(from, n, v)
    decreases picks
  {
    if picks > 0 {
      PickedIsDifference(from, picks - 1, n, v);
      NextQuotient(from + picks - 1, n);
    }
  }

  /** Round robin is fair: in any window of selections over the same candidates, no two are picked numbers of times that
      differ by more than one. */
  lemma RoundRobinIsFair(from: nat, picks: nat, n: nat, a: nat, b: nat)
    requires n > 0 && a < n && b < n
    ensures Picked(from, picks, n, a) <= Picked(from, picks, n, b) + 1
  {
    PickedIsDifference(from, picks, n, a);
    PickedIsDifference(from, picks, n, b);
  }

  // ---------------------------------------------------------------------------------------
  // Least in flight
  // ---------------------------------------------------------------------------------------

  const SIZE_MAX: nat := 0xFFFF_FFFF_FFFF_FFFF

  predicate IsMin(s: seq<nat>, m: nat)
  {
    (forall i :: 0 <= i < |s| ==> m <= s[i]) && (exists i :: 0 <= i < |s| && s[i] == m)
  }

  predicate Counts(s: seq<nat>) { forall i :: 0 <= i < |s| ==> s[i] <= SIZE_MAX }

  /** The positions of a value, in order. */
  function Places(s: seq<nat>, v: nat, upto: nat): (r: seq<nat>)
    requires upto <= |s|
    ensures forall k :: 0 <= k < |r| ==> r[k] < upto && s[r[k]] == v
    ensures |r| == 0 <==> forall i :: 0 <= i < upto ==> s[i] != v
  {
    if upto == 0 then []
    else if s[upto - 1] == v then Places(s, v, upto - 1) + [upto - 1] else Places(s, v, upto - 1)
  }

  class LeastInflightBalancer {
    var tieBreaker: nat

    constructor ()
      ensures tieBreaker == 0
    {
      tieBreaker := 0;
    }

    /** The in-flight counts are read up to three times and may have changed in between.  The choice is always in range;
        it is the next in turn among those that still show the minimum of the first reading, or, if none does, among
        those with the minimum of the last. */
    method Select(first: seq<nat>, second: seq<nat>, third: seq<nat>) returns (index: nat)
      requires |first| == |second| == |third| > 0 && Counts(first) && Counts(second) && Counts(third)
      modifies this
      ensures index < |first| && tieBreaker == old(tieBreaker) + 1
      ensures forall m :: IsMin(first, m) && m in second ==>
                var ties := Places(second, m, |second|);
                second[index] == m && |ties| > 0 && index == ties[old(tieBreaker) % |ties|]
      ensures forall m :: IsMin(first, m) && m !in second ==> IsMin(third, third[index])
    {
      var least := Least(first);
      var ties := FindTies(second, least);
      assert IsMin(first, least);
      if |ties| == 0 {
        assert least !in second;
        ties := LastReading(third);
      } else {
        assert second[ties[0]] == least;
      }
      var turn := tieBreaker % |ties|;
      tieBreaker := tieBreaker + 1;
      index := ties[turn];
      assert forall m :: IsMin(first, m) ==> m == least;
    }
  }

  method Least(s: seq<nat>) returns (m: nat)
    requires |s| > 0 && Counts(s)
    ensures IsMin(s, m)
  {
    m := SIZE_MAX;
    for i := 0 to |s|
      invariant forall k :: 0 <= k < i ==> m <= s[k]
      invariant m == SIZE_MAX || exists k :: 0 <= k < i && s[k] == m
    {
      if s[i] < m { m := s[i]; }
    }
    if m == SIZE_MAX { assert s[0] == m; }
  }

  method FindTies(s: seq<nat>, v: nat) returns (ties: seq<nat>)
    ensures ties == Places(s, v, |s|)
  {
    ties := [];
    for i := 0 to |s|
      invariant ties == Places(s, v, i)
    {
      if s[i] == v { ties := ties + [i]; }
    }
  }

  /** The third reading: minimum and its places in one pass; it never comes back empty. */
  method LastReading(s: seq<nat>) returns (ties: seq<nat>)
    requires |s| > 0 && Counts(s)
    ensures |ties| > 0 && forall k :: 0 <= k < |ties| ==> ties[k] < |s| && IsMin(s, s[ties[k]])
  {
    var least := SIZE_MAX;
    ties := [];
    for i := 0 to |s|
      invariant forall k :: 0 <= k < |ties| ==> ties[k] < i && s[ties[k]] == least
      invariant forall k :: 0 <= k < i ==> least <= s[k]
      invariant if i > 0 then |ties| > 0 else least == SIZE_MAX
    {
      if s[i] < least {
        least, ties := s[i], [i];
      } else if s[i] == least {
        ties := ties + [i];
      }
    }
  }
}
