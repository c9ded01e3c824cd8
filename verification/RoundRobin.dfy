// Round-robin choice of a healthy account.
module RoundRobin {
  import opened Wrappers

  // A cursor shared by all callers; it is not modelled to wrap.
  class Cursor {
    var next: nat

    constructor ()
      ensures next == 0
    {
      next := 0;
    }
  }

  // The first healthy position at or after `start`, looking at `left` of them.
  function Search(health: seq<bool>, start: nat, left: nat): Option<nat>
    requires left <= |health|
    decreases left
  {
    if left == 0 then None
    else if health[start % |health|] then Some(start % |health|)
    else Search(health, start + 1, left - 1)
  }

  function Chosen(health: seq<bool>, start: nat): Option<nat> {
    Search(health, start, |health|)
  }

  // Every call takes the next cursor value, also when nobody is healthy; an
  // empty list takes none.
  method Pick(health: seq<bool>, cursor: Cursor) returns (r: Option<nat>)
    modifies cursor
    ensures r == Chosen(health, old(cursor.next))
    ensures cursor.next == old(cursor.next) + (if health == [] then 0 else 1)
  {
    var n := |health|;
    if n == 0 {
      return None;
    }
    var start := cursor.next;
    cursor.next := start + 1;
    for i := 0 to n
      invariant Chosen(health, start) == Search(health, start + i, n - i)
    {
      var index := (start + i) % n;
      if health[index] {
        return Some(index);
      }
    }
    r := None;
  }

  // ---- Which start leads to which account ----

  // Steps from `start` forward to position `j` on a ring of `n`.
  function Distance(n: nat, start: nat, j: nat): nat
    requires j < n
  {
    if start % n <= j then j - start % n else n + j - start % n
  }

  // How many unhealthy positions directly precede `j`, looking at `left` of them.
  function Before(health: seq<bool>, j: nat, left: nat): nat
    requires j < |health|
    decreases left
  {
    var previous := if j == 0 then |health| - 1 else j - 1;
    if left == 0 || health[previous] then 0 else 1 + Before(health, previous, left - 1)
  }

  function Run(health: seq<bool>, j: nat): nat
    requires j < |health|
  {
    Before(health, j, |health| - 1)
  }

  // The position `d` steps back from `j`.
  function Back(n: nat, j: nat, d: nat): nat
    requires j < n && d < n
  {
    if d <= j then j - d else n + j - d
  }

  lemma {:induction false} BeforeMeans(health: seq<bool>, j: nat, left: nat)
    requires j < |health| && left < |health|
    ensures Before(health, j, left) <= left
    ensures forall d :: 1 <= d <= Before(health, j, left) ==> !health[Back(|health|, j, d)]
    ensures Before(health, j, left) < left ==> health[Back(|health|, j, Before(health, j, left) + 1)]
    decreases left
  {
    var previous := if j == 0 then |health| - 1 else j - 1;
    if left > 0 && !health[previous] {
      BeforeMeans(health, previous, left - 1);
      forall d | 1 <= d <= Before(health, j, left) ensures !health[Back(|health|, j, d)] {
        if d > 1 {
          assert Back(|health|, j, d) == Back(|health|, previous, d - 1);
        }
      }
      var r := Before(health, previous, left - 1);
      if r < left - 1 {
        assert Back(|health|, j, r + 2) == Back(|health|, previous, r + 1);
      }
    }
  }

  lemma ModNext(n: nat, start: nat)
    requires n > 0
    ensures (start + 1) % n == if start % n == n - 1 then 0 else start % n + 1
  {
    var q, r := start / n, start % n;
    assert start + 1 == q * n + r + 1;
    if r == n - 1 {
      ModOf(n, q + 1, 0);
    } else {
      ModOf(n, q, r + 1);
    }
  }

  lemma Apart(q: nat, p: nat, n: nat)
    requires q < p
    ensures p * n >= q * n + n
  {
    assert p * n == q * n + n + (p - q - 1) * n;
  }

  lemma QuotientUnique(n: nat, q: nat, r: nat, p: nat, s: nat)
    requires r < n && s < n && q * n + r == p * n + s
    ensures q == p && r == s
  {
    if q < p {
      Apart(q, p, n);
    } else if p < q {
      Apart(p, q, n);
    }
  }

  lemma ModOf(n: nat, q: nat, r: nat)
    requires r < n
    ensures (q * n + r) % n == r
  {
    var x := q * n + r;
    assert x == x / n * n + x % n;
    QuotientUnique(n, q, r, x / n, x % n);
  }

  lemma NextDistance(n: nat, start: nat, j: nat)
    requires j < n
    ensures Distance(n, start, j) < n
    ensures start % n == Back(n, j, Distance(n, start, j))
    ensures Distance(n, start + 1, j) == if Distance(n, start, j) == 0 then n - 1 else Distance(n, start, j) - 1
  {
    ModNext(n, start);
  }

  // A search finds `j` exactly if `j` is healthy and everything before it on
  // the way is not.
  lemma {:induction false} SearchFinds(health: seq<bool>, start: nat, left: nat, j: nat)
    requires j < |health| && health[j] && left <= |health|
    ensures Search(health, start, left) == Some(j)
       <==> (Distance(|health|, start, j) < left
             && forall d :: 1 <= d <= Distance(|health|, start, j) ==> !health[Back(|health|, j, d)])
    decreases left
  {
    var n := |health|;
    var dist := Distance(n, start, j);
    NextDistance(n, start, j);
    if left > 0 {
      if health[start % n] {
        if start % n == j {
          assert dist == 0;
        } else {
          assert dist >= 1 && health[Back(n, j, dist)];
        }
      } else {
        SearchFinds(health, start + 1, left - 1, j);
        assert dist > 0;
        assert Distance(n, start + 1, j) == dist - 1;
        assert !health[Back(n, j, dist)];
      }
    }
  }

  lemma ChosenIff(health: seq<bool>, start: nat, j: nat)
    requires j < |health| && health[j]
    ensures Chosen(health, start) == Some(j) <==> Distance(|health|, start, j) <= Run(health, j)
  {
    var n := |health|;
    var dist := Distance(n, start, j);
    SearchFinds(health, start, n, j);
    BeforeMeans(health, j, n - 1);
    NextDistance(n, start, j);
    if dist > Run(health, j) {
      assert health[Back(n, j, Run(health, j) + 1)];
    }
  }

  // ---- Soundness and fairness ----

  function HealthyAt(health: seq<bool>, k: nat): bool
    requires health != []
  {
    health[k % |health|]
  }

  lemma {:induction false} SearchSound(health: seq<bool>, start: nat, left: nat)
    requires left <= |health| && health != []
    ensures Search(health, start, left).Some? ==> Search(health, start, left).value < |health| && health[Search(health, start, left).value]
    ensures Search(health, start, left).None? ==> forall k: nat :: start <= k < start + left ==> !HealthyAt(health, k)
    decreases left
  {
    if left > 0 && !HealthyAt(health, start) {
      SearchSound(health, start + 1, left - 1);
    }
  }

  // An unhealthy account is never chosen, and some account is chosen exactly
  // when one is healthy.
  lemma ChosenIsHealthy(health: seq<bool>, start: nat)
    ensures Chosen(health, start).Some? ==> Chosen(health, start).value < |health| && health[Chosen(health, start).value]
    ensures Chosen(health, start).Some? <==> true in health
  {
    if health != [] {
      SearchSound(health, start, |health|);
    }
    if j :| 0 <= j < |health| && health[j] {
      NextDistance(|health|, start, j);
      OnRing(|health|, start, j);
      assert HealthyAt(health, start + Distance(|health|, start, j));
    }
  }

  lemma OnRing(n: nat, start: nat, j: nat)
    requires j < n
    ensures (start + Distance(n, start, j)) % n == j
  {
    var q, r := start / n, start % n;
    assert start == q * n + r;
    if r <= j {
      ModOf(n, q, j);
    } else {
      assert start + (n + j - r) == (q + 1) * n + j;
      ModOf(n, q + 1, j);
    }
  }

  // How often `j` is chosen in `calls` consecutive calls from cursor `start`.
  function Times(health: seq<bool>, start: nat, calls: nat, j: nat): nat
    decreases calls
  {
    if calls == 0 then 0
    else (if Chosen(health, start) == Some(j) then 1 else 0) + Times(health, start + 1, calls - 1, j)
  }

  lemma {:induction false} TimesLast(health: seq<bool>, start: nat, calls: nat, j: nat)
    ensures Times(health, start, calls + 1, j)
         == Times(health, start, calls, j) + (if Chosen(health, start + calls) == Some(j) then 1 else 0)
    decreases calls
  {
    if calls > 0 {
      TimesLast(health, start + 1, calls - 1, j);
    }
  }

  lemma {:induction false} SearchPeriodic(health: seq<bool>, start: nat, left: nat)
    requires left <= |health|
    ensures Search(health, start + |health|, left) == Search(health, start, left)
    decreases left
  {
    if left > 0 {
      var n := |health|;
      var q, r := start / n, start % n;
      ModOf(n, q + 1, r);
      assert start + n == (q + 1) * n + r;
      SearchPeriodic(health, start + 1, left - 1);
    }
  }

  // Where a window of one full round starts does not matter.
  lemma {:induction false} WindowShift(health: seq<bool>, start: nat, j: nat)
    ensures Times(health, start, |health|, j) == Times(health, 0, |health|, j)
    decreases start
  {
    if start > 0 && |health| > 0 {
      SearchPeriodic(health, start - 1, |health|);
      TimesLast(health, start - 1, |health|, j);
      WindowShift(health, start - 1, j);
    }
  }

  // From just behind `j`, the chosen starts are the last ones of the round.
  lemma {:induction false} TimesFrom(health: seq<bool>, start: nat, calls: nat, j: nat)
    requires j < |health| && health[j] && calls <= |health| && (calls > 0 ==> Distance(|health|, start, j) == calls - 1)
    ensures Times(health, start, calls, j) == if calls <= Run(health, j) then calls else Run(health, j) + 1
    decreases calls
  {
    BeforeMeans(health, j, |health| - 1);
    if calls > 0 {
      ChosenIff(health, start, j);
      NextDistance(|health|, start, j);
      TimesFrom(health, start + 1, calls - 1, j);
    }
  }

  // Over any |health| consecutive calls with fixed health, a healthy account
  // is chosen once for itself and once for each unhealthy one directly before it.
  lemma Fairness(health: seq<bool>, start: nat, j: nat)
    requires j < |health| && health[j]
    ensures Times(health, start, |health|, j) == 1 + Run(health, j)
  {
    var n := |health|;
    BeforeMeans(health, j, n - 1);
    WindowShift(health, start, j);
    WindowShift(health, j + 1, j);
    if j + 1 == n {
      ModOf(n, 1, 0);
    } else {
      ModOf(n, 0, j + 1);
    }
    assert Distance(n, j + 1, j) == n - 1;
    TimesFrom(health, j + 1, n, j);
  }
}
