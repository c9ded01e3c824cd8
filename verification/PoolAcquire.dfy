// Acquiring an account for a route from the buckets of a pool.
module PoolAcquire {
  import opened Wrappers
  import opened AccountHandle
  import opened RoundRobin
  import opened AccountPool

  // ---- One bucket ----

  function Healths(hs: seq<Handle>, now: nat): (health: seq<bool>)
    reads hs
    ensures |health| == |hs| && forall i :: 0 <= i < |hs| ==> health[i] == hs[i].IsHealthy(now)
  {
    seq(|hs|, i requires 0 <= i < |hs| reads hs => hs[i].IsHealthy(now))
  }

  function PickFrom(hs: seq<Handle>, start: nat, now: nat): Option<Handle>
    reads hs
  {
    match Chosen(Healths(hs, now), start)
    case Some(i) => if i < |hs| then Some(hs[i]) else None
    case None => None
  }

  // The active tier first, the fallback tier only if it has no healthy account.
  function BucketPick(b: Bucket, now: nat): Option<Handle>
    reads b.accounts, b.fallbacks, b.cursor, b.fallbackCursor
  {
    match PickFrom(b.accounts, b.cursor.next, now)
    case Some(a) => Some(a)
    case None => PickFrom(b.fallbacks, b.fallbackCursor.next, now)
  }

  // A healthy account of the bucket, of the fallback tier only if no active one is healthy.
  ghost predicate ServedBy(b: Bucket, now: nat, a: Handle)
    reads b.accounts, a
  {
    && a.IsHealthy(now)
    && if exists h :: h in b.accounts && h.IsHealthy(now) then a in b.accounts else a in b.fallbacks
  }

  method PickOne(hs: seq<Handle>, cursor: Cursor, now: nat) returns (r: Option<Handle>)
    modifies cursor
    ensures r == old(PickFrom(hs, cursor.next, now))
    ensures cursor.next == old(cursor.next) + (if hs == [] then 0 else 1)
    ensures r.Some? ==> r.value in hs && r.value.IsHealthy(now)
    ensures r.None? ==> forall h :: h in hs ==> !h.IsHealthy(now)
  {
    var health := Healths(hs, now);
    var i := Pick(health, cursor);
    ChosenIsHealthy(health, old(cursor.next));
    r := match i case Some(k) => Some(hs[k]) case None => None;
  }

  method PickHealthy(b: Bucket, now: nat) returns (r: Option<Handle>)
    requires b.cursor != b.fallbackCursor
    modifies b.cursor, b.fallbackCursor
    ensures r == old(BucketPick(b, now))
    ensures b.cursor.next == old(b.cursor.next) + (if b.accounts == [] then 0 else 1)
    ensures b.fallbackCursor.next == old(b.fallbackCursor.next)
              + (if b.fallbacks == [] || old(PickFrom(b.accounts, b.cursor.next, now)).Some? then 0 else 1)
    ensures r.Some? ==> ServedBy(b, now, r.value)
    ensures r.None? ==> forall h :: h in b.accounts || h in b.fallbacks ==> !h.IsHealthy(now)
  {
    r := PickOne(b.accounts, b.cursor, now);
    if r.None? {
      r := PickOne(b.fallbacks, b.fallbackCursor, now);
    }
  }

  // ---- Cooldowns ----

  // An account that is not in cooldown comes before any that is.
  predicate Earlier(a: Option<nat>, b: Option<nat>) {
    match b case None => false case Some(t) => a.None? || a.value < t
  }

  // The first of the accounts with the earliest cooldown.
  ghost predicate IsEarliest(hs: seq<Handle>, a: Handle)
    reads hs, a
  {
    exists i :: 0 <= i < |hs| && hs[i] == a
      && (forall j :: 0 <= j < i ==> Earlier(a.cooldownUntil, hs[j].cooldownUntil))
      && (forall j :: 0 <= j < |hs| ==> !Earlier(hs[j].cooldownUntil, a.cooldownUntil))
  }

  method EarliestCooldown(hs: seq<Handle>) returns (r: Option<Handle>)
    ensures r.None? <==> hs == []
    ensures r.Some? ==> IsEarliest(hs, r.value)
  {
    r := None;
    ghost var at := 0;
    for k := 0 to |hs|
      invariant r.None? <==> k == 0
      invariant r.Some? ==> at < k && hs[at] == r.value
      invariant r.Some? ==> forall j :: 0 <= j < at ==> Earlier(r.value.cooldownUntil, hs[j].cooldownUntil)
      invariant r.Some? ==> forall j :: 0 <= j < k ==> !Earlier(hs[j].cooldownUntil, r.value.cooldownUntil)
    {
      if r.None? || Earlier(hs[k].cooldownUntil, r.value.cooldownUntil) {
        r, at := Some(hs[k]), k;
      }
    }
  }

  // The list a bucket waits on: its active accounts, or if it has none the fallback ones.
  function Waiting(b: Bucket): seq<Handle> {
    if b.accounts != [] then b.accounts else b.fallbacks
  }

  function WaitingSet(cs: seq<Bucket>): set<Handle> {
    set b, h | b in cs && h in Waiting(b) :: h
  }

  // The account of least cooldown among the candidates' waiting lists; of
  // equals the one of the first bucket.
  ghost predicate LeastCooldown(cs: seq<Bucket>, a: Handle)
    reads a, WaitingSet(cs)
  {
    exists at :: 0 <= at < |cs| && LeastFrom(cs, at, a)
  }

  ghost predicate LeastFrom(cs: seq<Bucket>, at: nat, a: Handle)
    requires at < |cs|
    reads a, WaitingSet(cs)
  {
    assert cs[..|cs|] == cs && cs[at] in cs && forall h :: h in Waiting(cs[at]) ==> h in WaitingSet(cs);
    LeastUpTo(cs, |cs|, at, a)
  }

  method BucketEarliest(b: Bucket) returns (r: Option<Handle>)
    ensures r.None? <==> Waiting(b) == []
    ensures r.Some? ==> IsEarliest(Waiting(b), r.value)
  {
    r := EarliestCooldown(b.accounts);
    if r.None? {
      r := EarliestCooldown(b.fallbacks);
    }
  }

  predicate NoneEmpty(cs: seq<Bucket>) {
    forall b :: b in cs ==> b.accounts + b.fallbacks != []
  }

  // `a` is the choice among the first `k` candidates, from the bucket at `at`.
  ghost predicate LeastUpTo(cs: seq<Bucket>, k: nat, at: nat, a: Handle)
    requires at < k <= |cs|
    reads a, Waiting(cs[at]), WaitingSet(cs[..k])
  {
    && IsEarliest(Waiting(cs[at]), a)
    && (forall h :: h in WaitingSet(cs[..at]) && h in WaitingSet(cs[..k]) ==> Earlier(a.cooldownUntil, h.cooldownUntil))
    && (forall h :: h in WaitingSet(cs[..k]) ==> !Earlier(h.cooldownUntil, a.cooldownUntil))
  }

  lemma WaitingMore(cs: seq<Bucket>, k: nat)
    requires k < |cs|
    ensures forall h :: h in WaitingSet(cs[..k + 1]) <==> h in WaitingSet(cs[..k]) || h in Waiting(cs[k])
  {
    assert cs[..k + 1] == cs[..k] + [cs[k]];
  }

  lemma LeastKept(cs: seq<Bucket>, k: nat, at: nat, a: Handle, b: Handle)
    requires at < k < |cs| && LeastUpTo(cs, k, at, a) && IsEarliest(Waiting(cs[k]), b)
    requires !Earlier(b.cooldownUntil, a.cooldownUntil)
    ensures LeastUpTo(cs, k + 1, at, a)
  {
    WaitingMore(cs, k);
    assert cs[..at] == cs[..k][..at];
  }

  lemma LeastReplaced(cs: seq<Bucket>, k: nat, at: nat, a: Handle, b: Handle)
    requires at < k < |cs| && LeastUpTo(cs, k, at, a) && IsEarliest(Waiting(cs[k]), b)
    requires Earlier(b.cooldownUntil, a.cooldownUntil)
    ensures LeastUpTo(cs, k + 1, k, b)
  {
    WaitingMore(cs, k);
  }

  lemma LeastFirst(cs: seq<Bucket>, b: Handle)
    requires cs != [] && IsEarliest(Waiting(cs[0]), b)
    ensures LeastUpTo(cs, 1, 0, b)
  {
    WaitingMore(cs, 0);
    assert cs[..0] == [] && cs[..0 + 1] == cs[..1];
  }

  // One more candidate.
  method KeepLeast(cs: seq<Bucket>, k: nat, best: Option<Handle>, ghost at: nat) returns (r: Handle, ghost from: nat)
    requires k < |cs| && Waiting(cs[k]) != [] && (best.None? <==> k == 0)
    requires best.Some? ==> at < k && LeastUpTo(cs, k, at, best.value)
    ensures from < k + 1 && LeastUpTo(cs, k + 1, from, r)
  {
    var a := BucketEarliest(cs[k]);
    if best.None? {
      LeastFirst(cs, a.value);
      r, from := a.value, k;
    } else if Earlier(a.value.cooldownUntil, best.value.cooldownUntil) {
      LeastReplaced(cs, k, at, best.value, a.value);
      r, from := a.value, k;
    } else {
      LeastKept(cs, k, at, best.value, a.value);
      r, from := best.value, at;
    }
  }

  method LeastOf(cs: seq<Bucket>) returns (r: Option<Handle>)
    requires NoneEmpty(cs)
    ensures r.None? <==> cs == []
    ensures r.Some? ==> LeastCooldown(cs, r.value)
  {
    r := None;
    ghost var at: nat := 0;
    for k := 0 to |cs|
      invariant r.None? <==> k == 0
      invariant r.Some? ==> at < k && LeastUpTo(cs, k, at, r.value)
    {
      assert cs[k] in cs;
      var a: Handle;
      a, at := KeepLeast(cs, k, r, at);
      r := Some(a);
    }
    if r.Some? {
      assert LeastFrom(cs, at, r.value);
    }
  }

  // ---- One attempt over the candidates ----

  function Footprint(cs: seq<Bucket>): set<object> {
    Accounts(cs) + Cursors(cs)
  }

  function Accounts(cs: seq<Bucket>): set<Handle> {
    (set b, h | b in cs && h in b.accounts :: h) + (set b, h | b in cs && h in b.fallbacks :: h)
  }

  function Cursors(cs: seq<Bucket>): set<Cursor> {
    (set b | b in cs :: b.cursor) + (set b | b in cs :: b.fallbackCursor)
  }

  lemma InFootprint(cs: seq<Bucket>, b: Bucket)
    requires b in cs
    ensures (forall h :: h in b.accounts || h in b.fallbacks ==> h in Footprint(cs))
    ensures b.cursor in Footprint(cs) && b.fallbackCursor in Footprint(cs)
  {
  }

  lemma TailFootprint(cs: seq<Bucket>)
    requires cs != []
    ensures Footprint(cs[1..]) <= Footprint(cs)
  {
    assert forall b :: b in cs[1..] ==> b in cs;
  }

  function FirstPick(cs: seq<Bucket>, now: nat): Option<Handle>
    reads Footprint(cs)
  {
    if cs == [] then None
    else
      InFootprint(cs, cs[0]);
      TailFootprint(cs);
      match BucketPick(cs[0], now)
      case Some(a) => Some(a)
      case None => FirstPick(cs[1..], now)
  }

  // No bucket shares a cursor with a later one.
  ghost predicate TailsApart(cs: seq<Bucket>) {
    cs != [] ==>
      && cs[0].cursor != cs[0].fallbackCursor
      && cs[0].cursor !in Footprint(cs[1..]) && cs[0].fallbackCursor !in Footprint(cs[1..])
      && TailsApart(cs[1..])
  }

  lemma HeadApart(cs: seq<Bucket>)
    requires cs != [] && CursorsApart(cs) && Sorted(cs)
    ensures cs[0].cursor !in Footprint(cs[1..]) && cs[0].fallbackCursor !in Footprint(cs[1..])
  {
    forall b | b in cs[1..] ensures {cs[0].cursor, cs[0].fallbackCursor} !! {b.cursor, b.fallbackCursor} {
      var j :| 0 <= j < |cs[1..]| && cs[1..][j] == b;
      assert cs[1 + j] == b && cs[0] in cs && b in cs;
    }
  }

  lemma {:induction false} ApartInTails(cs: seq<Bucket>)
    requires CursorsApart(cs) && Sorted(cs)
    ensures TailsApart(cs)
  {
    if cs != [] {
      HeadApart(cs);
      assert cs[0] in cs && forall b :: b in cs[1..] ==> b in cs;
      ApartInTails(cs[1..]);
    }
  }

  // Tries the first of `cs`; the picks of the others are not affected.
  method TryFirst(cs: seq<Bucket>, now: nat) returns (r: Option<Handle>)
    requires cs != [] && TailsApart(cs)
    modifies cs[0].cursor, cs[0].fallbackCursor
    ensures old(FirstPick(cs, now)) == if r.Some? then r else FirstPick(cs[1..], now)
    ensures r.Some? ==> ServedBy(cs[0], now, r.value)
    ensures r.None? ==> forall h :: h in cs[0].accounts || h in cs[0].fallbacks ==> !h.IsHealthy(now)
  {
    ghost var rest := FirstPick(cs[1..], now);
    r := PickHealthy(cs[0], now);
    assert FirstPick(cs[1..], now) == rest;
  }

  // The bucket at `i` serves `a`, and none before it has a healthy account.
  ghost predicate HealthyFrom(cs: seq<Bucket>, now: nat, i: nat, a: Handle)
    requires i < |cs|
    reads Accounts(cs), a
  {
    assert cs[i] in cs && forall h :: h in cs[i].accounts ==> h in Accounts(cs);
    ServedBy(cs[i], now, a) && forall h :: h in Accounts(cs[..i]) && h in Accounts(cs) ==> !h.IsHealthy(now)
  }

  lemma AccountsMore(cs: seq<Bucket>, k: nat)
    requires k < |cs|
    ensures forall h :: h in Accounts(cs[..k + 1]) <==> h in Accounts(cs[..k]) || h in cs[k].accounts || h in cs[k].fallbacks
  {
    assert cs[..k + 1] == cs[..k] + [cs[k]];
  }

  method TryAt(cs: seq<Bucket>, k: nat, now: nat) returns (r: Option<Handle>)
    requires k < |cs| && TailsApart(cs[k..])
    requires forall h :: h in Accounts(cs[..k]) ==> !h.IsHealthy(now)
    modifies cs[k].cursor, cs[k].fallbackCursor
    ensures old(FirstPick(cs[k..], now)) == if r.Some? then r else FirstPick(cs[k + 1..], now)
    ensures r.Some? ==> HealthyFrom(cs, now, k, r.value)
    ensures r.None? ==> forall h :: h in Accounts(cs[..k + 1]) ==> !h.IsHealthy(now)
  {
    assert cs[k..][0] == cs[k] && cs[k..][1..] == cs[k + 1..];
    AccountsMore(cs, k);
    r := TryFirst(cs[k..], now);
  }

  method FirstHealthy(cs: seq<Bucket>, now: nat) returns (r: Option<Handle>)
    requires TailsApart(cs)
    modifies Cursors(cs)
    ensures r == old(FirstPick(cs, now))
    ensures r.Some? ==> exists i :: 0 <= i < |cs| && HealthyFrom(cs, now, i, r.value)
    ensures r.None? ==> forall h :: h in Accounts(cs) ==> !h.IsHealthy(now)
  {
    for k := 0 to |cs|
      invariant old(FirstPick(cs, now)) == FirstPick(cs[k..], now)
      invariant TailsApart(cs[k..])
      invariant forall h :: h in Accounts(cs[..k]) ==> !h.IsHealthy(now)
    {
      assert cs[k] in cs && cs[k..][1..] == cs[k + 1..];
      r := TryAt(cs, k, now);
      if r.Some? {
        return;
      }
    }
    assert cs[..|cs|] == cs;
    r := None;
  }
}
