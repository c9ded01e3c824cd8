// Choosing an account for a route: buckets of accounts by provider, tiers,
// cooldowns and session affinity.
module AccountPool {
  import opened Wrappers
  import opened AccountHandle
  import opened RoundRobin
  import Affinity

  // ---- Routes ----

  datatype Endpoint = ChatCompletions | Responses | Messages
  datatype Mode = Exact | Route | FuzzyMode | Passthrough | Switch
  datatype Selector = Any | Provider(id: ProviderId) | Model | Fuzzy(candidates: seq<string>)
  datatype Resolution = Resolution(mode: Mode, selector: Selector, upstreamModel: string)
  datatype Evidence = Required | Ignored

  // What the providers offer; a function of the provider id.
  datatype Offers = Offers(supports: (ProviderId, string, Endpoint) -> bool, hasEndpoint: (ProviderId, string, Endpoint) -> bool)

  predicate Verbatim(m: Mode) {
    m.Passthrough? || m.Switch?
  }

  function EvidenceOrder(route: Resolution): seq<Evidence> {
    if Verbatim(route.mode) || route.selector.Provider? then [Ignored]
    else if route.selector.Fuzzy? then [Required]
    else [Required, Ignored]
  }

  function FallbackOrder(requested: Endpoint): seq<Endpoint> {
    match requested
    case ChatCompletions => [ChatCompletions, Responses, Messages]
    case Responses => [Responses, ChatCompletions, Messages]
    case Messages => [Messages, ChatCompletions, Responses]
  }

  function EndpointOrder(route: Resolution, requested: Endpoint): seq<Endpoint> {
    if Verbatim(route.mode) then [requested] else FallbackOrder(requested)
  }

  function Supports(o: Offers, route: Resolution, p: ProviderId, model: string, evidence: Evidence, endpoint: Endpoint): bool {
    match evidence
    case Required => o.supports(p, model, endpoint)
    case Ignored => o.hasEndpoint(p, route.upstreamModel, endpoint)
  }

  predicate Matches(o: Offers, route: Resolution, p: ProviderId, evidence: Evidence, endpoint: Endpoint) {
    match route.selector
    case Any => Supports(o, route, p, route.upstreamModel, evidence, endpoint)
    case Provider(id) => p == id && Supports(o, route, p, route.upstreamModel, evidence, endpoint)
    case Model => Supports(o, route, p, route.upstreamModel, evidence, endpoint)
    case Fuzzy(candidates) => exists c :: c in candidates && Supports(o, route, p, c, evidence, endpoint)
  }

  predicate Allowed(p: ProviderId, allowed: Option<set<ProviderId>>) {
    match allowed case None => true case Some(ps) => p in ps
  }

  // ---- Buckets ----

  // The accounts of one provider, by tier, each tier with its own cursor.
  datatype Bucket = Bucket(provider: ProviderId, accounts: seq<Handle>, cursor: Cursor,
                           fallbacks: seq<Handle>, fallbackCursor: Cursor)

  function Tiered(accounts: seq<Handle>, p: ProviderId, tier: Tier): seq<Handle> {
    if accounts == [] then []
    else (if accounts[0].provider == p && accounts[0].tier == tier then [accounts[0]] else []) + Tiered(accounts[1..], p, tier)
  }

  lemma {:induction false} TieredAppend(accounts: seq<Handle>, a: Handle, p: ProviderId, tier: Tier)
    ensures Tiered(accounts + [a], p, tier)
         == Tiered(accounts, p, tier) + (if a.provider == p && a.tier == tier then [a] else [])
  {
    if accounts == [] {
      assert accounts + [a] == [a];
    } else {
      assert (accounts + [a])[1..] == accounts[1..] + [a];
      TieredAppend(accounts[1..], a, p, tier);
    }
  }

  lemma {:induction false} TieredMembers(accounts: seq<Handle>, p: ProviderId, tier: Tier)
    ensures forall a :: a in Tiered(accounts, p, tier) <==> a in accounts && a.provider == p && a.tier == tier
  {
    if accounts != [] {
      TieredMembers(accounts[1..], p, tier);
      assert forall a :: a in accounts <==> a == accounts[0] || a in accounts[1..];
    }
  }

  predicate Sorted(buckets: seq<Bucket>) {
    forall i, j :: 0 <= i < j < |buckets| ==> buckets[i].provider < buckets[j].provider
  }

  // No two tiers share a cursor.
  ghost predicate CursorsApart(buckets: seq<Bucket>) {
    && (forall b :: b in buckets ==> b.cursor != b.fallbackCursor)
    && (forall b, c :: b in buckets && c in buckets && b.provider != c.provider ==>
          {b.cursor, b.fallbackCursor} !! {c.cursor, c.fallbackCursor})
  }

  // The buckets partition the accounts by provider and tier, in provider
  // order, and none is empty.
  ghost predicate Partition(buckets: seq<Bucket>, accounts: seq<Handle>) {
    Sorted(buckets) && (forall b :: b in buckets ==> Filled(b, accounts)) && Housed(buckets, accounts)
  }

  predicate Filled(b: Bucket, accounts: seq<Handle>) {
    && b.accounts == Tiered(accounts, b.provider, Active)
    && b.fallbacks == Tiered(accounts, b.provider, Fallback)
    && b.accounts + b.fallbacks != []
  }

  ghost predicate Housed(buckets: seq<Bucket>, accounts: seq<Handle>) {
    forall a :: a in accounts ==> exists b :: b in buckets && b.provider == a.provider
  }

  function CursorSet(buckets: seq<Bucket>): set<Cursor> {
    (set b | b in buckets :: b.cursor) + (set b | b in buckets :: b.fallbackCursor)
  }

  function WithAccount(b: Bucket, a: Handle): Bucket {
    if a.tier == Active then b.(accounts := b.accounts + [a]) else b.(fallbacks := b.fallbacks + [a])
  }

  // The position of provider `p`, or where it would be inserted.
  method Position(buckets: seq<Bucket>, p: ProviderId) returns (k: nat, found: bool)
    requires Sorted(buckets)
    ensures k <= |buckets| && (found ==> k < |buckets| && buckets[k].provider == p)
    ensures forall j :: 0 <= j < k ==> buckets[j].provider < p
    ensures !found ==> forall j :: k <= j < |buckets| ==> p < buckets[j].provider
  {
    k := 0;
    while k < |buckets| && buckets[k].provider < p
      invariant 0 <= k <= |buckets|
      invariant forall j :: 0 <= j < k ==> buckets[j].provider < p
    {
      k := k + 1;
    }
    found := k < |buckets| && buckets[k].provider == p;
  }

  // A bucket with its first account.
  method NewBucket(a: Handle) returns (b: Bucket)
    ensures b.provider == a.provider && fresh(b.cursor) && fresh(b.fallbackCursor) && b.cursor != b.fallbackCursor
    ensures b.accounts == (if a.tier == Active then [a] else []) && b.fallbacks == (if a.tier == Active then [] else [a])
  {
    var cursor := new Cursor();
    var fallbackCursor := new Cursor();
    b := WithAccount(Bucket(a.provider, [], cursor, [], fallbackCursor), a);
  }

  function InsertedAt(buckets: seq<Bucket>, k: nat, b: Bucket): seq<Bucket>
    requires k <= |buckets|
  {
    buckets[..k] + [b] + buckets[k..]
  }

  // Adds one account to the buckets built so far.
  method Add(buckets: seq<Bucket>, ghost accounts: seq<Handle>, a: Handle) returns (more: seq<Bucket>)
    requires Partition(buckets, accounts) && CursorsApart(buckets)
    ensures Partition(more, accounts + [a]) && CursorsApart(more)
    ensures forall c :: c in CursorSet(more) ==> c in CursorSet(buckets) || fresh(c)
  {
    var k, found := Position(buckets, a.provider);
    if found {
      Extended(buckets, accounts, a, k);
      ExtendedCursors(buckets, k, WithAccount(buckets[k], a));
      return buckets[k := WithAccount(buckets[k], a)];
    }
    more := AddBucket(buckets, accounts, a, k);
  }

  // Adds the bucket of a new provider at its place.
  method AddBucket(buckets: seq<Bucket>, ghost accounts: seq<Handle>, a: Handle, k: nat) returns (more: seq<Bucket>)
    requires Partition(buckets, accounts) && CursorsApart(buckets) && k <= |buckets|
    requires forall j :: 0 <= j < k ==> buckets[j].provider < a.provider
    requires forall j :: k <= j < |buckets| ==> a.provider < buckets[j].provider
    ensures Partition(more, accounts + [a]) && CursorsApart(more)
    ensures forall c :: c in CursorSet(more) ==> c in CursorSet(buckets) || fresh(c)
  {
    ghost var before := CursorSet(buckets);
    var b := NewBucket(a);
    more := InsertedAt(buckets, k, b);
    assert {b.cursor, b.fallbackCursor} !! before;
    Opened(buckets, accounts, a, k, b);
  }

  lemma Opened(buckets: seq<Bucket>, accounts: seq<Handle>, a: Handle, k: nat, b: Bucket)
    requires Partition(buckets, accounts) && CursorsApart(buckets) && k <= |buckets|
    requires forall j :: 0 <= j < k ==> buckets[j].provider < a.provider
    requires forall j :: k <= j < |buckets| ==> a.provider < buckets[j].provider
    requires b.provider == a.provider && b.accounts == (if a.tier == Active then [a] else []) && b.fallbacks == (if a.tier == Active then [] else [a])
    requires b.cursor != b.fallbackCursor && {b.cursor, b.fallbackCursor} !! CursorSet(buckets)
    ensures var more := InsertedAt(buckets, k, b);
            && Partition(more, accounts + [a]) && CursorsApart(more)
            && CursorSet(more) == CursorSet(buckets) + {b.cursor, b.fallbackCursor}
  {
    Inserted(buckets, accounts, a, k, b);
    InsertedCursors(buckets, k, b);
  }

  method FromHandles(accounts: seq<Handle>) returns (buckets: seq<Bucket>)
    ensures Partition(buckets, accounts) && CursorsApart(buckets)
    ensures forall c :: c in CursorSet(buckets) ==> fresh(c)
  {
    buckets := [];
    for i := 0 to |accounts|
      invariant Partition(buckets, accounts[..i]) && CursorsApart(buckets)
      invariant forall c :: c in CursorSet(buckets) ==> fresh(c)
    {
      assert accounts[..i + 1] == accounts[..i] + [accounts[i]];
      buckets := Add(buckets, accounts[..i], accounts[i]);
    }
    assert accounts[..|accounts|] == accounts;
  }

  lemma ExtendedCursors(buckets: seq<Bucket>, k: nat, b: Bucket)
    requires k < |buckets| && CursorsApart(buckets)
    requires b.provider == buckets[k].provider && b.cursor == buckets[k].cursor && b.fallbackCursor == buckets[k].fallbackCursor
    ensures CursorsApart(buckets[k := b]) && CursorSet(buckets[k := b]) <= CursorSet(buckets)
  {
    assert forall x :: x in buckets[k := b] ==> x == b || x in buckets;
    assert buckets[k] in buckets;
  }

  lemma InsertedCursors(buckets: seq<Bucket>, k: nat, b: Bucket)
    requires k <= |buckets| && CursorsApart(buckets) && b.cursor != b.fallbackCursor
    requires {b.cursor, b.fallbackCursor} !! CursorSet(buckets)
    ensures CursorsApart(buckets[..k] + [b] + buckets[k..])
    ensures CursorSet(buckets[..k] + [b] + buckets[k..]) == CursorSet(buckets) + {b.cursor, b.fallbackCursor}
  {
    InsertedMembers(buckets, k, b);
  }

  // An account of a known provider joins its bucket.
  lemma Extended(buckets: seq<Bucket>, accounts: seq<Handle>, a: Handle, k: nat)
    requires Partition(buckets, accounts) && k < |buckets| && buckets[k].provider == a.provider
    ensures Partition(buckets[k := WithAccount(buckets[k], a)], accounts + [a])
  {
    var more := buckets[k := WithAccount(buckets[k], a)];
    forall b | b in more ensures Filled(b, accounts + [a]) {
      var i :| 0 <= i < |more| && more[i] == b;
      assert buckets[i] in buckets;
      TieredAppend(accounts, a, b.provider, Active);
      TieredAppend(accounts, a, b.provider, Fallback);
    }
    forall x | x in accounts + [a] ensures exists b :: b in more && b.provider == x.provider {
      if x in accounts {
        var b :| b in buckets && b.provider == x.provider;
        var i :| 0 <= i < |buckets| && buckets[i] == b;
        assert more[i] in more && more[i].provider == x.provider;
      } else {
        assert more[k] in more;
      }
    }
  }

  lemma StillFilled(x: Bucket, accounts: seq<Handle>, a: Handle)
    requires Filled(x, accounts) && x.provider != a.provider
    ensures Filled(x, accounts + [a])
  {
    TieredAppend(accounts, a, x.provider, Active);
    TieredAppend(accounts, a, x.provider, Fallback);
  }

  lemma FirstFilled(buckets: seq<Bucket>, accounts: seq<Handle>, a: Handle, b: Bucket)
    requires Housed(buckets, accounts) && forall x :: x in buckets ==> x.provider != a.provider
    requires b.provider == a.provider && b.accounts == (if a.tier == Active then [a] else []) && b.fallbacks == (if a.tier == Active then [] else [a])
    ensures Filled(b, accounts + [a])
  {
    NewProvider(buckets, accounts, a.provider, Active);
    NewProvider(buckets, accounts, a.provider, Fallback);
    TieredAppend(accounts, a, a.provider, Active);
    TieredAppend(accounts, a, a.provider, Fallback);
  }

  lemma StillHoused(buckets: seq<Bucket>, more: seq<Bucket>, accounts: seq<Handle>, a: Handle, b: Bucket)
    requires Housed(buckets, accounts) && b in more && b.provider == a.provider && forall x :: x in buckets ==> x in more
    ensures Housed(more, accounts + [a])
  {
    forall x | x in accounts + [a] ensures exists c :: c in more && c.provider == x.provider {
      if x in accounts {
        var c :| c in buckets && c.provider == x.provider;
        assert c in more;
      }
    }
  }

  // The first account of a provider opens its bucket.
  lemma Inserted(buckets: seq<Bucket>, accounts: seq<Handle>, a: Handle, k: nat, b: Bucket)
    requires Partition(buckets, accounts) && k <= |buckets|
    requires forall j :: 0 <= j < k ==> buckets[j].provider < a.provider
    requires forall j :: k <= j < |buckets| ==> a.provider < buckets[j].provider
    requires b.provider == a.provider && b.accounts == (if a.tier == Active then [a] else []) && b.fallbacks == (if a.tier == Active then [] else [a])
    ensures Partition(buckets[..k] + [b] + buckets[k..], accounts + [a])
  {
    InsertedSorted(buckets, k, b);
    InsertedMembers(buckets, k, b);
    NotThere(buckets, k, a.provider);
    FirstFilled(buckets, accounts, a, b);
    forall x | x in buckets ensures Filled(x, accounts + [a]) {
      StillFilled(x, accounts, a);
    }
    StillHoused(buckets, buckets[..k] + [b] + buckets[k..], accounts, a, b);
  }

  lemma InsertedMembers(buckets: seq<Bucket>, k: nat, b: Bucket)
    requires k <= |buckets|
    ensures forall x :: x in buckets[..k] + [b] + buckets[k..] <==> x in buckets || x == b
  {
  }

  lemma NotThere(buckets: seq<Bucket>, k: nat, p: ProviderId)
    requires k <= |buckets|
    requires forall j :: 0 <= j < k ==> buckets[j].provider < p
    requires forall j :: k <= j < |buckets| ==> p < buckets[j].provider
    ensures forall x :: x in buckets ==> x.provider != p
  {
  }

  lemma InsertedSorted(buckets: seq<Bucket>, k: nat, b: Bucket)
    requires Sorted(buckets) && k <= |buckets|
    requires forall j :: 0 <= j < k ==> buckets[j].provider < b.provider
    requires forall j :: k <= j < |buckets| ==> b.provider < buckets[j].provider
    ensures Sorted(buckets[..k] + [b] + buckets[k..])
  {
  }

  lemma NewProvider(buckets: seq<Bucket>, accounts: seq<Handle>, p: ProviderId, tier: Tier)
    requires Housed(buckets, accounts) && forall b :: b in buckets ==> b.provider != p
    ensures Tiered(accounts, p, tier) == []
  {
    NoneTiered(accounts, p, tier);
  }

  lemma {:induction false} NoneTiered(accounts: seq<Handle>, p: ProviderId, tier: Tier)
    requires forall a :: a in accounts ==> a.provider != p
    ensures Tiered(accounts, p, tier) == []
  {
    if accounts != [] {
      NoneTiered(accounts[1..], p, tier);
      assert accounts[0] in accounts;
    }
  }
}
