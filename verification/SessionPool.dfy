// The pool: sessions stay with their account while it can serve them.
module SessionPool {
  import opened Wrappers
  import opened AccountHandle
  import opened RoundRobin
  import opened AccountPool
  import opened PoolAcquire
  import opened RouteAcquire
  import Affinity

  function AccountById(accounts: seq<Handle>, id: string): Option<Handle> {
    if accounts == [] then None
    else if accounts[0].id == id then Some(accounts[0])
    else AccountById(accounts[1..], id)
  }

  // The first endpoint at which a provider matches the route, on its own.
  function MatchingEndpoint(q: Request, p: ProviderId): Option<Endpoint> {
    match Pair(q, (e: Evidence, x: Endpoint) => Matches(q.offers, q.route, p, e, x))
    case None => None
    case Some((_, x)) => Some(x)
  }

  // What the session's account can serve, if it is known, allowed and healthy.
  function Sticky(q: Request, accounts: seq<Handle>, bound: Affinity.Lookup<string>, now: nat): Option<(Handle, Endpoint)>
    reads accounts
  {
    if !bound.Hit? then None
    else match AccountById(accounts, bound.value)
      case None => None
      case Some(a) =>
        if a in accounts && Allowed(a.provider, q.allowed) && a.IsHealthy(now) then
          match MatchingEndpoint(q, a.provider) case None => None case Some(x) => Some((a, x))
        else None
  }

  class Pool {
    const accounts: seq<Handle>
    const buckets: seq<Bucket>
    const affinity: Affinity.Affinity<string>

    ghost predicate Valid() {
      Partition(buckets, accounts) && CursorsApart(buckets) && affinity.settings.ttl <= affinity.settings.retained
    }

    constructor (accounts: seq<Handle>, settings: Affinity.Settings)
      requires settings.ttl <= settings.retained
      ensures Valid() && this.accounts == accounts && affinity.settings == settings && affinity.entries == map[]
    {
      this.accounts := accounts;
      var built := FromHandles(accounts);
      buckets := built;
      affinity := new Affinity.Affinity(settings);
    }

    function Bound(session: string, now: nat): Affinity.Lookup<string>
      reads affinity
    {
      Affinity.Answer(affinity.settings, Affinity.Find(affinity.entries, session), now)
    }

    // The account a session is bound to.
    method SessionAccount(session: string, q: Request, now: nat) returns (r: Option<(Handle, Endpoint)>)
      requires Valid()
      modifies affinity
      ensures r == old(Sticky(q, accounts, Bound(session, now), now))
    {
      var bound := affinity.Lookup(session, now, now);
      r := Sticky(q, accounts, bound, now);
    }

    // The buckets, whatever the session.
    method FreshAccount(q: Request, now: nat) returns (r: Option<(Handle, Endpoint)>, ghost pair: Option<(Evidence, Endpoint)>)
      requires Valid()
      modifies Cursors(buckets)
      ensures RouteServed(q, buckets, now, r, pair)
    {
      assert Buckets(buckets);
      r, pair := AcquireFromRoute(q, buckets, now);
    }

    // The session's own account first, the buckets otherwise.
    method Choose(session: Option<string>, q: Request, now: nat)
      returns (r: Option<(Handle, Endpoint)>, ghost pair: Option<(Evidence, Endpoint)>)
      requires Valid()
      modifies affinity, Cursors(buckets)
      ensures session.Some? && old(Sticky(q, accounts, Bound(session.value, now), now)).Some? ==>
                r == old(Sticky(q, accounts, Bound(session.value, now), now))
      ensures session.None? || old(Sticky(q, accounts, Bound(session.value, now), now)).None? ==> RouteServed(q, buckets, now, r, pair)
      ensures session.Some? && old(SessionServes(q, accounts, Bound(session.value, now), now)) ==>
                r.Some? && r.value.0.id == old(Bound(session.value, now)).value && MayServe(q, r.value.0.provider, r.value.1)
      ensures session.None? || !old(SessionServes(q, accounts, Bound(session.value, now), now)) ==> RouteServed(q, buckets, now, r, pair)
      ensures r.Some? ==> r.value.0 in accounts && (q.allowed.None? || r.value.0.provider in q.allowed.value)
    {
      r := None;
      if session.Some? {
        StickyExactly(q, accounts, Bound(session.value, now), now);
        r := SessionAccount(session.value, q, now);
      }
      pair := None;
      if r.None? {
        r, pair := FreshAccount(q, now);
        if r.Some? {
          ServedMayServe(q, accounts, buckets, now, r, pair);
        }
      }
    }

    // Binding a session touches no account.
    method Bind(session: string, a: Handle, now: nat, ghost cs: seq<Bucket>)
      modifies affinity
      ensures Affinity.Find(affinity.entries, session) == Some(Affinity.Entry(a.id, now))
      ensures Best(cs, now, a) == old(Best(cs, now, a))
    {
      affinity.Record(session, a.id, now, now);
      forall h: Handle | h in Accounts(cs) + WaitingSet(cs) + {a} ensures unchanged(h) {
        assert (h as object) != affinity;
      }
    }

    // Either way the session is bound to the account that serves it.
    method AcquireForRoute(session: Option<string>, q: Request, now: nat)
      returns (r: Option<(Handle, Endpoint)>, ghost pair: Option<(Evidence, Endpoint)>)
      requires Valid()
      modifies affinity, Cursors(buckets)
      ensures session.Some? && old(SessionServes(q, accounts, Bound(session.value, now), now)) ==>
                r.Some? && r.value.0.id == old(Bound(session.value, now)).value && MayServe(q, r.value.0.provider, r.value.1)
      ensures session.None? || !old(SessionServes(q, accounts, Bound(session.value, now), now)) ==> RouteServed(q, buckets, now, r, pair)
      ensures r.Some? ==> r.value.0 in accounts && (q.allowed.None? || r.value.0.provider in q.allowed.value)
      ensures session.Some? && old(Sticky(q, accounts, Bound(session.value, now), now)).Some? ==>
                r == old(Sticky(q, accounts, Bound(session.value, now), now))
      ensures session.None? || old(Sticky(q, accounts, Bound(session.value, now), now)).None? ==> RouteServed(q, buckets, now, r, pair)
      ensures session.Some? && r.Some? ==> Affinity.Find(affinity.entries, session.value) == Some(Affinity.Entry(r.value.0.id, now))
    {
      r, pair := Choose(session, q, now);
      if session.Some? && r.Some? {
        Bind(session.value, r.value.0, now, CandidatesAt(q, buckets, pair));
      }
    }
  }

  // A request without a usable session gets the best account for the first
  // pair any allowed bucket matches, and none only without any route.
  ghost predicate RouteServed(q: Request, buckets: seq<Bucket>, now: nat, r: Option<(Handle, Endpoint)>, pair: Option<(Evidence, Endpoint)>)
    reads Accounts(CandidatesAt(q, buckets, pair)), WaitingSet(CandidatesAt(q, buckets, pair)), if r.Some? then {r.value.0} else {}
  {
    && (r.Some? <==> HasRoute(q, buckets)) && IsFirst(q, buckets, pair)
    && (r.Some? ==> pair.Some? && r.value.1 == pair.value.1 && Best(CandidatesAt(q, buckets, pair), now, r.value.0))
  }

  // ---- Who may serve ----

  // A provider the client may use that matches the route at this endpoint.
  predicate MayServe(q: Request, p: ProviderId, x: Endpoint) {
    && (q.allowed.None? || p in q.allowed.value)
    && x in EndpointOrder(q.route, q.requested)
    && exists e :: e in EvidenceOrder(q.route) && Matches(q.offers, q.route, p, e, x)
  }

  // The first account of that id.
  ghost predicate BoundAt(accounts: seq<Handle>, id: string, i: nat) {
    i < |accounts| && accounts[i].id == id && forall j :: 0 <= j < i ==> accounts[j].id != id
  }

  // The account may serve the request now: allowed, out of cooldown, matching.
  ghost predicate Usable(q: Request, a: Handle, now: nat)
    reads a
  {
    (a.cooldownUntil.None? || a.cooldownUntil.value <= now) && exists x :: MayServe(q, a.provider, x)
  }

  // The binding is live and its account may serve the request.
  ghost predicate SessionServes(q: Request, accounts: seq<Handle>, bound: Affinity.Lookup<string>, now: nat)
    reads accounts
  {
    bound.Hit? && exists i: nat :: BoundAt(accounts, bound.value, i) && Usable(q, accounts[i], now)
  }

  lemma {:induction false} ByIdIsFirst(accounts: seq<Handle>, id: string)
    ensures match AccountById(accounts, id)
            case None => forall i: nat :: !BoundAt(accounts, id, i)
            case Some(a) => exists i: nat :: BoundAt(accounts, id, i) && accounts[i] == a
  {
    if accounts != [] {
      var rest := accounts[1..];
      if accounts[0].id == id {
        assert BoundAt(accounts, id, 0);
      } else {
        ByIdIsFirst(rest, id);
        forall i: nat | BoundAt(accounts, id, i) ensures i > 0 && BoundAt(rest, id, i - 1) {
          assert forall j :: 0 <= j < i - 1 ==> rest[j] == accounts[j + 1];
        }
        if i: nat :| BoundAt(rest, id, i) && AccountById(rest, id) == Some(rest[i]) {
          assert forall j :: 0 < j < i + 1 ==> accounts[j] == rest[j - 1];
          assert BoundAt(accounts, id, i + 1);
        }
      }
    }
  }

  lemma OneBound(accounts: seq<Handle>, id: string, i: nat, j: nat)
    requires BoundAt(accounts, id, i) && BoundAt(accounts, id, j)
    ensures i == j
  {
  }

  lemma MatchingMayServe(q: Request, p: ProviderId)
    requires q.allowed.None? || p in q.allowed.value
    ensures MatchingEndpoint(q, p).Some? <==> exists x :: MayServe(q, p, x)
    ensures MatchingEndpoint(q, p).Some? ==> MayServe(q, p, MatchingEndpoint(q, p).value)
  {
    var alone: Wanted := (e: Evidence, x: Endpoint) => Matches(q.offers, q.route, p, e, x);
    FirstPairIs(alone, EvidenceOrder(q.route), EndpointOrder(q.route, q.requested));
    if x :| MayServe(q, p, x) {
      var e :| e in EvidenceOrder(q.route) && Matches(q.offers, q.route, p, e, x);
      assert alone(e, x) && !NoneWanted(alone, EvidenceOrder(q.route), EndpointOrder(q.route, q.requested));
    }
    if MatchingEndpoint(q, p).Some? {
      assert MayServe(q, p, MatchingEndpoint(q, p).value);
    }
  }

  lemma StickyExactly(q: Request, accounts: seq<Handle>, bound: Affinity.Lookup<string>, now: nat)
    ensures Sticky(q, accounts, bound, now).Some? <==> SessionServes(q, accounts, bound, now)
    ensures match Sticky(q, accounts, bound, now)
            case None => true
            case Some((a, x)) => a in accounts && a.id == bound.value && MayServe(q, a.provider, x)
  {
    if bound.Hit? {
      ByIdIsFirst(accounts, bound.value);
      if AccountById(accounts, bound.value).Some? {
        var a := AccountById(accounts, bound.value).value;
        var i: nat :| BoundAt(accounts, bound.value, i) && accounts[i] == a;
        if Allowed(a.provider, q.allowed) {
          MatchingMayServe(q, a.provider);
        }
        forall j: nat | BoundAt(accounts, bound.value, j) ensures j == i {
          OneBound(accounts, bound.value, i, j);
        }
      }
    }
  }

  // Whoever the buckets serve is one of the pool's accounts, of a candidate.
  lemma BestIsCandidate(cs: seq<Bucket>, now: nat, a: Handle)
    requires Best(cs, now, a)
    ensures exists b :: b in cs && (a in b.accounts || a in b.fallbacks)
  {
    if exists h :: h in Accounts(cs) && h.IsHealthy(now) {
      var i :| 0 <= i < |cs| && HealthyFrom(cs, now, i, a);
      assert cs[i] in cs;
    } else {
      var at :| 0 <= at < |cs| && LeastFrom(cs, at, a);
      assert cs[at] in cs && IsEarliest(Waiting(cs[at]), a);
    }
  }

  lemma ServedMayServe(q: Request, accounts: seq<Handle>, buckets: seq<Bucket>, now: nat, r: Option<(Handle, Endpoint)>, pair: Option<(Evidence, Endpoint)>)
    requires Partition(buckets, accounts) && RouteServed(q, buckets, now, r, pair) && r.Some?
    ensures r.value.0 in accounts && MayServe(q, r.value.0.provider, r.value.1)
    ensures Candidate(q, r.value.0.provider, pair.value.0, pair.value.1)
  {
    var cs := CandidatesAt(q, buckets, pair);
    BestIsCandidate(cs, now, r.value.0);
    var b :| b in cs && (r.value.0 in b.accounts || r.value.0 in b.fallbacks);
    CandidatesAre(q, buckets, pair.value.0, pair.value.1);
    assert b in buckets && Filled(b, accounts);
    TieredMembers(accounts, b.provider, Active);
    TieredMembers(accounts, b.provider, Fallback);
  }

  // ---- Sessions stick ----

  lemma {:induction false} FoundById(accounts: seq<Handle>, a: Handle)
    requires a in accounts && forall b :: b in accounts && b.id == a.id ==> b == a
    ensures AccountById(accounts, a.id) == Some(a)
  {
    if accounts[0] != a {
      assert accounts[0] in accounts && forall b :: b in accounts[1..] ==> b in accounts;
      FoundById(accounts[1..], a);
    }
  }

  // On its own the provider of a candidate for the first open pair matches
  // first at that same endpoint.
  lemma SameEndpoint(q: Request, buckets: seq<Bucket>, e: Evidence, x: Endpoint, i: nat)
    requires IsFirst(q, buckets, Some((e, x))) && i < |buckets| && Candidate(q, buckets[i].provider, e, x)
    ensures MatchingEndpoint(q, buckets[i].provider) == Some(x)
  {
    var p := buckets[i].provider;
    var alone: Wanted := (e: Evidence, x: Endpoint) => Matches(q.offers, q.route, p, e, x);
    var evidences, endpoints := EvidenceOrder(q.route), EndpointOrder(q.route, q.requested);
    forall f, y | alone(f, y) ensures Open(q, buckets)(f, y) {
      OpenMeans(q, buckets, f, y);
    }
    FirstPairIs(alone, evidences, endpoints);
    FirstOfFewer(alone, Open(q, buckets), evidences, endpoints, e, x);
  }

  // The first of many is also the first of fewer if it is among them.
  lemma FirstOfFewer(fewer: Wanted, many: Wanted, evidences: seq<Evidence>, endpoints: seq<Endpoint>, e: Evidence, x: Endpoint)
    requires forall f, y :: fewer(f, y) ==> many(f, y)
    requires IsFirstPair(many, evidences, endpoints, e, x) && fewer(e, x)
    ensures FirstPair(fewer, evidences, endpoints) == Some((e, x))
  {
    FirstPairIs(fewer, evidences, endpoints);
    assert !NoneWanted(fewer, evidences, endpoints);
    var r := FirstPair(fewer, evidences, endpoints).value;
    FirstUnique(fewer, many, evidences, endpoints, e, x, r.0, r.1);
  }

  lemma FirstUnique(fewer: Wanted, many: Wanted, evidences: seq<Evidence>, endpoints: seq<Endpoint>, e: Evidence, x: Endpoint, f: Evidence, y: Endpoint)
    requires forall g, z :: fewer(g, z) ==> many(g, z)
    requires IsFirstPair(many, evidences, endpoints, e, x) && fewer(e, x) && IsFirstPair(fewer, evidences, endpoints, f, y)
    ensures e == f && x == y
  {
    var i, j :| 0 <= i < |evidences| && evidences[i] == e && 0 <= j < |endpoints| && endpoints[j] == x && many(e, x)
      && (forall k, z :: 0 <= k < i && z in endpoints ==> !many(evidences[k], z))
      && (forall k :: 0 <= k < j ==> !many(e, endpoints[k]));
    var m, n :| 0 <= m < |evidences| && evidences[m] == f && 0 <= n < |endpoints| && endpoints[n] == y && fewer(f, y)
      && (forall k, z :: 0 <= k < m && z in endpoints ==> !fewer(evidences[k], z))
      && (forall k :: 0 <= k < n ==> !fewer(f, endpoints[k]));
    assert x in endpoints && y in endpoints;
    assert !(i < m) && !(m < i);
  }

  // A session served by the buckets is served by the same account at the same
  // endpoint again: whoever serves it is bound to it, and while the binding is
  // live and the account healthy and alone in its id, it is found to match
  // where it was acquired.
  lemma SessionSticks(pool: Pool, q: Request, e: Evidence, x: Endpoint, i: nat, a: Handle, stamp: nat, later: nat)
    requires pool.Valid() && IsFirst(q, pool.buckets, Some((e, x))) && i < |pool.buckets| && Candidate(q, pool.buckets[i].provider, e, x)
    requires a in pool.accounts && a.provider == pool.buckets[i].provider
    requires forall b :: b in pool.accounts && b.id == a.id ==> b == a
    requires stamp <= later < stamp + pool.affinity.settings.ttl && a.IsHealthy(later)
    ensures Sticky(q, pool.accounts, Affinity.Answer(pool.affinity.settings, Some(Affinity.Entry(a.id, stamp)), later), later) == Some((a, x))
  {
    FoundById(pool.accounts, a);
    SameEndpoint(q, pool.buckets, e, x, i);
  }
}
