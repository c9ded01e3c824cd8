// Acquiring an account for a routed request: evidence and endpoints in order
// of preference, then the session's account or the best of the buckets.
module RouteAcquire {
  import opened Wrappers
  import opened AccountHandle
  import opened RoundRobin
  import opened AccountPool
  import opened PoolAcquire
  import Affinity

  // A request: the resolved route, the endpoint asked for, the providers the
  // client may use, and what the providers offer.
  datatype Request = Request(route: Resolution, requested: Endpoint, allowed: Option<set<ProviderId>>, offers: Offers)

  predicate Candidate(q: Request, p: ProviderId, evidence: Evidence, endpoint: Endpoint) {
    Allowed(p, q.allowed) && Matches(q.offers, q.route, p, evidence, endpoint)
  }

  function Kept(buckets: seq<Bucket>, keep: ProviderId -> bool): seq<Bucket> {
    if buckets == [] then []
    else (if keep(buckets[0].provider) then [buckets[0]] else []) + Kept(buckets[1..], keep)
  }

  lemma {:induction false} KeptAre(buckets: seq<Bucket>, keep: ProviderId -> bool)
    ensures forall k :: 0 <= k < |Kept(buckets, keep)| ==> Kept(buckets, keep)[k] in buckets && keep(Kept(buckets, keep)[k].provider)
    ensures forall i :: 0 <= i < |buckets| && keep(buckets[i].provider) ==> buckets[i] in Kept(buckets, keep)
  {
    if buckets != [] {
      KeptAre(buckets[1..], keep);
      assert forall i :: 1 <= i < |buckets| ==> buckets[i] == buckets[1..][i - 1];
    }
  }

  lemma {:induction false} KeptSorted(buckets: seq<Bucket>, keep: ProviderId -> bool)
    requires Sorted(buckets)
    ensures Sorted(Kept(buckets, keep))
  {
    if buckets != [] {
      var rest := buckets[1..];
      KeptSorted(rest, keep);
      KeptAre(rest, keep);
      var later := Kept(rest, keep);
      forall k | 0 <= k < |later| ensures buckets[0].provider < later[k].provider {
        var j :| 0 <= j < |rest| && rest[j] == later[k];
        assert buckets[j + 1] == later[k];
      }
    }
  }

  function Candidates(q: Request, buckets: seq<Bucket>, evidence: Evidence, endpoint: Endpoint): seq<Bucket> {
    Kept(buckets, (p: ProviderId) => Candidate(q, p, evidence, endpoint))
  }

  lemma CandidatesAre(q: Request, buckets: seq<Bucket>, evidence: Evidence, endpoint: Endpoint)
    ensures var cs := Candidates(q, buckets, evidence, endpoint);
            && (forall k :: 0 <= k < |cs| ==> cs[k] in buckets && Candidate(q, cs[k].provider, evidence, endpoint))
            && (forall i :: 0 <= i < |buckets| && Candidate(q, buckets[i].provider, evidence, endpoint) ==> buckets[i] in cs)
            && (Sorted(buckets) ==> Sorted(cs))
  {
    KeptAre(buckets, (p: ProviderId) => Candidate(q, p, evidence, endpoint));
    if Sorted(buckets) {
      KeptSorted(buckets, (p: ProviderId) => Candidate(q, p, evidence, endpoint));
    }
  }

  predicate HasRoute(q: Request, buckets: seq<Bucket>) {
    exists evidence, endpoint, i ::
      && evidence in EvidenceOrder(q.route) && endpoint in EndpointOrder(q.route, q.requested)
      && 0 <= i < |buckets| && Candidate(q, buckets[i].provider, evidence, endpoint)
  }

  // ---- The first pair of evidence and endpoint in order of preference ----

  type Wanted = (Evidence, Endpoint) -> bool

  function FirstEndpoint(wanted: Wanted, e: Evidence, endpoints: seq<Endpoint>): Option<Endpoint> {
    if endpoints == [] then None
    else if wanted(e, endpoints[0]) then Some(endpoints[0])
    else FirstEndpoint(wanted, e, endpoints[1..])
  }

  function FirstPair(wanted: Wanted, evidences: seq<Evidence>, endpoints: seq<Endpoint>): Option<(Evidence, Endpoint)> {
    if evidences == [] then None
    else match FirstEndpoint(wanted, evidences[0], endpoints)
      case Some(p) => Some((evidences[0], p))
      case None => FirstPair(wanted, evidences[1..], endpoints)
  }

  // The nested search.
  method FindPair(wanted: Wanted, evidences: seq<Evidence>, endpoints: seq<Endpoint>) returns (pair: Option<(Evidence, Endpoint)>)
    ensures pair == FirstPair(wanted, evidences, endpoints)
  {
    for i := 0 to |evidences|
      invariant FirstPair(wanted, evidences, endpoints) == FirstPair(wanted, evidences[i..], endpoints)
    {
      assert evidences[i..][0] == evidences[i] && evidences[i..][1..] == evidences[i + 1..];
      for j := 0 to |endpoints|
        invariant FirstEndpoint(wanted, evidences[i], endpoints) == FirstEndpoint(wanted, evidences[i], endpoints[j..])
      {
        assert endpoints[j..][0] == endpoints[j] && endpoints[j..][1..] == endpoints[j + 1..];
        if wanted(evidences[i], endpoints[j]) {
          return Some((evidences[i], endpoints[j]));
        }
      }
    }
    pair := None;
  }

  lemma {:induction false} FirstEndpointIs(wanted: Wanted, e: Evidence, endpoints: seq<Endpoint>)
    ensures var r := FirstEndpoint(wanted, e, endpoints);
            && (r.None? <==> forall p :: p in endpoints ==> !wanted(e, p))
            && (r.Some? ==> exists i :: 0 <= i < |endpoints| && endpoints[i] == r.value && wanted(e, r.value)
                                     && forall k :: 0 <= k < i ==> !wanted(e, endpoints[k]))
  {
    if endpoints != [] && !wanted(e, endpoints[0]) {
      var rest := endpoints[1..];
      FirstEndpointIs(wanted, e, rest);
      assert forall p :: p in endpoints <==> p == endpoints[0] || p in rest;
      var r := FirstEndpoint(wanted, e, rest);
      if r.Some? {
        var i :| 0 <= i < |rest| && rest[i] == r.value && wanted(e, r.value) && forall k :: 0 <= k < i ==> !wanted(e, rest[k]);
        assert endpoints[i + 1] == r.value;
        forall k | 0 <= k < i + 1 ensures !wanted(e, endpoints[k]) {
          assert k > 0 ==> endpoints[k] == rest[k - 1];
        }
      }
    }
  }

  // `e` and `p` are the lexicographically first wanted pair.
  ghost predicate IsFirstPair(wanted: Wanted, evidences: seq<Evidence>, endpoints: seq<Endpoint>, e: Evidence, p: Endpoint) {
    exists i, j ::
      && 0 <= i < |evidences| && evidences[i] == e && 0 <= j < |endpoints| && endpoints[j] == p && wanted(e, p)
      && (forall k, x :: 0 <= k < i && x in endpoints ==> !wanted(evidences[k], x))
      && (forall k :: 0 <= k < j ==> !wanted(e, endpoints[k]))
  }

  ghost predicate NoneWanted(wanted: Wanted, evidences: seq<Evidence>, endpoints: seq<Endpoint>) {
    forall e, p :: e in evidences && p in endpoints ==> !wanted(e, p)
  }

  lemma {:induction false} FirstPairIs(wanted: Wanted, evidences: seq<Evidence>, endpoints: seq<Endpoint>)
    ensures var r := FirstPair(wanted, evidences, endpoints);
            && (r.None? <==> NoneWanted(wanted, evidences, endpoints))
            && (r.Some? ==> IsFirstPair(wanted, evidences, endpoints, r.value.0, r.value.1))
  {
    if evidences != [] {
      var rest := evidences[1..];
      FirstEndpointIs(wanted, evidences[0], endpoints);
      FirstPairIs(wanted, rest, endpoints);
      assert forall e :: e in evidences <==> e == evidences[0] || e in rest;
      var r := FirstPair(wanted, rest, endpoints);
      if FirstEndpoint(wanted, evidences[0], endpoints).None? && r.Some? {
        LaterPair(wanted, evidences, endpoints, r.value.0, r.value.1);
      }
    }
  }

  lemma LaterPair(wanted: Wanted, evidences: seq<Evidence>, endpoints: seq<Endpoint>, e: Evidence, p: Endpoint)
    requires evidences != [] && IsFirstPair(wanted, evidences[1..], endpoints, e, p)
    requires forall x :: x in endpoints ==> !wanted(evidences[0], x)
    ensures IsFirstPair(wanted, evidences, endpoints, e, p)
  {
    var rest := evidences[1..];
    var i, j :| 0 <= i < |rest| && rest[i] == e && 0 <= j < |endpoints| && endpoints[j] == p && wanted(e, p)
      && (forall k, x :: 0 <= k < i && x in endpoints ==> !wanted(rest[k], x))
      && (forall k :: 0 <= k < j ==> !wanted(e, endpoints[k]));
    assert evidences[i + 1] == e;
    forall k, x | 0 <= k < i + 1 && x in endpoints ensures !wanted(evidences[k], x) {
      assert k > 0 ==> evidences[k] == rest[k - 1];
    }
  }

  // Some bucket is a candidate for the pair.
  function Open(q: Request, buckets: seq<Bucket>): Wanted {
    (e: Evidence, p: Endpoint) => Candidates(q, buckets, e, p) != []
  }

  function Pair(q: Request, wanted: Wanted): Option<(Evidence, Endpoint)> {
    FirstPair(wanted, EvidenceOrder(q.route), EndpointOrder(q.route, q.requested))
  }

  lemma OpenMeans(q: Request, buckets: seq<Bucket>, e: Evidence, p: Endpoint)
    ensures Open(q, buckets)(e, p) <==> exists i :: 0 <= i < |buckets| && Candidate(q, buckets[i].provider, e, p)
  {
    CandidatesAre(q, buckets, e, p);
    var cs := Candidates(q, buckets, e, p);
    if cs != [] {
      var i :| 0 <= i < |buckets| && buckets[i] == cs[0];
    }
  }

  // `pair` is the first open pair; there is none only without any route.
  ghost predicate IsFirst(q: Request, buckets: seq<Bucket>, pair: Option<(Evidence, Endpoint)>) {
    match pair
    case None => !HasRoute(q, buckets)
    case Some((e, p)) =>
      HasRoute(q, buckets) && IsFirstPair(Open(q, buckets), EvidenceOrder(q.route), EndpointOrder(q.route, q.requested), e, p)
  }

  lemma PairIsFirst(q: Request, buckets: seq<Bucket>)
    ensures IsFirst(q, buckets, Pair(q, Open(q, buckets)))
  {
    FirstPairIs(Open(q, buckets), EvidenceOrder(q.route), EndpointOrder(q.route, q.requested));
    forall e, p ensures Open(q, buckets)(e, p) <==> exists i :: 0 <= i < |buckets| && Candidate(q, buckets[i].provider, e, p) {
      OpenMeans(q, buckets, e, p);
    }
  }

  // ---- Acquisition from the buckets ----

  // What the candidates `cs` serve, given their first pick: that pick, or
  // without a healthy account the one of least cooldown.
  ghost predicate Served(cs: seq<Bucket>, picked: Option<Handle>, r: Option<Handle>)
    reads WaitingSet(cs), if r.Some? then {r.value} else {}
  {
    if cs == [] then r == None
    else if picked.Some? then r == picked
    else r.Some? && LeastCooldown(cs, r.value)
  }

  // Whatever the cursors: a healthy account if any candidate has one, else
  // the one whose cooldown ends first.
  ghost predicate Best(cs: seq<Bucket>, now: nat, a: Handle)
    reads Accounts(cs), WaitingSet(cs), a
  {
    if exists h :: h in Accounts(cs) && h.IsHealthy(now) then exists i :: 0 <= i < |cs| && HealthyFrom(cs, now, i, a)
    else LeastCooldown(cs, a)
  }

  // One attempt over the candidates of a pair.
  method Attempt(cs: seq<Bucket>, now: nat) returns (r: Option<Handle>)
    requires TailsApart(cs) && NoneEmpty(cs)
    modifies Cursors(cs)
    ensures Served(cs, old(FirstPick(cs, now)), r)
    ensures r.Some? ==> Best(cs, now, r.value)
  {
    r := FirstHealthy(cs, now);
    if r.None? {
      r := LeastOf(cs);
    }
  }

  ghost predicate Buckets(buckets: seq<Bucket>) {
    Sorted(buckets) && CursorsApart(buckets) && NoneEmpty(buckets)
  }

  lemma CandidatesReady(q: Request, buckets: seq<Bucket>, e: Evidence, p: Endpoint)
    requires Buckets(buckets)
    ensures var cs := Candidates(q, buckets, e, p); TailsApart(cs) && NoneEmpty(cs)
  {
    CandidatesAre(q, buckets, e, p);
    var cs := Candidates(q, buckets, e, p);
    forall b | b in cs ensures b in buckets {
      var k :| 0 <= k < |cs| && cs[k] == b;
    }
    ApartInTails(cs);
  }

  function CandidatesAt(q: Request, buckets: seq<Bucket>, pair: Option<(Evidence, Endpoint)>): seq<Bucket> {
    match pair case None => [] case Some((e, p)) => Candidates(q, buckets, e, p)
  }

  function AccountOf(r: Option<(Handle, Endpoint)>): Option<Handle> {
    match r case Some((a, _)) => Some(a) case None => None
  }

  lemma CursorsWithin(q: Request, buckets: seq<Bucket>, e: Evidence, p: Endpoint)
    ensures Cursors(Candidates(q, buckets, e, p)) <= Cursors(buckets)
  {
    CandidatesAre(q, buckets, e, p);
    var cs := Candidates(q, buckets, e, p);
    forall b | b in cs ensures b in buckets {
      var k :| 0 <= k < |cs| && cs[k] == b;
    }
  }

  // The buckets serve the lexicographically first pair that any allowed one
  // matches, and fail only if there is no route at all.
  method AcquireFromRoute(q: Request, buckets: seq<Bucket>, now: nat)
    returns (r: Option<(Handle, Endpoint)>, ghost pair: Option<(Evidence, Endpoint)>)
    requires Buckets(buckets)
    modifies Cursors(buckets)
    ensures IsFirst(q, buckets, pair) && (pair.Some? ==> r.Some? && r.value.1 == pair.value.1)
    ensures Served(CandidatesAt(q, buckets, pair), old(FirstPick(CandidatesAt(q, buckets, pair), now)), AccountOf(r))
    ensures r.Some? ==> Best(CandidatesAt(q, buckets, pair), now, r.value.0)
  {
    PairIsFirst(q, buckets);
    var found := Pair(q, Open(q, buckets));
    pair := found;
    if found.None? {
      return None, pair;
    }
    CandidatesReady(q, buckets, found.value.0, found.value.1);
    CursorsWithin(q, buckets, found.value.0, found.value.1);
    var a := Attempt(Candidates(q, buckets, found.value.0, found.value.1), now);
    r := match a case Some(h) => Some((h, found.value.1)) case None => None;
  }
}
