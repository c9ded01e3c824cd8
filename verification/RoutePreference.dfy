// What a served route is worth, said in terms of what the providers offer
// instead of the order in which the pool tries them.
module RoutePreference {
  import opened Wrappers
  import opened AccountHandle
  import opened AccountPool
  import opened RouteAcquire
  import opened SessionPool

  // The provider knows the model, or for a fuzzy route one of its candidates.
  predicate Knows(q: Request, p: ProviderId, x: Endpoint) {
    match q.route.selector
    case Fuzzy(candidates) => exists c :: c in candidates && q.offers.supports(p, c, x)
    case _ => q.offers.supports(p, q.route.upstreamModel, x)
  }

  // The provider has the endpoint, whether it knows the model or not.
  predicate Has(q: Request, p: ProviderId, x: Endpoint) {
    q.offers.hasEndpoint(p, q.route.upstreamModel, x)
  }

  predicate Permitted(q: Request, p: ProviderId) {
    && (q.allowed.None? || p in q.allowed.value)
    && (q.route.selector.Provider? ==> p == q.route.selector.id)
    && (q.route.selector.Fuzzy? ==> q.route.selector.candidates != [])
  }

  // A mode that passes the request on unchanged keeps its endpoint; an explicit
  // provider need not know the model; a fuzzy one must.
  predicate Reaches(q: Request, p: ProviderId, x: Endpoint) {
    && Permitted(q, p)
    && if q.route.mode.Passthrough? || q.route.mode.Switch? then x == q.requested && Has(q, p, x)
       else if q.route.selector.Provider? then Has(q, p, x)
       else if q.route.selector.Fuzzy? then Knows(q, p, x)
       else Knows(q, p, x) || Has(q, p, x)
  }

  function Rank(x: Endpoint): nat {
    match x case ChatCompletions => 0 case Responses => 1 case Messages => 2
  }

  // The requested endpoint comes first, the others in their fixed order.
  predicate Before(requested: Endpoint, y: Endpoint, x: Endpoint) {
    y != x && (y == requested || (x != requested && Rank(y) < Rank(x)))
  }

  lemma EndpointsInOrder(q: Request)
    ensures var xs := EndpointOrder(q.route, q.requested);
            && (forall i, j :: 0 <= i < j < |xs| ==> Before(q.requested, xs[i], xs[j]))
            && (forall x: Endpoint :: x in xs <==> x == q.requested || !(q.route.mode.Passthrough? || q.route.mode.Switch?))
  {
  }

  // A later endpoint in the order is not before an earlier one.
  lemma EarlierInOrder(q: Request, i: nat, y: Endpoint)
    requires i < |EndpointOrder(q.route, q.requested)| && y in EndpointOrder(q.route, q.requested)
    requires Before(q.requested, y, EndpointOrder(q.route, q.requested)[i])
    ensures exists k :: 0 <= k < i && EndpointOrder(q.route, q.requested)[k] == y
  {
    EndpointsInOrder(q);
    var xs := EndpointOrder(q.route, q.requested);
    var k :| 0 <= k < |xs| && xs[k] == y;
    assert k != i && !(i < k && Before(q.requested, xs[i], xs[k]));
  }

  // Matching with and without evidence, in terms of the offers.
  lemma MatchMeans(q: Request, p: ProviderId, x: Endpoint)
    ensures Candidate(q, p, Required, x) <==> Permitted(q, p) && Knows(q, p, x)
    ensures Candidate(q, p, Ignored, x) <==> Permitted(q, p) && Has(q, p, x)
  {
    if q.route.selector.Fuzzy? && q.route.selector.candidates != [] {
      assert q.route.selector.candidates[0] in q.route.selector.candidates;
    }
  }

  lemma EvidenceTried(q: Request)
    ensures Ignored in EvidenceOrder(q.route) <==> !q.route.selector.Fuzzy? || q.route.mode.Passthrough? || q.route.mode.Switch?
    ensures Required in EvidenceOrder(q.route) <==> !q.route.selector.Provider? && !q.route.mode.Passthrough? && !q.route.mode.Switch?
    ensures var es := EvidenceOrder(q.route);
            forall i, j :: 0 <= i < |es| && 0 <= j < |es| && es[i].Required? && es[j].Ignored? ==> i < j
  {
  }

  // There is a route exactly if some provider reaches some endpoint.
  lemma RouteExists(q: Request, buckets: seq<Bucket>)
    ensures HasRoute(q, buckets) <==> exists i, x :: 0 <= i < |buckets| && Reaches(q, buckets[i].provider, x)
  {
    EndpointsInOrder(q);
    EvidenceTried(q);
    forall i, x | 0 <= i < |buckets|
      ensures Candidate(q, buckets[i].provider, Required, x) <==> Permitted(q, buckets[i].provider) && Knows(q, buckets[i].provider, x)
      ensures Candidate(q, buckets[i].provider, Ignored, x) <==> Permitted(q, buckets[i].provider) && Has(q, buckets[i].provider, x) {
      MatchMeans(q, buckets[i].provider, x);
    }
    if i, x :| 0 <= i < |buckets| && Reaches(q, buckets[i].provider, x) {
      MatchMeans(q, buckets[i].provider, x);
      Reached(q, buckets[i].provider, x);
    }
    if HasRoute(q, buckets) {
      var e, x, i :| e in EvidenceOrder(q.route) && x in EndpointOrder(q.route, q.requested)
        && 0 <= i < |buckets| && Candidate(q, buckets[i].provider, e, x);
      assert Reaches(q, buckets[i].provider, x);
    }
  }

  lemma Reached(q: Request, p: ProviderId, x: Endpoint)
    requires Reaches(q, p, x)
    ensures x in EndpointOrder(q.route, q.requested)
    ensures exists e :: e in EvidenceOrder(q.route) && Candidate(q, p, e, x)
  {
    MatchMeans(q, p, x);
    EvidenceTried(q);
    EndpointsInOrder(q);
    if Required in EvidenceOrder(q.route) && Knows(q, p, x) {
      assert Candidate(q, p, Required, x);
    } else {
      assert Candidate(q, p, Ignored, x);
    }
  }

  // No provider does better than `p` at `x`: none knows the model if `p` does
  // not, and none does as well at an endpoint that comes before.
  ghost predicate BestRoute(q: Request, buckets: seq<Bucket>, p: ProviderId, x: Endpoint) {
    && Reaches(q, p, x)
    && (forall i, y :: 0 <= i < |buckets| && Reaches(q, buckets[i].provider, y) && Before(q.requested, y, x) ==>
          Knows(q, p, x) && !Knows(q, buckets[i].provider, y) && Tested(q))
    && (Tested(q) && !Knows(q, p, x) ==>
          forall i, y :: 0 <= i < |buckets| && Reaches(q, buckets[i].provider, y) ==> !Knows(q, buckets[i].provider, y))
  }

  // Knowing the model counts.
  predicate Tested(q: Request) {
    !q.route.selector.Provider? && !q.route.mode.Passthrough? && !q.route.mode.Switch?
  }

  // Where the first open pair stands in the two orders.
  ghost predicate FirstAt(q: Request, buckets: seq<Bucket>, e: Evidence, x: Endpoint, m: nat, n: nat) {
    var evidences, xs := EvidenceOrder(q.route), EndpointOrder(q.route, q.requested);
    && m < |evidences| && evidences[m] == e && n < |xs| && xs[n] == x
    && (forall k, y :: 0 <= k < m && y in xs ==> !Open(q, buckets)(evidences[k], y))
    && (forall k :: 0 <= k < n ==> !Open(q, buckets)(e, xs[k]))
  }

  lemma FirstStands(q: Request, buckets: seq<Bucket>, e: Evidence, x: Endpoint) returns (m: nat, n: nat)
    requires IsFirst(q, buckets, Some((e, x)))
    ensures FirstAt(q, buckets, e, x, m, n)
  {
    var evidences, xs := EvidenceOrder(q.route), EndpointOrder(q.route, q.requested);
    m, n :| 0 <= m < |evidences| && evidences[m] == e && 0 <= n < |xs| && xs[n] == x && Open(q, buckets)(e, x)
      && (forall k, y :: 0 <= k < m && y in xs ==> !Open(q, buckets)(evidences[k], y))
      && (forall k :: 0 <= k < n ==> !Open(q, buckets)(e, xs[k]));
  }

  // Evidence is tried first: without it no provider knows the model anywhere.
  lemma NoneKnows(q: Request, buckets: seq<Bucket>, x: Endpoint, m: nat, n: nat, i: nat, y: Endpoint)
    requires FirstAt(q, buckets, Ignored, x, m, n) && Tested(q) && i < |buckets| && Reaches(q, buckets[i].provider, y)
    ensures !Knows(q, buckets[i].provider, y)
  {
    EvidenceTried(q);
    Reached(q, buckets[i].provider, y);
    MatchMeans(q, buckets[i].provider, y);
    var k :| 0 <= k < |EvidenceOrder(q.route)| && EvidenceOrder(q.route)[k] == Required;
    assert k < m && !Open(q, buckets)(EvidenceOrder(q.route)[k], y);
    OpenMeans(q, buckets, Required, y);
  }

  lemma NoneBefore(q: Request, buckets: seq<Bucket>, e: Evidence, x: Endpoint, m: nat, n: nat, i: nat, y: Endpoint)
    requires FirstAt(q, buckets, e, x, m, n) && i < |buckets| && Reaches(q, buckets[i].provider, y) && Before(q.requested, y, x)
    ensures e.Required? && !Knows(q, buckets[i].provider, y) && Tested(q)
  {
    EvidenceTried(q);
    Reached(q, buckets[i].provider, y);
    MatchMeans(q, buckets[i].provider, y);
    EarlierInOrder(q, n, y);
    OpenMeans(q, buckets, e, y);
    assert e in EvidenceOrder(q.route);
    if e.Ignored? && Tested(q) {
      NoneKnows(q, buckets, x, m, n, i, y);
    }
  }

  lemma FirstIsBest(q: Request, buckets: seq<Bucket>, e: Evidence, x: Endpoint, p: ProviderId)
    requires IsFirst(q, buckets, Some((e, x))) && Candidate(q, p, e, x)
    ensures BestRoute(q, buckets, p, x)
  {
    EvidenceTried(q);
    EndpointsInOrder(q);
    MatchMeans(q, p, x);
    var m, n := FirstStands(q, buckets, e, x);
    assert e in EvidenceOrder(q.route) && x in EndpointOrder(q.route, q.requested);
    forall i, y | 0 <= i < |buckets| && Reaches(q, buckets[i].provider, y) && Before(q.requested, y, x)
      ensures Knows(q, p, x) && !Knows(q, buckets[i].provider, y) && Tested(q) {
      NoneBefore(q, buckets, e, x, m, n, i, y);
    }
    forall i, y | Tested(q) && !Knows(q, p, x) && 0 <= i < |buckets| && Reaches(q, buckets[i].provider, y)
      ensures !Knows(q, buckets[i].provider, y) {
      NoneKnows(q, buckets, x, m, n, i, y);
    }
  }

  // So whoever the buckets serve is on a best route.
  lemma ServedBest(q: Request, accounts: seq<Handle>, buckets: seq<Bucket>, now: nat, r: Option<(Handle, Endpoint)>, pair: Option<(Evidence, Endpoint)>)
    requires Partition(buckets, accounts) && RouteServed(q, buckets, now, r, pair)
    ensures r.Some? <==> exists i, x :: 0 <= i < |buckets| && Reaches(q, buckets[i].provider, x)
    ensures r.Some? ==> BestRoute(q, buckets, r.value.0.provider, r.value.1)
  {
    RouteExists(q, buckets);
    if r.Some? {
      ServedMayServe(q, accounts, buckets, now, r, pair);
      FirstIsBest(q, buckets, pair.value.0, pair.value.1, r.value.0.provider);
    }
  }

  // A session serves what reaches, no more and no less.
  lemma MayServeReaches(q: Request, p: ProviderId, x: Endpoint)
    ensures MayServe(q, p, x) <==> Reaches(q, p, x)
  {
    EvidenceTried(q);
    EndpointsInOrder(q);
    MatchMeans(q, p, x);
    if Reaches(q, p, x) {
      Reached(q, p, x);
    }
    if MayServe(q, p, x) {
      var e :| e in EvidenceOrder(q.route) && Matches(q.offers, q.route, p, e, x);
      assert Candidate(q, p, e, x);
    }
  }
}
