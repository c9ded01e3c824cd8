// Publishing models under exact ids, and resolving such ids again.
module ExactIds {
  import opened Wrappers

  // The White_Space property of Unicode.
  predicate Whitespace(c: char) {
    || c == ' ' || '\t' <= c <= '\r' || c == '\U{85}' || c == '\U{A0}' || c == '\U{1680}'
    || '\U{2000}' <= c <= '\U{200A}' || c == '\U{2028}' || c == '\U{2029}' || c == '\U{202F}' || c == '\U{205F}'
    || c == '\U{3000}'
  }

  // `trim` leaves nothing.
  predicate Blank(s: string) {
    forall i :: 0 <= i < |s| ==> Whitespace(s[i])
  }

  function TrimStart(s: string): string {
    if s != [] && Whitespace(s[0]) then TrimStart(s[1..]) else s
  }

  function TrimEnd(s: string): string {
    if s != [] && Whitespace(s[|s| - 1]) then TrimEnd(s[..|s| - 1]) else s
  }

  function Trim(s: string): string {
    TrimEnd(TrimStart(s))
  }

  lemma {:induction false} TrimStartShorter(s: string)
    ensures |TrimStart(s)| <= |s|
  {
    if s != [] && Whitespace(s[0]) {
      TrimStartShorter(s[1..]);
    }
  }

  lemma {:induction false} TrimEndShorter(s: string)
    ensures |TrimEnd(s)| <= |s|
  {
    if s != [] && Whitespace(s[|s| - 1]) {
      TrimEndShorter(s[..|s| - 1]);
    }
  }

  // A trimmed, non-empty string is not blank.
  lemma TrimmedIsNotBlank(s: string)
    requires s != [] && Trim(s) == s
    ensures !Blank(s)
  {
    if Whitespace(s[0]) {
      TrimStartShorter(s[1..]);
      TrimEndShorter(TrimStart(s));
    }
  }

  // Trimming changes nothing exactly if neither end is white space.
  lemma TrimKeeps(s: string)
    ensures Trim(s) == s <==> s == [] || (!Whitespace(s[0]) && !Whitespace(s[|s| - 1]))
  {
    if s != [] && Whitespace(s[0]) {
      TrimStartShorter(s[1..]);
      TrimEndShorter(TrimStart(s));
    } else if s != [] && Whitespace(s[|s| - 1]) {
      TrimEndShorter(s[..|s| - 1]);
    }
  }

  // ---- Printing and parsing ----

  function Printed(provider: string, model: string): string {
    provider + "/" + model
  }

  datatype ResolveError = InvalidExactModel

  // The text before and after the first slash.
  function SplitOnce(s: string): Option<(string, string)> {
    if s == [] then None
    else if s[0] == '/' then Some(([], s[1..]))
    else match SplitOnce(s[1..])
      case None => None
      case Some((before, after)) => Some(([s[0]] + before, after))
  }

  function ResolveExact(requested: string): Result<(string, string), ResolveError> {
    match SplitOnce(requested)
    case None => Err(InvalidExactModel)
    case Some((provider, model)) =>
      if Blank(provider) || Blank(model) then Err(InvalidExactModel) else Ok((provider, model))
  }

  lemma {:induction false} SplitPrinted(provider: string, model: string)
    requires '/' !in provider
    ensures SplitOnce(Printed(provider, model)) == Some((provider, model))
  {
    if provider == [] {
      assert Printed(provider, model)[1..] == model;
    } else {
      assert Printed(provider, model)[1..] == Printed(provider[1..], model);
      assert provider[0] in provider && forall c :: c in provider[1..] ==> c in provider;
      SplitPrinted(provider[1..], model);
      assert [provider[0]] + provider[1..] == provider;
    }
  }

  lemma {:induction false} SplitHasNoSlash(s: string)
    ensures SplitOnce(s).Some? ==> '/' !in SplitOnce(s).value.0 && s == Printed(SplitOnce(s).value.0, SplitOnce(s).value.1)
  {
    if s != [] && s[0] != '/' {
      SplitHasNoSlash(s[1..]);
    }
  }

  // A printed id resolves to its own provider and model exactly if the
  // provider has no slash and neither is blank; model ids may have slashes.
  lemma ExactRoundTrip(provider: string, model: string)
    ensures ResolveExact(Printed(provider, model)) == Ok((provider, model))
       <==> '/' !in provider && !Blank(provider) && !Blank(model)
  {
    if '/' !in provider {
      SplitPrinted(provider, model);
    } else {
      SplitHasNoSlash(Printed(provider, model));
    }
  }

  // Conversely what resolves is the printed form of what it resolves to.
  lemma ResolvedPrints(requested: string)
    ensures ResolveExact(requested).Ok? ==> Printed(ResolveExact(requested).value.0, ResolveExact(requested).value.1) == requested
  {
    SplitHasNoSlash(requested);
  }

  lemma PrintedIsInjective(p: string, m: string, q: string, n: string)
    requires '/' !in p && '/' !in q && Printed(p, m) == Printed(q, n)
    ensures p == q && m == n
  {
    SplitPrinted(p, m);
    SplitPrinted(q, n);
  }

  // ---- Publication ----

  datatype Model = Model(id: string, name: string)
  datatype Catalogue = Catalogue(provider: string, display: string, models: seq<Model>)

  predicate Publishable(provider: string) {
    provider != [] && Trim(provider) == provider && '/' !in provider
  }

  // A route between a provider of the agent and one of the gateway; `owned` if
  // it transfers the agent's credential or names an account.
  datatype Route = Route(source: string, gateway: string, owned: bool)

  // The source stands for several gateway providers.
  predicate Ambiguous(routes: seq<Route>, source: string) {
    exists i, j :: 0 <= i < |routes| && 0 <= j < |routes| && routes[i].source == source && routes[j].source == source
      && routes[i].gateway != routes[j].gateway
  }

  predicate AllPublishable(routes: seq<Route>) {
    forall i :: 0 <= i < |routes| ==> Publishable(routes[i].source) && Publishable(routes[i].gateway)
  }

  function GatewaysOf(gateways: map<string, set<string>>, source: string): set<string> {
    if source in gateways then gateways[source] else {}
  }

  function Gateways(routes: seq<Route>, source: string): set<string> {
    set i | 0 <= i < |routes| && routes[i].source == source :: routes[i].gateway
  }

  // Collects the gateway providers of each source.
  method CollectGateways(routes: seq<Route>) returns (gateways: map<string, set<string>>)
    ensures forall s :: GatewaysOf(gateways, s) == Gateways(routes, s)
  {
    gateways := map[];
    for n := 0 to |routes|
      invariant forall s :: GatewaysOf(gateways, s) == Gateways(routes[..n], s)
    {
      var r := routes[n];
      ghost var before := gateways;
      gateways := gateways[r.source := GatewaysOf(gateways, r.source) + {r.gateway}];
      forall s ensures GatewaysOf(gateways, s) == Gateways(routes[..n + 1], s) {
        OneMoreRoute(routes, n, s);
        assert GatewaysOf(before, s) == Gateways(routes[..n], s);
      }
    }
    assert routes[..|routes|] == routes;
  }

  lemma OneMoreRoute(routes: seq<Route>, n: nat, s: string)
    requires n < |routes|
    ensures Gateways(routes[..n + 1], s) == Gateways(routes[..n], s) + (if routes[n].source == s then {routes[n].gateway} else {})
  {
    var more, fewer := routes[..n + 1], routes[..n];
    forall g | g in Gateways(fewer, s) ensures g in Gateways(more, s) {
      var i :| 0 <= i < n && fewer[i].source == s && fewer[i].gateway == g;
      assert more[i] == fewer[i];
    }
    forall g | g in Gateways(more, s) && !(routes[n].source == s && g == routes[n].gateway) ensures g in Gateways(fewer, s) {
      var i :| 0 <= i <= n && more[i].source == s && more[i].gateway == g;
      assert i < n && fewer[i] == more[i];
    }
    if routes[n].source == s {
      assert more[n] == routes[n];
    }
  }

  lemma SeveralGateways(routes: seq<Route>, source: string)
    ensures |Gateways(routes, source)| > 1 <==> Ambiguous(routes, source)
  {
    var gateways := Gateways(routes, source);
    if Ambiguous(routes, source) {
      var i, j :| 0 <= i < |routes| && 0 <= j < |routes| && routes[i].source == source && routes[j].source == source
                  && routes[i].gateway != routes[j].gateway;
      TwoMembers(gateways, routes[i].gateway, routes[j].gateway);
    }
    if |gateways| > 1 {
      var g :| g in gateways;
      assert |gateways - {g}| == |gateways| - 1;
      var h :| h in gateways - {g};
      var i :| 0 <= i < |routes| && routes[i].source == source && routes[i].gateway == g;
      var j :| 0 <= j < |routes| && routes[j].source == source && routes[j].gateway == h;
    }
  }

  lemma TwoMembers(s: set<string>, a: string, b: string)
    requires a in s && b in s && a != b
    ensures |s| > 1
  {
    assert |s - {a}| == |s| - 1;
    assert b in s - {a};
  }

  // Every provider id of a route must be publishable, and in exact mode no
  // source that is ambiguous may own a credential or an account.
  method ValidateProviderIds(routes: seq<Route>, exact: bool) returns (ok: bool)
    ensures ok <==>
              && AllPublishable(routes)
              && (exact ==> forall i :: 0 <= i < |routes| && routes[i].owned ==> !Ambiguous(routes, routes[i].source))
  {
    for i := 0 to |routes|
      invariant forall j :: 0 <= j < i ==> Publishable(routes[j].source) && Publishable(routes[j].gateway)
    {
      if !Publishable(routes[i].source) || !Publishable(routes[i].gateway) {
        return false;
      }
    }
    if !exact {
      return true;
    }
    var gateways := CollectGateways(routes);
    for i := 0 to |routes|
      invariant forall j :: 0 <= j < i && routes[j].owned ==> !Ambiguous(routes, routes[j].source)
    {
      SeveralGateways(routes, routes[i].source);
      if routes[i].owned && |GatewaysOf(gateways, routes[i].source)| > 1 {
        return false;
      }
    }
    ok := true;
  }

  // The id and name one model is published under.
  function PublishedId(exact: bool, c: Catalogue, m: Model): string {
    if exact then Printed(c.provider, m.id) else m.id
  }

  function PublishedName(exact: bool, c: Catalogue, m: Model): string {
    if exact then m.name + " (" + c.display + ")" else m.name
  }

  // The first to publish an id keeps it.
  function OrInsert(published: map<string, string>, id: string, name: string): map<string, string> {
    if id in published then published else published[id := name]
  }

  function Published(exact: bool, c: Catalogue, n: nat, published: map<string, string>): map<string, string>
    requires n <= |c.models|
  {
    if n == 0 then published
    else OrInsert(Published(exact, c, n - 1, published), PublishedId(exact, c, c.models[n - 1]), PublishedName(exact, c, c.models[n - 1]))
  }

  function PublishedAll(exact: bool, cs: seq<Catalogue>): map<string, string> {
    if cs == [] then map[]
    else
      var last := cs[|cs| - 1];
      Published(exact, last, |last.models|, PublishedAll(exact, cs[..|cs| - 1]))
  }

  method CompileShared(exact: bool, catalogues: seq<Catalogue>) returns (models: map<string, string>)
    ensures models == PublishedAll(exact, catalogues)
  {
    models := map[];
    for i := 0 to |catalogues|
      invariant models == PublishedAll(exact, catalogues[..i])
    {
      var c := catalogues[i];
      ghost var before := models;
      for j := 0 to |c.models|
        invariant models == Published(exact, c, j, before)
      {
        var id := PublishedId(exact, c, c.models[j]);
        if id !in models {
          models := models[id := PublishedName(exact, c, c.models[j])];
        }
      }
      assert catalogues[..i + 1][..i] == catalogues[..i];
    }
    assert catalogues[..|catalogues|] == catalogues;
  }

  function Total(cs: seq<Catalogue>): nat {
    if cs == [] then 0 else Total(cs[..|cs| - 1]) + |cs[|cs| - 1].models|
  }

  // Distinct providers, none with a slash, each with distinct model ids.
  predicate Distinct(cs: seq<Catalogue>) {
    && (forall i, j :: 0 <= i < j < |cs| ==> cs[i].provider != cs[j].provider)
    && (forall i :: 0 <= i < |cs| ==> '/' !in cs[i].provider && DistinctModels(cs[i].models))
  }

  predicate DistinctModels(ms: seq<Model>) {
    forall i, j :: 0 <= i < j < |ms| ==> ms[i].id != ms[j].id
  }

  // `id` is the exact id of some model of the catalogues.
  predicate Lists(cs: seq<Catalogue>, id: string) {
    exists i, j :: 0 <= i < |cs| && 0 <= j < |cs[i].models| && id == Printed(cs[i].provider, cs[i].models[j].id)
  }

  // `id` is the exact id of one of the first `n` models.
  predicate ListsFirst(c: Catalogue, n: nat, id: string)
    requires n <= |c.models|
  {
    exists j :: 0 <= j < n && id == Printed(c.provider, c.models[j].id)
  }

  lemma NextIsNew(c: Catalogue, n: nat)
    requires n < |c.models| && '/' !in c.provider && DistinctModels(c.models)
    ensures !ListsFirst(c, n, Printed(c.provider, c.models[n].id))
    ensures forall id :: ListsFirst(c, n + 1, id) <==> ListsFirst(c, n, id) || id == Printed(c.provider, c.models[n].id)
  {
    if j :| 0 <= j < n && Printed(c.provider, c.models[n].id) == Printed(c.provider, c.models[j].id) {
      PrintedIsInjective(c.provider, c.models[n].id, c.provider, c.models[j].id);
    }
  }

  lemma {:induction false} PublishedOne(c: Catalogue, n: nat, published: map<string, string>)
    requires n <= |c.models| && '/' !in c.provider && DistinctModels(c.models)
    requires forall id :: ListsFirst(c, |c.models|, id) ==> id !in published
    ensures |Published(true, c, n, published)| == |published| + n
    ensures forall id :: id in Published(true, c, n, published) <==> id in published || ListsFirst(c, n, id)
  {
    if n > 0 {
      PublishedOne(c, n - 1, published);
      NextIsNew(c, n - 1);
      var before, id := Published(true, c, n - 1, published), Printed(c.provider, c.models[n - 1].id);
      assert ListsFirst(c, |c.models|, id);
      Grown(before, id, PublishedName(true, c, c.models[n - 1]));
    }
  }

  lemma Grown(published: map<string, string>, id: string, name: string)
    requires id !in published
    ensures |published[id := name]| == |published| + 1
  {
    assert published[id := name].Keys == published.Keys + {id};
    assert |published.Keys| == |published| && |published[id := name].Keys| == |published[id := name]|;
  }

  // Exact publication never merges two models, and publishes nothing else.
  lemma {:induction false} ExactNeverMerges(cs: seq<Catalogue>)
    requires Distinct(cs)
    ensures |PublishedAll(true, cs)| == Total(cs)
    ensures forall id :: id in PublishedAll(true, cs) <==> Lists(cs, id)
  {
    if cs != [] {
      var before, last := cs[..|cs| - 1], cs[|cs| - 1];
      ExactNeverMerges(before);
      forall id | ListsFirst(last, |last.models|, id) ensures id !in PublishedAll(true, before) {
        if Lists(before, id) {
          var j :| 0 <= j < |last.models| && id == Printed(last.provider, last.models[j].id);
          var i, k :| 0 <= i < |before| && 0 <= k < |before[i].models| && id == Printed(before[i].provider, before[i].models[k].id);
          PrintedIsInjective(last.provider, last.models[j].id, before[i].provider, before[i].models[k].id);
        }
      }
      PublishedOne(last, |last.models|, PublishedAll(true, before));
      forall id ensures Lists(cs, id) <==> Lists(before, id) || ListsFirst(last, |last.models|, id) {
        ListsMore(cs, id);
      }
    }
  }

  lemma ListsMore(cs: seq<Catalogue>, id: string)
    requires cs != []
    ensures var before, last := cs[..|cs| - 1], cs[|cs| - 1];
            Lists(cs, id) <==> Lists(before, id) || ListsFirst(last, |last.models|, id)
  {
    var before, last := cs[..|cs| - 1], cs[|cs| - 1];
    if i, j :| 0 <= i < |cs| && 0 <= j < |cs[i].models| && id == Printed(cs[i].provider, cs[i].models[j].id) {
      if i < |before| {
        assert before[i] == cs[i];
      }
    }
    if i, j :| 0 <= i < |before| && 0 <= j < |before[i].models| && id == Printed(before[i].provider, before[i].models[j].id) {
      assert cs[i] == before[i];
    }
    if j :| 0 <= j < |last.models| && id == Printed(last.provider, last.models[j].id) {
      assert cs[|cs| - 1].models[j] == last.models[j];
    }
  }

  // ---- Who keeps an id, in every mode ----

  // The j-th model of the i-th catalogue is published under `id`.
  predicate Offered(exact: bool, cs: seq<Catalogue>, i: nat, j: nat, id: string) {
    && i < |cs| && j < |cs[i].models|
    && id == if exact then cs[i].provider + "/" + cs[i].models[j].id else cs[i].models[j].id
  }

  // None before it is.
  ghost predicate FirstOffered(exact: bool, cs: seq<Catalogue>, i: nat, j: nat, id: string) {
    && Offered(exact, cs, i, j, id)
    && (forall k: nat, l: nat :: Offered(exact, cs, k, l, id) ==> i < k || (i == k && j <= l))
  }

  predicate NamedAfter(exact: bool, c: Catalogue, m: Model, name: string) {
    name == if exact then m.name + " (" + c.display + ")" else m.name
  }

  predicate OfferedIn(exact: bool, c: Catalogue, n: nat, j: nat, id: string) {
    j < n <= |c.models| && id == if exact then c.provider + "/" + c.models[j].id else c.models[j].id
  }

  ghost predicate FirstIn(exact: bool, c: Catalogue, n: nat, j: nat, id: string) {
    OfferedIn(exact, c, n, j, id) && forall l: nat :: l < j ==> !OfferedIn(exact, c, n, l, id)
  }

  lemma OfferedNext(exact: bool, c: Catalogue, k: nat, id: string)
    requires k < |c.models|
    ensures forall j: nat :: OfferedIn(exact, c, k, j, id) ==> OfferedIn(exact, c, k + 1, j, id)
    ensures forall j: nat :: j < k && OfferedIn(exact, c, k + 1, j, id) ==> OfferedIn(exact, c, k, j, id)
    ensures OfferedIn(exact, c, k + 1, k, id) <==> id == PublishedId(exact, c, c.models[k])
  {
  }

  // Within one catalogue: what was published stays ...
  lemma {:induction false} CatalogueAdds(exact: bool, c: Catalogue, n: nat, published: map<string, string>, id: string)
    requires n <= |c.models|
    ensures id in Published(exact, c, n, published) <==> id in published || exists j: nat :: OfferedIn(exact, c, n, j, id)
    ensures id in published ==> Published(exact, c, n, published)[id] == published[id]
  {
    if n > 0 {
      var k := n - 1;
      CatalogueAdds(exact, c, k, published, id);
      OfferedNext(exact, c, k, id);
      if j: nat :| OfferedIn(exact, c, n, j, id) {
        assert j < k ==> OfferedIn(exact, c, k, j, id);
      }
    }
  }

  // ... and of the rest the first model of an id names it.
  lemma {:induction false} CatalogueNames(exact: bool, c: Catalogue, n: nat, published: map<string, string>, id: string, j: nat)
    requires n <= |c.models| && id !in published && FirstIn(exact, c, n, j, id)
    ensures id in Published(exact, c, n, published) && NamedAfter(exact, c, c.models[j], Published(exact, c, n, published)[id])
  {
    var k := n - 1;
    CatalogueAdds(exact, c, k, published, id);
    OfferedNext(exact, c, k, id);
    if j < k {
      CatalogueNames(exact, c, k, published, id, j);
    }
  }

  lemma OfferedLast(exact: bool, cs: seq<Catalogue>, id: string)
    requires cs != []
    ensures var before, c := cs[..|cs| - 1], cs[|cs| - 1];
            && (forall i: nat, j: nat :: i < |before| ==> (Offered(exact, cs, i, j, id) <==> Offered(exact, before, i, j, id)))
            && (forall j: nat :: Offered(exact, cs, |before|, j, id) <==> OfferedIn(exact, c, |c.models|, j, id))
  {
  }

  // An id is published exactly if some model has it ...
  lemma {:induction false} PublishedIfOffered(exact: bool, cs: seq<Catalogue>, id: string)
    ensures id in PublishedAll(exact, cs) <==> exists i: nat, j: nat :: Offered(exact, cs, i, j, id)
  {
    if cs != [] {
      var before, c := cs[..|cs| - 1], cs[|cs| - 1];
      PublishedIfOffered(exact, before, id);
      CatalogueAdds(exact, c, |c.models|, PublishedAll(exact, before), id);
      OfferedLast(exact, cs, id);
      if i: nat, j: nat :| Offered(exact, before, i, j, id) {
        assert Offered(exact, cs, i, j, id);
      }
      if j: nat :| OfferedIn(exact, c, |c.models|, j, id) {
        assert Offered(exact, cs, |before|, j, id);
      }
    }
  }

  // ... under the name of the first one in the order of providers and models.
  lemma {:induction false} FirstPublisherKeeps(exact: bool, cs: seq<Catalogue>, id: string, i: nat, j: nat)
    requires FirstOffered(exact, cs, i, j, id)
    ensures id in PublishedAll(exact, cs) && NamedAfter(exact, cs[i], cs[i].models[j], PublishedAll(exact, cs)[id])
  {
    var before, c := cs[..|cs| - 1], cs[|cs| - 1];
    OfferedLast(exact, cs, id);
    CatalogueAdds(exact, c, |c.models|, PublishedAll(exact, before), id);
    PublishedIfOffered(exact, before, id);
    if i < |before| {
      forall k: nat, l: nat | Offered(exact, before, k, l, id) ensures i < k || (i == k && j <= l) {
        assert Offered(exact, cs, k, l, id);
      }
      FirstPublisherKeeps(exact, before, id, i, j);
    } else {
      forall k: nat, l: nat ensures !Offered(exact, before, k, l, id) {
        assert Offered(exact, before, k, l, id) ==> Offered(exact, cs, k, l, id);
      }
      forall l: nat | l < j ensures !OfferedIn(exact, c, |c.models|, l, id) {
        assert OfferedIn(exact, c, |c.models|, l, id) ==> Offered(exact, cs, i, l, id);
      }
      CatalogueNames(exact, c, |c.models|, PublishedAll(exact, before), id, j);
    }
  }

  // Every id published in exact mode resolves to its own provider and model.
  lemma PublishedResolves(cs: seq<Catalogue>, id: string)
    requires Distinct(cs) && id in PublishedAll(true, cs)
    requires forall i :: 0 <= i < |cs| ==> Publishable(cs[i].provider) && forall j :: 0 <= j < |cs[i].models| ==> !Blank(cs[i].models[j].id)
    ensures exists i, j :: 0 <= i < |cs| && 0 <= j < |cs[i].models| && ResolveExact(id) == Ok((cs[i].provider, cs[i].models[j].id))
  {
    ExactNeverMerges(cs);
    var i, j :| 0 <= i < |cs| && 0 <= j < |cs[i].models| && id == Printed(cs[i].provider, cs[i].models[j].id);
    TrimmedIsNotBlank(cs[i].provider);
    ExactRoundTrip(cs[i].provider, cs[i].models[j].id);
  }
}
