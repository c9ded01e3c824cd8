// What an edit of the generated profiles leaves, key by key and field by field,
// and exactly when it is refused.
module ProfileOutcome {
  import opened Wrappers
  import opened AgentProfiles

  // ---- What an edit leaves, key by key ----

  // A table recognised as generated under `profile` for the agent: it names
  // one provider, its default, and at least one account.
  predicate GeneratedUnder(i: Item, k: Name, profile: Name, agent: string) {
    && |profile| + 1 <= |k| && k[..|profile|] == profile && k[|profile|] == '-'
    && i.Table? && i.profile.agent == Some(agent) && i.profile.defaultProvider.Some?
    && i.profile.providers == Some([i.profile.defaultProvider.value])
    && i.profile.accounts.Some? && |i.profile.accounts.value| > 0
  }

  // What a rename takes away: the agent's profile of the old name, and the
  // profiles generated under it.
  predicate RenamedAway(i: Item, k: Name, w: Write) {
    && w.previous.Some? && w.previous != w.profile
    && ((k == w.previous.value && i.Table? && i.profile.agent == Some(w.agent)) || GeneratedUnder(i, k, w.previous.value, w.agent))
  }

  predicate Stays(ps: Profiles, w: Write, k: Name) {
    && k in ps && !RenamedAway(ps[k], k, w)
    && !(w.profile.Some? && k != w.profile.value && GeneratedUnder(ps[k], k, w.profile.value, w.agent))
  }

  // The keys the generator does not know are those found after the rename.
  function FoundExtra(ps: Profiles, w: Write, k: Name): map<string, string> {
    if Stays(ps, w, k) && ps[k].Table? then ps[k].profile.extra else map[]
  }

  predicate MainFields(ps: Profiles, w: Write, i: Item)
    requires w.profile.Some?
  {
    && i.Table? && i.profile.mode == Some(w.mode) && i.profile.agent == Some(w.agent)
    && i.profile.defaultProvider == w.defaultProvider && i.profile.extra == FoundExtra(ps, w, w.profile.value)
    && match w.source
       case FromAgent =>
         && (if |w.accounts| > 0 then i.profile.accounts == Some(w.accounts) else i.profile.accounts == None)
         && (if |w.providers| > 0 then i.profile.providers == Some(w.providers) else i.profile.providers == Some([w.fallback]))
       case FromMain =>
         && i.profile.accounts == None
         && (if w.mode.Passthrough? || w.mode.Switch? then
               w.defaultProvider.Some? && i.profile.providers == Some([w.defaultProvider.value])
             else i.profile.providers == if |w.materialized| > 0 then Some(w.materialized) else None)
  }

  // A route's profile, written in the modes that pass requests on unchanged.
  predicate WritesRoute(w: Write, r: ProviderRoute) {
    (w.mode.Passthrough? || w.mode.Switch?) && r in w.routes && r.account != "" && r.profile != ""
  }

  predicate RouteFields(ps: Profiles, w: Write, r: ProviderRoute, i: Item) {
    && i.Table? && i.profile.mode == Some(w.mode) && i.profile.agent == Some(w.agent)
    && RouteTable(i, w.agent, r) && i.profile.extra == FoundExtra(ps, w, r.profile)
  }

  predicate RouteTable(i: Item, agent: string, r: ProviderRoute) {
    && i.Table? && i.profile.agent == Some(agent) && i.profile.defaultProvider == Some(r.gateway)
    && i.profile.providers == Some([r.gateway]) && i.profile.accounts == Some([r.account])
  }

  lemma ChildIs(ps: Profiles, k: Name, profile: Name, agent: string)
    ensures ChildOf(ps, k, profile, agent) <==> k in ps && GeneratedUnder(ps[k], k, profile, agent)
  {
    if |profile| + 1 <= |k| {
      assert k[..|profile + "-"|] == k[..|profile|] + [k[|profile|]];
    }
  }

  lemma StaysIs(ps: Profiles, w: Write, k: Name)
    ensures k in Renamed(ps, w) <==> k in ps && !RenamedAway(ps[k], k, w)
    ensures k in Renamed(ps, w) ==> Renamed(ps, w)[k] == ps[k]
    ensures Plausible(w) && w.profile.Some? && k != w.profile.value ==>
              (k in WithMain(ps, w) <==> Stays(ps, w, k)) && (k in WithMain(ps, w) ==> WithMain(ps, w)[k] == ps[k])
  {
    RenamedAt(ps, w, k);
    if w.previous.Some? {
      ChildIs(ps, k, w.previous.value, w.agent);
    }
    if Plausible(w) && w.profile.Some? {
      ChildIs(ps, k, w.profile.value, w.agent);
      WithMainAt(ps, w, k);
    }
  }

  // The main profile, field by field.
  lemma MainProfile(ps: Profiles, w: Write)
    requires Plausible(w) && w.profile.Some? && Edited(ps, w).Ok?
    ensures w.profile.value in Edited(ps, w).value && MainFields(ps, w, Edited(ps, w).value[w.profile.value])
  {
    MainLeft(ps, w);
    StaysIs(ps, w, w.profile.value);
  }

  lemma RouteProfiles(ps: Profiles, w: Write, r: ProviderRoute)
    requires Plausible(w) && w.profile.Some? && Edited(ps, w).Ok? && WritesRoute(w, r) && r.profile != w.profile.value
    ensures r.profile in Edited(ps, w).value && RouteFields(ps, w, r, Edited(ps, w).value[r.profile])
  {
    var i :| 0 <= i < |RoutesFor(w)| && RoutesFor(w)[i] == r;
    RoutesLeave(WithMain(ps, w), w, RoutesFor(w));
    assert LeftAt(WithMain(ps, w), w, RoutesFor(w)[i], Edited(ps, w).value);
    StaysIs(ps, w, r.profile);
  }

  lemma OtherProfiles(ps: Profiles, w: Write, k: Name)
    requires Plausible(w) && Edited(ps, w).Ok? && w.profile != Some(k) && forall r :: WritesRoute(w, r) ==> r.profile != k
    ensures k in Edited(ps, w).value <==> if w.profile.Some? then Stays(ps, w, k) else k in ps && !RenamedAway(ps[k], k, w)
    ensures k in Edited(ps, w).value ==> Edited(ps, w).value[k] == ps[k]
  {
    StaysIs(ps, w, k);
    if w.profile.Some? {
      RoutesLeave(WithMain(ps, w), w, RoutesFor(w));
      if i :| 0 <= i < |RoutesFor(w)| && !Skipped(RoutesFor(w)[i]) && RoutesFor(w)[i].profile == k {
        assert WritesRoute(w, RoutesFor(w)[i]);
      }
      assert SameAt(WithMain(ps, w), Edited(ps, w).value, k);
    }
  }

  // ---- When an edit is refused ----

  // The i-th route finds its profile absent or already its own, and no
  // earlier route wants that profile for something else.
  predicate Fits(ps: Profiles, w: Write, routes: seq<ProviderRoute>, i: nat)
    requires i < |routes|
  {
    !Skipped(routes[i]) ==>
      && (routes[i].profile in ps ==> MatchesRoute(ps[routes[i].profile], w.agent, routes[i]))
      && forall j :: 0 <= j < i && !Skipped(routes[j]) && routes[j].profile == routes[i].profile ==>
           routes[j].gateway == routes[i].gateway && routes[j].account == routes[i].account
  }

  lemma FitsLater(ps: Profiles, w: Write, routes: seq<ProviderRoute>, i: nat)
    requires i + 1 < |routes| && Fits(ps, w, routes, 0)
    ensures Fits(ps, w, routes, i + 1) <==>
              Fits(if Skipped(routes[0]) then ps else Next(ps, w, routes[0]), w, routes[1..], i)
  {
    var r, rest := routes[i + 1], routes[1..];
    assert rest[i] == r && forall j :: 0 <= j < i ==> rest[j] == routes[j + 1];
    assert forall j :: 1 <= j < i + 1 ==> routes[j] == rest[j - 1];
  }

  lemma {:induction false} RoutesFit(ps: Profiles, w: Write, routes: seq<ProviderRoute>)
    ensures WithRoutes(ps, w, routes).Ok? <==> forall i :: 0 <= i < |routes| ==> Fits(ps, w, routes, i)
    decreases |routes|
  {
    if routes != [] {
      var rest := routes[1..];
      var next := if Skipped(routes[0]) then ps else Next(ps, w, routes[0]);
      if Fits(ps, w, routes, 0) {
        RoutesFit(next, w, rest);
        forall i | 0 <= i < |rest| ensures Fits(ps, w, routes, i + 1) <==> Fits(next, w, rest, i) {
          FitsLater(ps, w, routes, i);
        }
        assert forall i :: 1 <= i < |routes| ==> i - 1 < |rest| && (Fits(ps, w, routes, i) <==> Fits(next, w, rest, i - 1));
      }
    }
  }

  // No two of the routes written want one profile for different accounts.
  ghost predicate RoutesAgree(w: Write) {
    forall r, t :: WritesRoute(w, r) && WritesRoute(w, t) && r.profile == t.profile ==> r.gateway == t.gateway && r.account == t.account
  }

  // A profile a route is about to write is absent, or holds that route.
  ghost predicate RoutesFree(ps: Profiles, w: Write)
    requires Plausible(w) && w.profile.Some?
  {
    forall r :: WritesRoute(w, r) ==>
      if r.profile == w.profile.value then MainIsRoute(w, r) else Stays(ps, w, r.profile) ==> RouteTable(ps[r.profile], w.agent, r)
  }

  // The main profile just written is that of the route.
  predicate MainIsRoute(w: Write, r: ProviderRoute) {
    && w.source.FromAgent? && w.defaultProvider == Some(r.gateway)
    && (if |w.providers| > 0 then w.providers else [w.fallback]) == [r.gateway] && w.accounts == [r.account]
  }

  lemma RouteFits(ps: Profiles, w: Write, r: ProviderRoute)
    requires Plausible(w) && w.profile.Some?
    ensures var m := WithMain(ps, w);
            (r.profile in m ==> MatchesRoute(m[r.profile], w.agent, r)) <==>
              if r.profile == w.profile.value then MainIsRoute(w, r) else Stays(ps, w, r.profile) ==> RouteTable(ps[r.profile], w.agent, r)
  {
    StaysIs(ps, w, r.profile);
    WithMainAt(ps, w, r.profile);
  }

  lemma AllFit(ps: Profiles, w: Write)
    requires Plausible(w) && w.profile.Some?
    ensures (forall i :: 0 <= i < |RoutesFor(w)| ==> Fits(WithMain(ps, w), w, RoutesFor(w), i)) <==> RoutesAgree(w) && RoutesFree(ps, w)
  {
    var routes, m := RoutesFor(w), WithMain(ps, w);
    forall r | WritesRoute(w, r)
      ensures r in routes && !Skipped(r)
      ensures (r.profile in m ==> MatchesRoute(m[r.profile], w.agent, r)) <==>
                if r.profile == w.profile.value then MainIsRoute(w, r) else Stays(ps, w, r.profile) ==> RouteTable(ps[r.profile], w.agent, r) {
      RouteFits(ps, w, r);
    }
    if forall i :: 0 <= i < |routes| ==> Fits(m, w, routes, i) {
      forall r, t | WritesRoute(w, r) && WritesRoute(w, t) && r.profile == t.profile
        ensures r.gateway == t.gateway && r.account == t.account && (r.profile in m ==> MatchesRoute(m[r.profile], w.agent, r)) {
        var i :| 0 <= i < |routes| && routes[i] == r;
        var j :| 0 <= j < |routes| && routes[j] == t;
        assert Fits(m, w, routes, i) && Fits(m, w, routes, j);
      }
    }
    if RoutesAgree(w) && RoutesFree(ps, w) {
      forall i | 0 <= i < |routes| ensures Fits(m, w, routes, i) {
        assert !Skipped(routes[i]) ==> WritesRoute(w, routes[i]);
        assert forall j :: 0 <= j < i && !Skipped(routes[j]) ==> WritesRoute(w, routes[j]);
      }
    }
  }

  // Another's item has the name of the main profile.
  predicate TakenByOther(ps: Profiles, w: Write) {
    && w.profile.Some? && w.profile.value in ps && !RenamedAway(ps[w.profile.value], w.profile.value, w)
    && !(ps[w.profile.value].Table? && ps[w.profile.value].profile.agent == Some(w.agent))
  }

  // An edit is refused exactly if another's item has the main profile's name,
  // two routes disagree about a profile, or the profile of a route is taken.
  lemma RefusedExactly(ps: Profiles, w: Write)
    requires Plausible(w)
    ensures Edited(ps, w) == Err(NotOwned) <==> TakenByOther(ps, w)
    ensures Edited(ps, w).Ok? <==> !TakenByOther(ps, w) && (w.profile.Some? ==> RoutesAgree(w) && RoutesFree(ps, w))
  {
    if w.profile.Some? {
      StaysIs(ps, w, w.profile.value);
      RoutesFit(WithMain(ps, w), w, RoutesFor(w));
      AllFit(ps, w);
      OnlyMismatch(WithMain(ps, w), w, RoutesFor(w));
    }
  }

  lemma {:induction false} OnlyMismatch(ps: Profiles, w: Write, routes: seq<ProviderRoute>)
    ensures WithRoutes(ps, w, routes) != Err(NotOwned)
    decreases |routes|
  {
    if routes != [] {
      OnlyMismatch(if Skipped(routes[0]) then ps else Next(ps, w, routes[0]), w, routes[1..]);
    }
  }
}
