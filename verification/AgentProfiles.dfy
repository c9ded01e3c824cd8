// Regenerating the profiles an agent owns in a configuration document.
module AgentProfiles {
  import opened Wrappers

  type Name = string
  datatype Mode = Passthrough | Switch | Exact | Route | Fuzzy

  // The keys the generator knows, and whatever else the table holds.
  datatype Profile = Profile(mode: Option<Mode>, agent: Option<string>, defaultProvider: Option<string>,
                             providers: Option<seq<string>>, accounts: Option<seq<string>>, extra: map<string, string>)

  datatype Item = Table(profile: Profile) | Other

  type Profiles = map<Name, Item>

  datatype ProviderRoute = ProviderRoute(profile: Name, gateway: string, account: string)

  datatype Source = FromAgent | FromMain

  // `providers` are the sorted, distinct providers of the accounts.
  datatype Write = Write(agent: string, previous: Option<Name>, profile: Option<Name>, mode: Mode,
                         defaultProvider: Option<string>, source: Source, accounts: seq<string>, providers: seq<string>,
                         fallback: string, materialized: seq<string>, routes: seq<ProviderRoute>)

  datatype Error = NotOwned | RouteMismatch

  const EMPTY: Profile := Profile(None, None, None, None, None, map[])

  predicate Verbatim(m: Mode) {
    m.Passthrough? || m.Switch?
  }

  // A verbatim profile on main accounts is planned with a provider.
  predicate Plausible(w: Write) {
    w.source.FromMain? && Verbatim(w.mode) ==> w.defaultProvider.Some?
  }

  predicate Owned(i: Item, agent: string) {
    i.Table? && i.profile.agent == Some(agent)
  }

  // ---- Removal ----

  predicate HasPrefix(s: Name, prefix: Name) {
    |prefix| <= |s| && s[..|prefix|] == prefix
  }

  predicate ChildShaped(i: Item, agent: string) {
    && Owned(i, agent) && i.profile.defaultProvider.Some?
    && i.profile.providers == Some([i.profile.defaultProvider.value])
    && i.profile.accounts.Some? && i.profile.accounts.value != []
  }

  predicate ChildOf(ps: Profiles, k: Name, profile: Name, agent: string) {
    k in ps && HasPrefix(k, profile + "-") && ChildShaped(ps[k], agent)
  }

  function RemoveChildren(ps: Profiles, profile: Name, agent: string): Profiles {
    map k | k in ps && !ChildOf(ps, k, profile, agent) :: ps[k]
  }

  function RemoveMaterialized(ps: Profiles, profile: Name, agent: string): Profiles {
    RemoveChildren(if profile in ps && Owned(ps[profile], agent) then ps - {profile} else ps, profile, agent)
  }

  // ---- The main profile ----

  function Existing(ps: Profiles, k: Name): Profile {
    if k in ps && ps[k].Table? then ps[k].profile else EMPTY
  }

  function Upserted(p: Profile, w: Write): Profile
    requires Plausible(w)
  {
    var q := p.(mode := Some(w.mode), agent := Some(w.agent), defaultProvider := w.defaultProvider);
    match w.source
    case FromMain =>
      q.(accounts := None,
         providers := if Verbatim(w.mode) then Some([w.defaultProvider.value])
                      else if w.materialized != [] then Some(w.materialized) else None)
    case FromAgent =>
      q.(providers := Some(if w.providers == [] then [w.fallback] else w.providers),
         accounts := if w.accounts == [] then None else Some(w.accounts))
  }

  // ---- One profile per provider route, in the verbatim modes ----

  predicate Skipped(r: ProviderRoute) {
    r.account == "" || r.profile == ""
  }

  predicate MatchesRoute(i: Item, agent: string, r: ProviderRoute) {
    && Owned(i, agent) && i.profile.defaultProvider == Some(r.gateway)
    && i.profile.providers == Some([r.gateway]) && i.profile.accounts == Some([r.account])
  }

  function RouteProfile(p: Profile, w: Write, r: ProviderRoute): Profile {
    Profile(Some(w.mode), Some(w.agent), Some(r.gateway), Some([r.gateway]), Some([r.account]), p.extra)
  }

  function WithRoutes(ps: Profiles, w: Write, routes: seq<ProviderRoute>): Result<Profiles, Error>
    decreases |routes|
  {
    if routes == [] then Ok(ps)
    else
      var r := routes[0];
      if Skipped(r) then WithRoutes(ps, w, routes[1..])
      else if r.profile in ps && !MatchesRoute(ps[r.profile], w.agent, r) then Err(RouteMismatch)
      else WithRoutes(ps[r.profile := Table(RouteProfile(Existing(ps, r.profile), w, r))], w, routes[1..])
  }

  // ---- The whole edit ----

  function Renamed(ps: Profiles, w: Write): Profiles {
    if w.previous.Some? && w.previous != w.profile then RemoveMaterialized(ps, w.previous.value, w.agent) else ps
  }

  // The profiles before the routes are added.
  function WithMain(ps: Profiles, w: Write): Profiles
    requires Plausible(w) && w.profile.Some?
  {
    var p, before := w.profile.value, Renamed(ps, w);
    RemoveChildren(before[p := Table(Upserted(Existing(before, p), w))], p, w.agent)
  }

  function RoutesFor(w: Write): seq<ProviderRoute> {
    if Verbatim(w.mode) then w.routes else []
  }

  function Edited(ps: Profiles, w: Write): Result<Profiles, Error>
    requires Plausible(w)
  {
    if w.profile.None? then Ok(Renamed(ps, w))
    else if w.profile.value in Renamed(ps, w) && !Owned(Renamed(ps, w)[w.profile.value], w.agent) then Err(NotOwned)
    else WithRoutes(WithMain(ps, w), w, RoutesFor(w))
  }

  // The document as it is edited in place.
  class Document {
    var profiles: Profiles
    var legacyAgents: bool

    constructor (profiles: Profiles, legacyAgents: bool)
      ensures this.profiles == profiles && this.legacyAgents == legacyAgents
    {
      this.profiles, this.legacyAgents := profiles, legacyAgents;
    }

    method RemoveAgentProfiles(profile: Name, agent: string)
      modifies this`profiles
      ensures profiles == RemoveChildren(old(profiles), profile, agent)
    {
      profiles := map k | k in profiles && !(HasPrefix(k, profile + "-") && ChildShaped(profiles[k], agent)) :: profiles[k];
    }

    method RemoveMaterializedProfile(profile: Name, agent: string)
      modifies this`profiles
      ensures profiles == RemoveMaterialized(old(profiles), profile, agent)
    {
      if profile in profiles && Owned(profiles[profile], agent) {
        profiles := profiles - {profile};
      }
      RemoveAgentProfiles(profile, agent);
    }

    method UpsertRoutes(w: Write) returns (r: Option<Error>)
      modifies this`profiles
      ensures WithRoutes(old(profiles), w, w.routes) == if r.Some? then Err(r.value) else Ok(profiles)
    {
      for i := 0 to |w.routes|
        invariant WithRoutes(old(profiles), w, w.routes) == WithRoutes(profiles, w, w.routes[i..])
      {
        var route := w.routes[i];
        assert w.routes[i..][0] == route && w.routes[i..][1..] == w.routes[i + 1..];
        if Skipped(route) {
          continue;
        }
        if route.profile in profiles && !MatchesRoute(profiles[route.profile], w.agent, route) {
          return Some(RouteMismatch);
        }
        profiles := profiles[route.profile := Table(RouteProfile(Existing(profiles, route.profile), w, route))];
      }
      r := None;
    }

    method EditProfiles(w: Write) returns (r: Option<Error>)
      requires Plausible(w)
      modifies this
      ensures !legacyAgents
      ensures Edited(old(profiles), w) == if r.Some? then Err(r.value) else Ok(profiles)
    {
      legacyAgents := false;
      if w.previous.Some? && w.previous != w.profile {
        RemoveMaterializedProfile(w.previous.value, w.agent);
      }
      if w.profile.None? {
        return None;
      }
      var p := w.profile.value;
      if p in profiles && !Owned(profiles[p], w.agent) {
        return Some(NotOwned);
      }
      profiles := profiles[p := Table(Upserted(Existing(profiles, p), w))];
      RemoveAgentProfiles(p, w.agent);
      r := None;
      if Verbatim(w.mode) && w.routes != [] {
        r := UpsertRoutes(w);
      }
    }
  }

  // ---- Profiles of others are never touched ----

  predicate SameAt(a: Profiles, b: Profiles, k: Name) {
    (k in a <==> k in b) && (k in a ==> a[k] == b[k])
  }

  // Where `after` differs from `before`, the agent owned what was there and owns what is there now.
  ghost predicate OnlyOwnChanged(before: Profiles, after: Profiles, agent: string) {
    forall k ::
      || SameAt(before, after, k)
      || ((k in before ==> Owned(before[k], agent)) && (k in after ==> Owned(after[k], agent)))
  }

  lemma OwnTransitive(a: Profiles, b: Profiles, c: Profiles, agent: string)
    requires OnlyOwnChanged(a, b, agent) && OnlyOwnChanged(b, c, agent)
    ensures OnlyOwnChanged(a, c, agent)
  {
  }

  lemma {:induction false} RoutesOwn(ps: Profiles, w: Write, routes: seq<ProviderRoute>)
    ensures WithRoutes(ps, w, routes).Ok? ==> OnlyOwnChanged(ps, WithRoutes(ps, w, routes).value, w.agent)
    decreases |routes|
  {
    if routes != [] && WithRoutes(ps, w, routes).Ok? {
      var r := routes[0];
      if Skipped(r) {
        RoutesOwn(ps, w, routes[1..]);
      } else {
        var next := ps[r.profile := Table(RouteProfile(Existing(ps, r.profile), w, r))];
        RoutesOwn(next, w, routes[1..]);
        OwnTransitive(ps, next, WithRoutes(ps, w, routes).value, w.agent);
      }
    }
  }

  // Across renames and mode changes, no profile the agent does not own is
  // changed, added or removed.
  lemma OthersKept(ps: Profiles, w: Write)
    requires Plausible(w) && Edited(ps, w).Ok?
    ensures OnlyOwnChanged(ps, Edited(ps, w).value, w.agent)
  {
    assert OnlyOwnChanged(ps, Renamed(ps, w), w.agent);
    if w.profile.Some? {
      OwnTransitive(ps, Renamed(ps, w), WithMain(ps, w), w.agent);
      RoutesOwn(WithMain(ps, w), w, RoutesFor(w));
      OwnTransitive(ps, WithMain(ps, w), Edited(ps, w).value, w.agent);
    }
  }

  // ---- Running the edit again ----

  predicate RouteKey(routes: seq<ProviderRoute>, k: Name) {
    exists i :: 0 <= i < |routes| && !Skipped(routes[i]) && routes[i].profile == k
  }

  // `i` is what the route writes, whatever else the table holds.
  predicate WrittenBy(i: Item, w: Write, r: ProviderRoute) {
    i.Table? && i.profile == RouteProfile(i.profile, w, r)
  }

  // What a successful run leaves: its routes' profiles as written, extra keys
  // only where they were before, everything else as it was.
  ghost predicate Left(ps: Profiles, w: Write, routes: seq<ProviderRoute>, after: Profiles) {
    && (forall i :: 0 <= i < |routes| && !Skipped(routes[i]) ==> LeftAt(ps, w, routes[i], after))
    && (forall k :: !RouteKey(routes, k) ==> SameAt(ps, after, k))
  }

  predicate LeftAt(ps: Profiles, w: Write, r: ProviderRoute, after: Profiles) {
    && r.profile in after && WrittenBy(after[r.profile], w, r)
    && after[r.profile].profile.extra == Existing(ps, r.profile).extra
    && (r.profile in ps ==> MatchesRoute(ps[r.profile], w.agent, r))
  }

  function Next(ps: Profiles, w: Write, r: ProviderRoute): Profiles {
    ps[r.profile := Table(RouteProfile(Existing(ps, r.profile), w, r))]
  }

  // Later routes with the profile of `r` must be the same route again.
  lemma HeadLeft(ps: Profiles, w: Write, r: ProviderRoute, rest: seq<ProviderRoute>, after: Profiles)
    requires Left(Next(ps, w, r), w, rest, after) && (r.profile in ps ==> MatchesRoute(ps[r.profile], w.agent, r))
    ensures LeftAt(ps, w, r, after)
  {
    if RouteKey(rest, r.profile) {
      var i :| 0 <= i < |rest| && !Skipped(rest[i]) && rest[i].profile == r.profile;
      assert LeftAt(Next(ps, w, r), w, rest[i], after);
    } else {
      assert SameAt(Next(ps, w, r), after, r.profile);
    }
  }

  // An earlier route does not change what a later one leaves.
  lemma TailLeft(ps: Profiles, w: Write, r: ProviderRoute, q: ProviderRoute, after: Profiles)
    requires LeftAt(Next(ps, w, r), w, q, after) && (r.profile in ps ==> MatchesRoute(ps[r.profile], w.agent, r))
    ensures LeftAt(ps, w, q, after)
  {
  }

  lemma {:induction false} RoutesLeave(ps: Profiles, w: Write, routes: seq<ProviderRoute>)
    requires WithRoutes(ps, w, routes).Ok?
    ensures Left(ps, w, routes, WithRoutes(ps, w, routes).value)
    decreases |routes|
  {
    if routes != [] {
      var r, rest, after := routes[0], routes[1..], WithRoutes(ps, w, routes).value;
      assert forall i :: 1 <= i < |routes| ==> routes[i] == rest[i - 1];
      RoutesLeave(if Skipped(r) then ps else Next(ps, w, r), w, rest);
      if !Skipped(r) {
        HeadLeft(ps, w, r, rest, after);
        forall i | 0 <= i < |rest| && !Skipped(rest[i]) ensures LeftAt(ps, w, rest[i], after) {
          TailLeft(ps, w, r, rest[i], after);
        }
      }
      forall k | !RouteKey(routes, k) ensures SameAt(ps, after, k) {
        assert !RouteKey(rest, k);
      }
    }
  }

  // The result is `after` for every start that differs from it only in lacking
  // some of the routes' profiles, where `after` has no extra keys.
  ghost predicate Toward(ps: Profiles, routes: seq<ProviderRoute>, after: Profiles) {
    forall k :: SameAt(ps, after, k) || (RouteKey(routes, k) && k !in ps && k in after && after[k].Table? && after[k].profile.extra == map[])
  }

  lemma {:induction false} RoutesLeadTo(ps: Profiles, w: Write, routes: seq<ProviderRoute>, after: Profiles)
    requires Toward(ps, routes, after)
    requires forall i :: 0 <= i < |routes| && !Skipped(routes[i]) ==> routes[i].profile in after && WrittenBy(after[routes[i].profile], w, routes[i])
    ensures WithRoutes(ps, w, routes) == Ok(after)
    decreases |routes|
  {
    if routes == [] {
      forall k ensures SameAt(ps, after, k) {
      }
      assert ps == after;
    } else {
      var r, rest := routes[0], routes[1..];
      assert forall i :: 1 <= i < |routes| ==> routes[i] == rest[i - 1];
      var next := if Skipped(r) then ps else Next(ps, w, r);
      forall k ensures SameAt(next, after, k) || (RouteKey(rest, k) && k !in next && k in after && after[k].Table? && after[k].profile.extra == map[]) {
        if !SameAt(ps, after, k) && (Skipped(r) || r.profile != k) {
          var i :| 0 <= i < |routes| && !Skipped(routes[i]) && routes[i].profile == k;
          assert rest[i - 1] == routes[i];
        }
      }
      RoutesLeadTo(next, w, rest, after);
    }
  }

  // ---- Generated profiles do not linger ----

  // What a route writes is recognised as a generated child.
  lemma RoutesAreChildren(ps: Profiles, w: Write, i: nat)
    requires Plausible(w) && w.profile.Some? && Edited(ps, w).Ok?
    requires i < |RoutesFor(w)| && !Skipped(RoutesFor(w)[i])
    ensures var k := RoutesFor(w)[i].profile; k in Edited(ps, w).value && ChildShaped(Edited(ps, w).value[k], w.agent)
  {
    RoutesLeave(WithMain(ps, w), w, RoutesFor(w));
    assert LeftAt(WithMain(ps, w), w, RoutesFor(w)[i], Edited(ps, w).value);
  }

  // So a later edit of the same profile that has no routes, as after a change
  // to a mode that is not verbatim, removes every child named after it.
  lemma ModeChangeCleansUp(ps: Profiles, w: Write, next: Write, i: nat)
    requires Plausible(w) && Plausible(next) && w.profile.Some? && Edited(ps, w).Ok? && Edited(Edited(ps, w).value, next).Ok?
    requires next.agent == w.agent && next.profile == w.profile && RoutesFor(next) == []
    requires i < |RoutesFor(w)| && !Skipped(RoutesFor(w)[i]) && HasPrefix(RoutesFor(w)[i].profile, w.profile.value + "-")
    ensures RoutesFor(w)[i].profile !in Edited(Edited(ps, w).value, next).value
  {
    RoutesAreChildren(ps, w, i);
    WithMainAt(Edited(ps, w).value, next, RoutesFor(w)[i].profile);
  }

  // ---- When the edit is idempotent ----

  // A rename from a prefix of the new name finds a table of that name that
  // does not look like a generated child, holds keys of its own, and looks
  // like a child once it is written: the second run removes it first.
  predicate ExtraLost(ps: Profiles, w: Write)
    requires Plausible(w)
  {
    && w.profile.Some? && w.previous.Some? && w.previous != w.profile
    && var p := w.profile.value;
      && HasPrefix(p, w.previous.value + "-")
      && p in ps && ps[p].Table? && !ChildShaped(ps[p], w.agent) && ps[p].profile.extra != map[]
      && ChildShaped(Table(Upserted(ps[p].profile, w)), w.agent)
  }

  // A rename removes profile `k`.
  predicate Dropped(ps: Profiles, w: Write, k: Name) {
    && w.previous.Some? && w.previous != w.profile && k in ps
    && ((k == w.previous.value && Owned(ps[k], w.agent)) || ChildOf(ps, k, w.previous.value, w.agent))
  }

  lemma RenamedAt(ps: Profiles, w: Write, k: Name)
    ensures k in Renamed(ps, w) <==> k in ps && !Dropped(ps, w, k)
    ensures k in Renamed(ps, w) ==> Renamed(ps, w)[k] == ps[k]
  {
  }

  lemma UpsertedAlike(a: Profile, b: Profile, w: Write)
    requires Plausible(w)
    ensures Upserted(a, w) == Upserted(b, w).(extra := a.extra)
  {
  }

  lemma WithMainAt(ps: Profiles, w: Write, k: Name)
    requires Plausible(w) && w.profile.Some?
    ensures var p, m := w.profile.value, WithMain(ps, w);
            && (k == p ==> k in m && m[k] == Table(Upserted(Existing(Renamed(ps, w), p), w)))
            && (k != p ==> (k in m <==> k in ps && !Dropped(ps, w, k) && !(HasPrefix(k, p + "-") && ChildShaped(ps[k], w.agent))))
            && (k != p && k in m ==> m[k] == ps[k])
  {
    RenamedAt(ps, w, k);
  }

  // The main profile after a run is what the run wrote, with the extra keys it found.
  lemma MainLeft(ps: Profiles, w: Write)
    requires Plausible(w) && w.profile.Some? && Edited(ps, w).Ok?
    ensures var p, after := w.profile.value, Edited(ps, w).value;
            p in after && after[p] == Table(Upserted(Existing(Renamed(ps, w), p), w))
  {
    var p, m, after := w.profile.value, WithMain(ps, w), Edited(ps, w).value;
    WithMainAt(ps, w, p);
    RoutesLeave(m, w, RoutesFor(w));
    if RouteKey(RoutesFor(w), p) {
      var i :| 0 <= i < |RoutesFor(w)| && !Skipped(RoutesFor(w)[i]) && RoutesFor(w)[i].profile == p;
      assert LeftAt(m, w, RoutesFor(w)[i], after);
    } else {
      assert SameAt(m, after, p);
    }
  }

  // Away from the main profile, the second run starts from what the first left
  // or lacks a route's profile that has no extra keys.
  lemma OtherAgain(ps: Profiles, w: Write, k: Name)
    requires Plausible(w) && w.profile.Some? && Edited(ps, w).Ok? && k != w.profile.value
    ensures var after := Edited(ps, w).value;
            || SameAt(WithMain(after, w), after, k)
            || (RouteKey(RoutesFor(w), k) && k !in WithMain(after, w) && k in after && after[k].Table? && after[k].profile.extra == map[])
  {
    var m, after := WithMain(ps, w), Edited(ps, w).value;
    WithMainAt(ps, w, k);
    WithMainAt(after, w, k);
    RoutesLeave(m, w, RoutesFor(w));
    if RouteKey(RoutesFor(w), k) {
      var i :| 0 <= i < |RoutesFor(w)| && !Skipped(RoutesFor(w)[i]) && RoutesFor(w)[i].profile == k;
      assert LeftAt(m, w, RoutesFor(w)[i], after);
    } else {
      assert SameAt(m, after, k);
    }
  }

  lemma MainAgain(ps: Profiles, w: Write)
    requires Plausible(w) && w.profile.Some? && Edited(ps, w).Ok?
    ensures var p, after := w.profile.value, Edited(ps, w).value;
            && p in after && p in WithMain(after, w) && WithMain(after, w)[p].Table? && after[p].Table?
            && (!ExtraLost(ps, w) <==> WithMain(after, w)[p] == after[p])
            && (ExtraLost(ps, w) ==> WithMain(after, w)[p].profile.extra != after[p].profile.extra)
  {
    var p, after := w.profile.value, Edited(ps, w).value;
    MainLeft(ps, w);
    WithMainAt(after, w, p);
    RenamedAt(ps, w, p);
    RenamedAt(after, w, p);
    var first, second := Existing(Renamed(ps, w), p), Existing(Renamed(after, w), p);
    UpsertedAlike(second, first, w);
    if p in ps && ps[p].Table? {
      UpsertedAlike(ps[p].profile, first, w);
    }
  }

  lemma RenameAgain(ps: Profiles, w: Write)
    requires Plausible(w) && w.profile.None?
    ensures Edited(Renamed(ps, w), w) == Ok(Renamed(ps, w))
  {
    forall k ensures SameAt(Renamed(Renamed(ps, w), w), Renamed(ps, w), k) {
      RenamedAt(ps, w, k);
      RenamedAt(Renamed(ps, w), w, k);
    }
    assert Renamed(Renamed(ps, w), w) == Renamed(ps, w);
  }

  // The same edit run twice gives what it gives once, in exactly all other cases.
  lemma EditedAgain(ps: Profiles, w: Write)
    requires Plausible(w) && Edited(ps, w).Ok?
    ensures Edited(Edited(ps, w).value, w) == Ok(Edited(ps, w).value) <==> !ExtraLost(ps, w)
  {
    if w.profile.None? {
      RenameAgain(ps, w);
    } else {
      var p, after := w.profile.value, Edited(ps, w).value;
      MainLeft(ps, w);
      MainAgain(ps, w);
      RenamedAt(after, w, p);
      RoutesLeave(WithMain(ps, w), w, RoutesFor(w));
      if ExtraLost(ps, w) {
        if Edited(after, w).Ok? {
          MainLeft(after, w);
          WithMainAt(after, w, p);
        }
      } else {
        forall k ensures SameAt(WithMain(after, w), after, k)
          || (RouteKey(RoutesFor(w), k) && k !in WithMain(after, w) && k in after && after[k].Table? && after[k].profile.extra == map[]) {
          if k != p {
            OtherAgain(ps, w, k);
          }
        }
        RoutesLeadTo(WithMain(after, w), w, RoutesFor(w), after);
      }
    }
  }

  // Renaming "a" to "a-b" in switch mode, where "a-b" is the agent's and holds
  // a key of the user: the first run keeps the key, the second loses it.
  lemma SecondRunLosesKey()
    ensures var w := Write("me", Some("a"), Some("a-b"), Switch, Some("p"), FromAgent, ["id"], ["p"], "p", [], []);
            var ps := map["a-b" := Table(Profile(None, Some("me"), None, None, None, map["note" := "mine"]))];
            Edited(ps, w).Ok? && Edited(Edited(ps, w).value, w) != Ok(Edited(ps, w).value)
  {
    var w := Write("me", Some("a"), Some("a-b"), Switch, Some("p"), FromAgent, ["id"], ["p"], "p", [], []);
    var ps := map["a-b" := Table(Profile(None, Some("me"), None, None, None, map["note" := "mine"]))];
    assert "a-b"[..|"a-"|] == "a-";
    RenamedAt(ps, w, "a-b");
    assert "note" in map["note" := "mine"];
    EditedAgain(ps, w);
  }
}
