// Resolving a requested model to what may serve it, in each route mode.
module RouteResolver {
  import opened Wrappers
  import ExactIds

  datatype Mode = Passthrough | Switch | Exact | Route | Fuzzy

  datatype Selector = Any | Provider(id: string) | Model | Candidates(models: seq<string>)

  datatype Resolution = Resolution(mode: Mode, requested: string, upstream: string, selector: Selector)

  datatype Family = Family(name: string, members: seq<string>)

  // ---- The family tables ----

  // The last family wins a name, and every member it lists.
  function LastNamed(families: seq<Family>, name: string): Option<seq<string>> {
    if families == [] then None
    else
      var last := families[|families| - 1];
      if last.name == name then Some(last.members) else LastNamed(families[..|families| - 1], name)
  }

  function LastListing(families: seq<Family>, model: string): Option<seq<string>> {
    if families == [] then None
    else
      var last := families[|families| - 1];
      if model in last.members then Some(last.members) else LastListing(families[..|families| - 1], model)
  }

  function Find(m: map<string, seq<string>>, k: string): Option<seq<string>> {
    if k in m then Some(m[k]) else None
  }

  class Resolver {
    const defaultMode: Mode
    const defaultProvider: Option<string>
    var byName: map<string, seq<string>>
    var byMember: map<string, seq<string>>

    constructor (defaultMode: Mode, defaultProvider: Option<string>, families: seq<Family>)
      ensures this.defaultMode == defaultMode && this.defaultProvider == defaultProvider
      ensures forall k :: Find(byName, k) == LastNamed(families, k)
      ensures forall k :: Find(byMember, k) == LastListing(families, k)
    {
      this.defaultMode, this.defaultProvider := defaultMode, defaultProvider;
      byName, byMember := map[], map[];
      new;
      for i := 0 to |families|
        invariant forall k :: Find(byName, k) == LastNamed(families[..i], k)
        invariant forall k :: Find(byMember, k) == LastListing(families[..i], k)
      {
        var family := families[i];
        assert families[..i + 1][..i] == families[..i];
        byName := byName[family.name := family.members];
        AddMembers(family.members);
      }
      assert families[..|families|] == families;
    }

    method AddMembers(members: seq<string>)
      modifies this`byMember
      ensures forall k :: Find(byMember, k) == if k in members then Some(members) else Find(old(byMember), k)
    {
      for j := 0 to |members|
        invariant forall k :: Find(byMember, k) == if k in members[..j] then Some(members) else Find(old(byMember), k)
      {
        assert members[..j + 1] == members[..j] + [members[j]];
        byMember := byMember[members[j] := members];
      }
      assert members[..|members|] == members;
    }

    function Selected(mode: Mode, requested: string): Result<Resolution, ExactIds.ResolveError>
      reads this
    {
      match mode
      case Passthrough => Ok(Resolution(mode, requested, requested, DefaultSelector()))
      case Switch => Ok(Resolution(mode, requested, requested, DefaultSelector()))
      case Route => Ok(Resolution(mode, requested, requested, Model))
      case Fuzzy =>
        Ok(Resolution(mode, requested, requested, Candidates(
          match Find(byMember, requested)
          case Some(members) => members
          case None => match Find(byName, requested) case Some(members) => members case None => [requested])))
      case Exact =>
        match ExactIds.ResolveExact(requested)
        case Err(e) => Err(e)
        case Ok((provider, model)) => Ok(Resolution(mode, requested, model, Provider(provider)))
    }

    function DefaultSelector(): Selector
    {
      match defaultProvider case Some(p) => Provider(p) case None => Any
    }

    // A header overrides the default mode; an exact id printed from a
    // slash-free provider is served by that provider only.
    function Resolve(requested: string, header: Option<Mode>): Result<Resolution, ExactIds.ResolveError>
      reads this
    {
      Selected(match header case Some(m) => m case None => defaultMode, requested)
    }
  }

  lemma ExactIdSelectsItsProvider(r: Resolver, provider: string, model: string)
    requires ExactIds.Publishable(provider) && !ExactIds.Blank(model)
    ensures r.Resolve(ExactIds.Printed(provider, model), Some(Exact))
         == Ok(Resolution(Exact, ExactIds.Printed(provider, model), model, Provider(provider)))
  {
    ExactIds.TrimmedIsNotBlank(provider);
    ExactIds.ExactRoundTrip(provider, model);
  }

  // ---- What each mode resolves to ----

  // The last family that lists the model, or of that name.
  predicate LastLister(families: seq<Family>, model: string, i: nat) {
    i < |families| && model in families[i].members && forall j :: i < j < |families| ==> model !in families[j].members
  }

  predicate LastOfName(families: seq<Family>, name: string, i: nat) {
    i < |families| && families[i].name == name && forall j :: i < j < |families| ==> families[j].name != name
  }

  lemma {:induction false} LastListingIs(families: seq<Family>, model: string)
    ensures LastListing(families, model).None? <==> forall i :: 0 <= i < |families| ==> model !in families[i].members
    ensures forall i: nat :: LastLister(families, model, i) ==> LastListing(families, model) == Some(families[i].members)
  {
    if families != [] {
      var before := families[..|families| - 1];
      LastListingIs(before, model);
      forall i: nat | LastLister(families, model, i) ensures LastListing(families, model) == Some(families[i].members) {
        if i < |before| {
          assert model !in families[|families| - 1].members;
          assert LastLister(before, model, i);
        }
      }
    }
  }

  lemma {:induction false} LastNamedIs(families: seq<Family>, name: string)
    ensures LastNamed(families, name).None? <==> forall i :: 0 <= i < |families| ==> families[i].name != name
    ensures forall i: nat :: LastOfName(families, name, i) ==> LastNamed(families, name) == Some(families[i].members)
  {
    if families != [] {
      var before := families[..|families| - 1];
      LastNamedIs(before, name);
      forall i: nat | LastOfName(families, name, i) ensures LastNamed(families, name) == Some(families[i].members) {
        if i < |before| {
          assert families[|families| - 1].name != name;
          assert LastOfName(before, name, i);
        }
      }
    }
  }

  // The candidates of a fuzzy request: those of the last family that lists the
  // model; else those of the last family of that name; else the model itself.
  ghost predicate FuzzyCandidates(families: seq<Family>, requested: string, models: seq<string>) {
    if exists i :: 0 <= i < |families| && requested in families[i].members then
      exists i: nat :: LastLister(families, requested, i) && models == families[i].members
    else if exists i :: 0 <= i < |families| && families[i].name == requested then
      exists i: nat :: LastOfName(families, requested, i) && models == families[i].members
    else models == [requested]
  }

  // The provider is what stands before the first slash, the model the rest.
  predicate SplitsAs(requested: string, provider: string, model: string) {
    requested == provider + "/" + model && '/' !in provider && !ExactIds.Blank(provider) && !ExactIds.Blank(model)
  }

  ghost predicate Resolves(families: seq<Family>, mode: Mode, default: Option<string>, requested: string,
                           r: Result<Resolution, ExactIds.ResolveError>)
  {
    && (r.Ok? ==> r.value.mode == mode && r.value.requested == requested && (!mode.Exact? ==> r.value.upstream == requested))
    && match mode
       case Passthrough => r.Ok? && r.value.selector == (if default.Some? then Provider(default.value) else Any)
       case Switch => r.Ok? && r.value.selector == (if default.Some? then Provider(default.value) else Any)
       case Route => r.Ok? && r.value.selector == Model
       case Fuzzy => r.Ok? && r.value.selector.Candidates? && FuzzyCandidates(families, requested, r.value.selector.models)
       case Exact =>
         && (r.Ok? <==> exists provider, model :: SplitsAs(requested, provider, model))
         && (r.Ok? ==> r.value.selector.Provider? && SplitsAs(requested, r.value.selector.id, r.value.upstream))
  }

  lemma {:induction false} LastListerExists(families: seq<Family>, model: string) returns (i: nat)
    requires exists k :: 0 <= k < |families| && model in families[k].members
    ensures LastLister(families, model, i)
  {
    i := |families| - 1;
    if model !in families[i].members {
      var before := families[..i];
      var k :| 0 <= k < |families| && model in families[k].members;
      assert before[k] == families[k];
      i := LastListerExists(before, model);
      assert forall j :: i < j < |before| ==> families[j] == before[j];
    }
  }

  lemma {:induction false} LastOfNameExists(families: seq<Family>, name: string) returns (i: nat)
    requires exists k :: 0 <= k < |families| && families[k].name == name
    ensures LastOfName(families, name, i)
  {
    i := |families| - 1;
    if families[i].name != name {
      var before := families[..i];
      var k :| 0 <= k < |families| && families[k].name == name;
      assert before[k] == families[k];
      i := LastOfNameExists(before, name);
      assert forall j :: i < j < |before| ==> families[j] == before[j];
    }
  }

  lemma CandidatesAre(families: seq<Family>, requested: string, models: seq<string>)
    requires models == match LastListing(families, requested)
                       case Some(members) => members
                       case None => match LastNamed(families, requested) case Some(members) => members case None => [requested]
    ensures FuzzyCandidates(families, requested, models)
  {
    LastListingIs(families, requested);
    LastNamedIs(families, requested);
    if exists i :: 0 <= i < |families| && requested in families[i].members {
      var i := LastListerExists(families, requested);
    } else if exists i :: 0 <= i < |families| && families[i].name == requested {
      var i := LastOfNameExists(families, requested);
    }
  }

  lemma SplitsExactly(requested: string)
    ensures ExactIds.ResolveExact(requested).Ok? <==> exists provider, model :: SplitsAs(requested, provider, model)
    ensures ExactIds.ResolveExact(requested).Ok? ==>
              SplitsAs(requested, ExactIds.ResolveExact(requested).value.0, ExactIds.ResolveExact(requested).value.1)
  {
    ExactIds.SplitHasNoSlash(requested);
    if ExactIds.ResolveExact(requested).Ok? {
      assert SplitsAs(requested, ExactIds.ResolveExact(requested).value.0, ExactIds.ResolveExact(requested).value.1);
    }
    if provider, model :| SplitsAs(requested, provider, model) {
      assert requested == ExactIds.Printed(provider, model);
      ExactIds.ExactRoundTrip(provider, model);
    }
  }

  // A header overrides the default mode; the rest follows from the mode, the
  // default provider and the families the resolver was built from.
  lemma ResolveMeans(r: Resolver, families: seq<Family>, requested: string, header: Option<Mode>)
    requires forall k :: Find(r.byName, k) == LastNamed(families, k)
    requires forall k :: Find(r.byMember, k) == LastListing(families, k)
    ensures Resolves(families, if header.Some? then header.value else r.defaultMode, r.defaultProvider, requested, r.Resolve(requested, header))
  {
    var mode := if header.Some? then header.value else r.defaultMode;
    SplitsExactly(requested);
    if mode.Fuzzy? {
      CandidatesAre(families, requested, r.Resolve(requested, header).value.selector.models);
    }
  }
}
