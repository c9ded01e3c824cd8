// What each agent home has, or is sure to get back: with any number of homes,
// every cut of a link or an unlink keeps it, exactly if no link replaces an
// account some home is still waiting for.
module Holdings {
  import opened Wrappers
  import opened MigrationDisk
  import opened ManifestChain
  import opened ManifestLog
  import opened FileRollback
  import opened BindingRollback
  import opened CredentialHandoff
  import opened Unlink
  import opened Reconcile
  import opened ReconcileCuts
  import opened LinkUndo
  import opened HandoffBacking
  import opened ReconcileCompletes
  import opened CutHandoff
  import opened CutUnlink
  import opened ChainInversion
  import opened UnlinkInverts
  import opened LogMarks
  import opened UnlinkCuts

  // ---- What a home has or is owed ----

  // The chain an unlink would work on now.
  ghost function ActiveChain(agent: Agent, ms: map<Path, Manifest>): seq<Link> {
    if LogShape(agent, ms) && exists p :: IsLatest(ms, p) then
      var p :| IsLatest(ms, p);
      Log(agent, ms, p)
    else []
  }

  lemma ChainIs(agent: Agent, ms: map<Path, Manifest>, latest: Option<Path>)
    requires LogShape(agent, ms) && LatestIs(ms, latest)
    ensures ActiveChain(agent, ms) == Prior(agent, ms, latest)
  {
    forall p | IsLatest(ms, p) ensures latest == Some(p) {
      LatestUnique(ms, latest, Some(p));
    }
  }

  // The sources a chain still owes to home `h`.
  function Owed(chain: seq<Link>, h: Home): set<Provider> {
    if chain == [] then {}
    else
      var m := chain[0].manifest;
      (if Pending(m) && m.home == Some(h) then TransferSources(m) else {}) + Owed(chain[1..], h)
  }

  predicate AccountFor(d: Disk, m: Manifest, id: AccountId, s: Provider) {
    FindAccount(d, m, id).Some? && FindAccount(d, m, id).value.source == s
  }

  // The newest manifest imported an account of `s` that the gateway holds.
  predicate Loadable(d: Disk, chain: seq<Link>, s: Provider) {
    chain != [] && exists id :: id in chain[0].manifest.imported && AccountFor(d, chain[0].manifest, id, s)
  }

  function HeldBy(d: Disk, chain: seq<Link>, h: Home): set<Provider> {
    AuthOf(d, h).Keys + set s | s in Owed(chain, h) && Loadable(d, chain, s)
  }

  // The providers home `h` has a key for, or gets one back for by an unlink.
  ghost function Held(d: Disk, agent: Agent, h: Home): set<Provider> {
    HeldBy(d, ActiveChain(agent, d.manifests), h)
  }

  // What links and unlinks keep of the log.
  ghost predicate Sound(d: Disk, agent: Agent) {
    var chain := ActiveChain(agent, d.manifests);
    && LogShape(agent, d.manifests)
    && OwedByAgentLink(chain) && (!MovesCredentials(agent) ==> HandedOff(chain))
  }

  // ---- Owed sources ----

  lemma {:induction false} OwedAreTargets(chain: seq<Link>, byId: map<AccountId, Account>, h: Home)
    requires HasRoutes(chain)
    ensures TargetsAt(chain, byId, h) == Owed(chain, h)
  {
    if chain != [] {
      assert chain[0] in chain && forall l :: l in chain[1..] ==> l in chain;
      OwedAreTargets(chain[1..], byId, h);
    }
  }

  lemma {:induction false} NothingOwedTo(chain: seq<Link>, h: Home)
    requires HandedOff(chain)
    ensures Owed(chain, h) == {}
  {
    if chain != [] {
      assert chain[0] in chain && forall l :: l in chain[1..] ==> l in chain;
      NothingOwedTo(chain[1..], h);
    }
  }

  lemma {:induction false} OwedIsPending(chain: seq<Link>, h: Home)
    ensures Owed(chain, h) != {} ==> exists l :: l in chain && Pending(l.manifest) && l.manifest.home == Some(h)
  {
    if chain != [] {
      assert chain[0] in chain && forall l :: l in chain[1..] ==> l in chain;
      OwedIsPending(chain[1..], h);
    }
  }

  // ---- A complete handoff ----

  lemma LoadedSources(d: Disk, m: Manifest)
    requires LoadTransferred(d, m).Ok?
    ensures forall s :: s in BySource(LoadTransferred(d, m).value) <==> exists id :: id in m.imported && AccountFor(d, m, id, s)
  {
    var accounts := LoadTransferred(d, m).value;
    BySourceFrom(accounts);
    if m.imported != [] {
      Collected(d, m, m.imported);
    }
    forall s ensures s in BySource(accounts) <==> exists id :: id in m.imported && AccountFor(d, m, id, s) {
      if s in BySource(accounts) {
        var a := BySource(accounts)[s];
        var id :| id in m.imported && FindAccount(d, m, id) == Some(a);
        assert AccountFor(d, m, id, s);
      }
      if id :| id in m.imported && AccountFor(d, m, id, s) {
        assert FindAccount(d, m, id).value in accounts;
      }
    }
  }

  // After a complete handoff a source owed to a home is there exactly if it was
  // there already or its account could be loaded.
  lemma HandoffReturns(d: Disk, chain: seq<Link>, h: Home, s: Provider)
    requires chain != [] && HasRoutes(chain) && HandoffRun(d, chain).ok && s in Owed(chain, h)
    ensures s in AuthOf(Replay(d, HandoffRun(d, chain).writes), h) <==> s in AuthOf(d, h) || Loadable(d, chain, s)
  {
    OwedIsPending(chain, h);
    HandoffKeys(d, chain, h);
    var l :| l in chain && Pending(l.manifest) && l.manifest.home == Some(h);
    assert h in Homes(chain);
    assert Loaded(d, chain) == LoadTransferred(d, chain[0].manifest);
    OwedAreTargets(chain, ById(Loaded(d, chain).value), h);
    LoadedSources(d, chain[0].manifest);
  }

  lemma GrantedKeysStay(d: Disk, chain: seq<Link>, h: Home)
    requires chain != [] && HandoffRun(d, chain).ok
    ensures AuthOf(Replay(d, HandoffRun(d, chain).writes), h) == AuthOf(Replay(d, GrantWrites(d, chain)), h)
    ensures AuthOf(d, h).Keys <= AuthOf(Replay(d, GrantWrites(d, chain)), h).Keys
  {
    HandoffSplits(d, chain);
    GrantsAddKeys(d, GrantWrites(d, chain));
    ReplayConcat(d, GrantWrites(d, chain), MarkHandoff(chain));
    MarksKeepRest(Replay(d, GrantWrites(d, chain)), chain);
  }

  lemma HandoffGivesHeld(d: Disk, chain: seq<Link>, h: Home)
    requires chain != [] && HasRoutes(chain) && HandoffRun(d, chain).ok
    ensures HeldBy(d, chain, h) <= AuthOf(Replay(d, GrantWrites(d, chain)), h).Keys
  {
    GrantedKeysStay(d, chain, h);
    forall s | s in HeldBy(d, chain, h) ensures s in AuthOf(Replay(d, GrantWrites(d, chain)), h) {
      if s !in AuthOf(d, h) {
        HandoffReturns(d, chain, h, s);
      }
    }
  }

  // `f` has a key of `s` at `h` exactly if `d` has, or can load an account for it.
  predicate ReturnedExactly(d: Disk, chain: seq<Link>, f: Disk, h: Home, s: Provider) {
    s in AuthOf(f, h) <==> s in AuthOf(d, h) || Loadable(d, chain, s)
  }

  lemma ReturnedAt(d: Disk, agent: Agent, chain: seq<Link>, h: Home, s: Provider)
    requires UnlinkChain(d, agent, chain).ok && HasRoutes(chain) && s in Owed(chain, h)
    requires forall i, j :: 0 <= i < j < |chain| ==> chain[i].path != chain[j].path
    ensures ReturnedExactly(d, chain, Replay(d, UnlinkChain(d, agent, chain).writes), h, s)
  {
    HandoffReturns(d, chain, h, s);
    UnlinkOutcome(d, agent, chain);
  }

  // The whole unlink: a home is left without a source it is owed exactly if it
  // was without it and the newest manifest leads to no account for it. So no
  // home goes without exactly if every source owed is there or has an account.
  lemma UnlinkReturns(d: Disk, agent: Agent, root: Option<string>, p: Path)
    requires LogShape(agent, d.manifests) && UnlinkRun(d, agent, root, p).ok
    ensures p in d.manifests
    ensures var chain, f := Log(agent, d.manifests, p), Replay(d, UnlinkRun(d, agent, root, p).writes);
            && (forall h, s :: s in Owed(chain, h) ==> ReturnedExactly(d, chain, f, h, s))
            && ((forall h, s :: s in Owed(chain, h) ==> s in AuthOf(f, h))
                <==> forall h, s :: s in Owed(chain, h) ==> s in AuthOf(d, h) || Loadable(d, chain, s))
  {
    UnlinksLatest(d, agent, root, p);
    TipRun(d, agent, root, p);
    var chain := Log(agent, d.manifests, p);
    LogRoutes(agent, d.manifests, p);
    LogNames(agent, d.manifests, p);
    forall h, s | s in Owed(chain, h)
      ensures ReturnedExactly(d, chain, Replay(d, UnlinkRun(d, agent, root, p).writes), h, s) {
      ReturnedAt(d, agent, chain, h, s);
    }
    AllReturned(d, chain, Replay(d, UnlinkRun(d, agent, root, p).writes));
  }

  lemma AllReturned(d: Disk, chain: seq<Link>, f: Disk)
    requires forall h, s :: s in Owed(chain, h) ==> ReturnedExactly(d, chain, f, h, s)
    ensures (forall h, s :: s in Owed(chain, h) ==> s in AuthOf(f, h))
       <==> forall h, s :: s in Owed(chain, h) ==> s in AuthOf(d, h) || Loadable(d, chain, s)
  {
    forall h, s | s in Owed(chain, h)
      ensures ReturnedExactly(d, chain, f, h, s) {
    }
  }

  lemma LogRoutes(agent: Agent, ms: map<Path, Manifest>, p: Path)
    requires LogShape(agent, ms) && p in ms
    ensures HasRoutes(Log(agent, ms, p))
  {
    LogEntries(agent, ms, p);
    forall l | l in Log(agent, ms, p) ensures Written(agent, l.path, l.manifest) {
    }
  }

  // ---- A link cut after its manifest ----

  // Some imported account has the id of one the shard holds for `s`.
  predicate KeepsId(d: Disk, plan: Plan, s: Provider) {
    var shard := ShardAccounts(d.files, SHARD);
    exists a :: a in plan.imported && a.id in shard && shard[a.id].source == s
  }

  // The import names an account of `s` before the shard is saved, and after.
  predicate CarriesOn(d: Disk, plan: Plan, s: Provider) {
    KeepsId(d, plan, s) && HasSource(plan.imported, s)
  }

  // A link never replaces an account some home is still waiting for.
  ghost predicate Guarded(d: Disk, plan: Plan) {
    var chain := ActiveChain(plan.agent, d.manifests);
    forall h, s :: s in Owed(chain, h) && s !in AuthOf(d, h) && Loadable(d, chain, s) ==> CarriesOn(d, plan, s)
  }

  lemma ImportFound(d: Disk, plan: Plan, e: Disk, m: Manifest, s: Provider)
    requires DistinctAccounts(plan.imported) && m.shard == Some(SHARD) && m.imported == Ids(plan)
    requires Lookup(e.files, SHARD) == Some(Accounts(SavedShard(ShardAccounts(d.files, SHARD), plan.imported)))
    ensures (exists id :: id in m.imported && AccountFor(e, m, id, s)) <==> HasSource(plan.imported, s)
  {
    AccountsFound(d, plan, e, m);
    if a :| a in plan.imported && a.source == s {
      IdListed(plan, a);
      assert AccountFor(e, m, a.id, s);
    }
    if id :| id in m.imported && AccountFor(e, m, id, s) {
      var i :| 0 <= i < |plan.imported| && plan.imported[i].id == id;
      assert plan.imported[i] in plan.imported;
    }
  }

  function Ids(plan: Plan): seq<AccountId> {
    seq(|plan.imported|, i requires 0 <= i < |plan.imported| => plan.imported[i].id)
  }

  lemma IdListed(plan: Plan, a: Account)
    requires a in plan.imported
    ensures a.id in Ids(plan)
  {
    var i :| 0 <= i < |plan.imported| && plan.imported[i] == a;
    assert Ids(plan)[i] == a.id;
  }

  lemma ShardNames(d: Disk, plan: Plan, e: Disk, m: Manifest, s: Provider)
    requires m.shard == Some(SHARD) && m.imported == Ids(plan) && Lookup(e.files, SHARD) == Lookup(d.files, SHARD)
    ensures (exists id :: id in m.imported && AccountFor(e, m, id, s))
       <==> exists a :: a in plan.imported && a.id in ShardAccounts(d.files, SHARD) && ShardAccounts(d.files, SHARD)[a.id].source == s
  {
    var shard := ShardAccounts(d.files, SHARD);
    assert ShardAccounts(e.files, SHARD) == shard;
    if a :| a in plan.imported && a.id in shard && shard[a.id].source == s {
      IdListed(plan, a);
      assert AccountFor(e, m, a.id, s);
    }
    if id :| id in m.imported && AccountFor(e, m, id, s) {
      var i :| 0 <= i < |plan.imported| && plan.imported[i].id == id;
      assert plan.imported[i] in plan.imported;
    }
  }

  lemma TransferListed(plan: Plan, s: Provider)
    requires RoutesMatch(plan) && s in plan.transferred && HasSource(plan.imported, s)
    ensures Transfers(plan) && exists r :: r in plan.routes && r.transfer && r.source == s
  {
    var a :| a in plan.imported && a.source == s;
    var i :| 0 <= i < |plan.imported| && plan.imported[i] == a;
    assert plan.routes[i] == RouteFor(a, plan.transferred) && plan.routes[i] in plan.routes;
  }

  // What a link has stripped it owes.
  lemma StrippedIsOwed(d: Disk, plan: Plan, m: Manifest, prior: seq<Link>, s: Provider)
    requires Moves(plan) && Merged(d, plan) && Header(d, plan, m) && s in plan.transferred
    ensures s in Owed([Link(ManifestAt(plan.stamp), m)] + prior, plan.home)
  {
    TransferListed(plan, s);
    assert s in TransferSources(m);
  }

  lemma StillOwed(l: Link, prior: seq<Link>, h: Home)
    ensures Owed(prior, h) <= Owed([l] + prior, h)
  {
    assert ([l] + prior)[1..] == prior;
  }

  // Keys of the agent found now are not transferred without being there.
  lemma SavedHeld(d: Disk, plan: Plan, e: Disk, m: Manifest, prior: seq<Link>, h: Home)
    requires Moves(plan) && Merged(d, plan) && Header(d, plan, m) && KeysCut(d, plan, e)
    requires Lookup(e.files, SHARD) == Some(Accounts(SavedShard(ShardAccounts(d.files, SHARD), plan.imported)))
    requires forall s :: s in Owed(prior, h) && s !in AuthOf(d, h) && Loadable(d, prior, s) ==> HasSource(plan.imported, s)
    ensures HeldBy(d, prior, h) <= HeldBy(e, [Link(ManifestAt(plan.stamp), m)] + prior, h)
  {
    var chain := [Link(ManifestAt(plan.stamp), m)] + prior;
    StillOwed(chain[0], prior, h);
    forall s | s in HeldBy(d, prior, h) && s !in AuthOf(e, h) ensures s in Owed(chain, h) && Loadable(e, chain, s) {
      ImportFound(d, plan, e, m, s);
      if s in AuthOf(d, h) {
        assert h == plan.home && s in plan.transferred;
        StrippedIsOwed(d, plan, m, prior, s);
      }
    }
  }

  lemma UnsavedHeld(d: Disk, plan: Plan, e: Disk, m: Manifest, prior: seq<Link>, h: Home)
    requires Moves(plan) && Header(d, plan, m) && e.auths == d.auths && Lookup(e.files, SHARD) == Lookup(d.files, SHARD)
    requires forall s :: s in Owed(prior, h) && s !in AuthOf(d, h) && Loadable(d, prior, s) ==> CarriesOn(d, plan, s)
    ensures HeldBy(d, prior, h) <= HeldBy(e, [Link(ManifestAt(plan.stamp), m)] + prior, h)
  {
    var chain := [Link(ManifestAt(plan.stamp), m)] + prior;
    StillOwed(chain[0], prior, h);
    assert AuthOf(e, h) == AuthOf(d, h);
    forall s | s in HeldBy(d, prior, h) && s !in AuthOf(e, h) ensures s in Owed(chain, h) && Loadable(e, chain, s) {
      ShardNames(d, plan, e, m, s);
    }
  }

  lemma UnmovedHeld(d: Disk, plan: Plan, e: Disk, m: Manifest, prior: seq<Link>, h: Home)
    requires !Moves(plan) && TakesOver(d, plan) && HandedOff(prior) && KeysCut(d, plan, e)
    ensures HeldBy(d, prior, h) <= HeldBy(e, [Link(ManifestAt(plan.stamp), m)] + prior, h)
  {
    NothingOwedTo(prior, h);
    SameKeys(d, plan, e);
  }

  lemma MidHeld(d: Disk, plan: Plan, e: Disk, m: Manifest, dirty: Option<Path>, prior: seq<Link>, h: Home)
    requires Tidy(plan) && Mid(d, plan, e, m, dirty) && TakesOver(d, plan) && (!Moves(plan) ==> HandedOff(prior))
    requires forall s :: s in Owed(prior, h) && s !in AuthOf(d, h) && Loadable(d, prior, s) ==> CarriesOn(d, plan, s)
    ensures HeldBy(d, prior, h) <= HeldBy(e, [Link(ManifestAt(plan.stamp), m)] + prior, h)
  {
    CutKeys(d, plan, e, m);
    if !Moves(plan) {
      UnmovedHeld(d, plan, e, m, prior, h);
    } else {
      ShardOfMid(d, plan, e, m, dirty);
      if Lookup(e.files, SHARD) == Some(Accounts(SavedShard(ShardAccounts(d.files, SHARD), plan.imported))) {
        SavedHeld(d, plan, e, m, prior, h);
      } else {
        UnsavedHeld(d, plan, e, m, prior, h);
      }
    }
  }

  // ---- A link cut anywhere ----

  lemma PriorHandedOff(d: Disk, plan: Plan)
    requires Sound(d, plan.agent) && Planned(d, plan)
    ensures ActiveChain(plan.agent, d.manifests) == PriorOf(d, plan)
    ensures !Moves(plan) ==> HandedOff(PriorOf(d, plan))
  {
    ChainIs(plan.agent, d.manifests, plan.previous);
    var prior := PriorOf(d, plan);
    if plan.previous.Some? {
      assert prior[0] == Link(plan.previous.value, d.manifests[plan.previous.value]);
      assert PreviousAccepted(d, plan, plan.previous.value);
    }
  }

  // Only the shard of the newest manifest counts.
  lemma TipShard(agent: Agent, ms: map<Path, Manifest>)
    requires LogShape(agent, ms)
    ensures var chain := ActiveChain(agent, ms);
            chain != [] ==>
              && chain[0].manifest.shard in {None, Some(SHARD)}
              && (chain[0].manifest.shard.None? ==> chain[0].manifest.imported == [])
  {
    var latest := SomeLatest(ms);
    ChainIs(agent, ms, latest);
    if latest.Some? {
      assert Written(agent, latest.value, ms[latest.value]);
    }
  }

  lemma SameHeld(d: Disk, e: Disk, agent: Agent, h: Home)
    requires LogShape(agent, d.manifests) && e.manifests == d.manifests && e.auths == d.auths
    requires e.rootAccounts == d.rootAccounts && Lookup(e.files, SHARD) == Lookup(d.files, SHARD)
    ensures Held(e, agent, h) == Held(d, agent, h)
  {
    TipShard(agent, d.manifests);
    SameHeldBy(d, e, ActiveChain(agent, d.manifests), h);
  }

  lemma SameHeldBy(d: Disk, e: Disk, chain: seq<Link>, h: Home)
    requires e.auths == d.auths && e.rootAccounts == d.rootAccounts && Lookup(e.files, SHARD) == Lookup(d.files, SHARD)
    requires chain != [] ==> chain[0].manifest.shard in {None, Some(SHARD)}
    ensures HeldBy(e, chain, h) == HeldBy(d, chain, h)
  {
    SameLoadable(d, e, chain);
    assert AuthOf(e, h) == AuthOf(d, h);
  }

  lemma OpeningHeld(d: Disk, plan: Plan, k: nat)
    requires Sound(d, plan.agent) && Planned(d, plan) && k < |Opening(d, plan)|
    ensures var e := Replay(d, Opening(d, plan)[..k]);
            Sound(e, plan.agent) && forall h :: Held(e, plan.agent, h) == Held(d, plan.agent, h)
  {
    OpeningCut(d, plan, k);
    var e := Replay(d, Opening(d, plan)[..k]);
    assert !FreshBackup(SHARD, plan.stamp);
    forall h ensures Held(e, plan.agent, h) == Held(d, plan.agent, h) {
      SameHeld(d, e, plan.agent, h);
    }
  }

  lemma SameLoadable(d: Disk, e: Disk, chain: seq<Link>)
    requires e.rootAccounts == d.rootAccounts
    requires chain != [] && chain[0].manifest.shard.Some? ==>
               Lookup(e.files, chain[0].manifest.shard.value) == Lookup(d.files, chain[0].manifest.shard.value)
    ensures forall s :: Loadable(e, chain, s) <==> Loadable(d, chain, s)
  {
    if chain != [] {
      var m := chain[0].manifest;
      assert m.shard.Some? ==> ShardAccounts(e.files, m.shard.value) == ShardAccounts(d.files, m.shard.value);
      forall id, s ensures AccountFor(e, m, id, s) <==> AccountFor(d, m, id, s) {
      }
    }
  }

  lemma MidSound(d: Disk, plan: Plan, e: Disk, m: Manifest, dirty: Option<Path>)
    requires Sound(d, plan.agent) && Linkable(d, plan) && Tidy(plan) && Mid(d, plan, e, m, dirty)
    ensures Sound(e, plan.agent) && ActiveChain(plan.agent, e.manifests) == ChainAt(d, plan, m)
  {
    PriorHandedOff(d, plan);
    CutLog(d, plan, e, m, dirty, None);
    ChainIs(plan.agent, e.manifests, Some(ManifestAt(plan.stamp)));
    HeaderOf(d, plan, m);
    SourceOfHeader(d, plan, m);
    var chain := ChainAt(d, plan, m);
    assert forall l :: l in chain <==> l == chain[0] || l in PriorOf(d, plan);
  }

  // Every cut of a guarded link keeps what every home holds.
  lemma LinkHolds(d: Disk, plan: Plan, k: nat)
    requires Sound(d, plan.agent) && Planned(d, plan) && Guarded(d, plan) && k <= |ApplyRun(d, plan).writes|
    ensures var e := Replay(d, ApplyRun(d, plan).writes[..k]);
            Sound(e, plan.agent) && forall h :: Held(d, plan.agent, h) <= Held(e, plan.agent, h)
  {
    var e := Replay(d, ApplyRun(d, plan).writes[..k]);
    if k < |Opening(d, plan)| {
      assert ApplyRun(d, plan).writes[..k] == Opening(d, plan)[..k];
      OpeningHeld(d, plan, k);
    } else {
      var m := AnyCutReached(d, plan, k);
      MidHolds(d, plan, e, m, GapOf(d, plan, k));
    }
  }

  lemma MidHolds(d: Disk, plan: Plan, e: Disk, m: Manifest, dirty: Option<Path>)
    requires Sound(d, plan.agent) && Linkable(d, plan) && Guarded(d, plan) && Tidy(plan) && Mid(d, plan, e, m, dirty)
    ensures Sound(e, plan.agent) && forall h :: Held(d, plan.agent, h) <= Held(e, plan.agent, h)
  {
    PriorHandedOff(d, plan);
    MidSound(d, plan, e, m, dirty);
    forall h ensures Held(d, plan.agent, h) <= Held(e, plan.agent, h) {
      MidHeld(d, plan, e, m, dirty, PriorOf(d, plan), h);
    }
  }

  // ---- The guard is exact ----

  lemma OpeningState(d: Disk, plan: Plan)
    requires Planned(d, plan)
    ensures var e := Replay(d, Opening(d, plan));
            && e.auths == d.auths && Lookup(e.files, SHARD) == Lookup(d.files, SHARD)
            && Tidy(plan) && Mid(d, plan, e, FirstManifest(d, plan), None)
  {
    OpeningReached(d, plan);
    TrackedPaths(d, plan);
    OpeningFiles(d, plan);
    var backups := BackupWrites(d.files, Tracked(plan), plan.stamp);
    var w := WriteManifest(ManifestAt(plan.stamp), FirstManifest(d, plan));
    ReplayConcat(d, backups, [w]);
    ReplayOne(Replay(d, backups), w);
  }

  lemma NotHeld(d: Disk, chain: seq<Link>, agent: Agent, h: Home, s: Provider)
    requires ActiveChain(agent, d.manifests) == chain && s !in AuthOf(d, h) && !Loadable(d, chain, s)
    ensures s !in Held(d, agent, h)
  {
  }

  lemma OpeningLoses(d: Disk, plan: Plan, h: Home, s: Provider)
    requires Sound(d, plan.agent) && Planned(d, plan) && Moves(plan) && s !in AuthOf(d, h) && !KeepsId(d, plan, s)
    ensures s !in Held(Replay(d, Opening(d, plan)), plan.agent, h)
  {
    PriorHandedOff(d, plan);
    OpeningState(d, plan);
    OpenedLoses(d, plan, Replay(d, Opening(d, plan)), FirstManifest(d, plan), h, s);
  }

  lemma OpenedLoses(d: Disk, plan: Plan, e: Disk, m: Manifest, h: Home, s: Provider)
    requires Sound(d, plan.agent) && Linkable(d, plan) && Moves(plan) && s !in AuthOf(d, h) && !KeepsId(d, plan, s)
    requires Tidy(plan) && Mid(d, plan, e, m, None) && e.auths == d.auths && Lookup(e.files, SHARD) == Lookup(d.files, SHARD)
    ensures s !in Held(e, plan.agent, h)
  {
    MidSound(d, plan, e, m, None);
    HeaderOf(d, plan, m);
    ShardNames(d, plan, e, m, s);
    NotHeld(e, ChainAt(d, plan, m), plan.agent, h, s);
  }

  lemma CompleteLoses(d: Disk, plan: Plan, h: Home, s: Provider)
    requires Sound(d, plan.agent) && Planned(d, plan) && Moves(plan) && s !in AuthOf(d, h) && !HasSource(plan.imported, s)
    ensures s !in Held(Replay(d, ApplyRun(d, plan).writes), plan.agent, h)
  {
    LinkCompletes(d, plan);
    CompleteReached(d, plan);
    CompletedLoses(d, plan, Replay(d, ApplyRun(d, plan).writes), LastManifest(d, plan).(completed := true), h, s);
  }

  lemma CompletedLoses(d: Disk, plan: Plan, e: Disk, m: Manifest, h: Home, s: Provider)
    requires Sound(d, plan.agent) && Linkable(d, plan) && Moves(plan) && s !in AuthOf(d, h) && !HasSource(plan.imported, s)
    requires Tidy(plan) && Mid(d, plan, e, m, None) && m.completed
    ensures s !in Held(e, plan.agent, h)
  {
    SavedWhenComplete(d, plan, e, m);
    MidSound(d, plan, e, m, None);
    HeaderOf(d, plan, m);
    LostWhenSaved(d, plan, e, m, ChainAt(d, plan, m), h, s);
  }

  lemma LostWhenSaved(d: Disk, plan: Plan, e: Disk, m: Manifest, chain: seq<Link>, h: Home, s: Provider)
    requires Merged(d, plan) && ManifestOf(plan, m) && KeysMid(d, plan, e, m) && s !in AuthOf(d, h) && !HasSource(plan.imported, s)
    requires Lookup(e.files, SHARD) == Some(Accounts(SavedShard(ShardAccounts(d.files, SHARD), plan.imported)))
    requires ActiveChain(plan.agent, e.manifests) == chain && chain != [] && chain[0].manifest == m
    ensures s !in Held(e, plan.agent, h)
  {
    ImportFound(d, plan, e, m, s);
    NotHeld(e, chain, plan.agent, h, s);
  }

  // Whether every cut of a link keeps what every home holds.
  ghost predicate AlwaysHolds(d: Disk, plan: Plan) {
    forall k: nat, h :: k <= |ApplyRun(d, plan).writes| ==>
      Held(d, plan.agent, h) <= Held(Replay(d, ApplyRun(d, plan).writes[..k]), plan.agent, h)
  }

  // It does exactly if the link replaces no account a home is waiting for.
  lemma GuardIsExact(d: Disk, plan: Plan)
    requires Sound(d, plan.agent) && Planned(d, plan)
    ensures AlwaysHolds(d, plan) <==> Guarded(d, plan)
  {
    if Guarded(d, plan) {
      forall k: nat, h | k <= |ApplyRun(d, plan).writes|
        ensures Held(d, plan.agent, h) <= Held(Replay(d, ApplyRun(d, plan).writes[..k]), plan.agent, h) {
        LinkHolds(d, plan, k);
      }
    } else {
      var h, s := Waiting(d, plan);
      var k := UnguardedLoses(d, plan, h, s);
    }
  }

  lemma Waiting(d: Disk, plan: Plan) returns (h: Home, s: Provider)
    requires Sound(d, plan.agent) && Planned(d, plan) && !Guarded(d, plan)
    ensures Moves(plan) && s in Held(d, plan.agent, h) && s !in AuthOf(d, h) && !CarriesOn(d, plan, s)
  {
    var chain := ActiveChain(plan.agent, d.manifests);
    h, s :| s in Owed(chain, h) && s !in AuthOf(d, h) && Loadable(d, chain, s) && !CarriesOn(d, plan, s);
    PriorHandedOff(d, plan);
    if !Moves(plan) {
      NothingOwedTo(chain, h);
    }
  }

  lemma UnguardedLoses(d: Disk, plan: Plan, h: Home, s: Provider) returns (k: nat)
    requires Sound(d, plan.agent) && Planned(d, plan) && Moves(plan) && s !in AuthOf(d, h) && !CarriesOn(d, plan, s)
    ensures k <= |ApplyRun(d, plan).writes| && s !in Held(Replay(d, ApplyRun(d, plan).writes[..k]), plan.agent, h)
  {
    RunPrefixes(d, plan);
    if !KeepsId(d, plan, s) {
      k := |Opening(d, plan)|;
      OpeningLoses(d, plan, h, s);
    } else {
      k := |ApplyRun(d, plan).writes|;
      CompleteLoses(d, plan, h, s);
    }
  }

  lemma RunPrefixes(d: Disk, plan: Plan)
    ensures var ws := ApplyRun(d, plan).writes;
            |Opening(d, plan)| <= |ws| && ws[..|Opening(d, plan)|] == Opening(d, plan) && ws[..|ws|] == ws
  {
  }

  lemma OwnedIsImported(d: Disk, plan: Plan, s: Provider)
    requires Sound(d, plan.agent) && Merged(d, plan) && Owned(ShardAccounts(d.files, SHARD))
    requires Loadable(d, ActiveChain(plan.agent, d.manifests), s)
    ensures HasSource(plan.imported, s)
  {
    TipShard(plan.agent, d.manifests);
    var m, shard := ActiveChain(plan.agent, d.manifests)[0].manifest, ShardAccounts(d.files, SHARD);
    var id :| id in m.imported && AccountFor(d, m, id, s);
    assert id in shard && shard[id].source == s;
  }

  lemma AbsentCarriesOn(d: Disk, plan: Plan, s: Provider)
    requires Merged(d, plan) && HasSource(plan.imported, s) && s !in AuthOf(d, plan.home)
    ensures CarriesOn(d, plan, s)
  {
    var a :| a in plan.imported && a.source == s;
    assert Taken(d, plan, a);
  }

  ghost predicate GuardedElsewhere(d: Disk, plan: Plan) {
    var chain := ActiveChain(plan.agent, d.manifests);
    forall h, s :: h != plan.home && s in Owed(chain, h) && s !in AuthOf(d, h) && Loadable(d, chain, s) ==> KeepsId(d, plan, s)
  }

  // With a shard of gateway-owned accounts the guard is about other homes only:
  // no source owed there is imported under another id.
  lemma GuardElsewhere(d: Disk, plan: Plan)
    requires Sound(d, plan.agent) && Merged(d, plan) && Owned(ShardAccounts(d.files, SHARD))
    ensures Guarded(d, plan) <==> GuardedElsewhere(d, plan)
  {
    var chain := ActiveChain(plan.agent, d.manifests);
    if GuardedElsewhere(d, plan) {
      forall h, s | s in Owed(chain, h) && s !in AuthOf(d, h) && Loadable(d, chain, s) ensures CarriesOn(d, plan, s) {
        OwnedIsImported(d, plan, s);
        if h == plan.home {
          AbsentCarriesOn(d, plan, s);
        } else {
          assert KeepsId(d, plan, s);
        }
      }
    }
    if Guarded(d, plan) {
      forall h, s | h != plan.home && s in Owed(chain, h) && s !in AuthOf(d, h) && Loadable(d, chain, s) ensures KeepsId(d, plan, s) {
        assert CarriesOn(d, plan, s);
      }
    }
  }

  // ---- An unlink cut anywhere ----

  lemma GrantsHold(d: Disk, e: Disk, agent: Agent)
    requires Sound(d, agent) && OnlyKeysAdded(d, e)
    ensures Sound(e, agent) && forall h :: Held(d, agent, h) <= Held(e, agent, h)
  {
    SameLoadable(d, e, ActiveChain(agent, d.manifests));
  }

  // Marks keep the log sound.
  lemma MarksSound(d: Disk, e: Disk, agent: Agent, tip: Path, bound: nat)
    requires Sound(d, agent) && IsLatest(d.manifests, tip) && Advanced(d.manifests, e.manifests, bound)
    ensures Sound(e, agent)
  {
    ShapeAdvanced(agent, d.manifests, e.manifests, bound);
    LatestAdvanced(d.manifests, e.manifests, tip, bound);
    ChainIs(agent, d.manifests, Some(tip));
    ChainIs(agent, e.manifests, LatestNow(e.manifests, tip));
    LogAdvanced(agent, d.manifests, e.manifests, tip, bound);
    FewerPending(Log(agent, d.manifests, tip), Log(agent, e.manifests, tip), bound);
  }

  lemma FewerPending(before: seq<Link>, after: seq<Link>, bound: nat)
    requires SameLog(before, after, bound) && before != []
    ensures OwedByAgentLink(before) ==> OwedByAgentLink(after)
    ensures HandedOff(before) ==> HandedOff(after)
  {
    forall l | l in after && Pending(l.manifest) ensures exists k :: k in before && Pending(k.manifest) {
      var i :| 0 <= i < |after| && after[i] == l;
      assert Pending(before[i].manifest) && before[i] in before;
    }
    assert SourceOf(after[0].manifest) == SourceOf(before[0].manifest);
  }

  lemma OverHolds(d: Disk, agent: Agent, tip: Path, e: Disk, part: nat, bound: nat)
    requires Sound(d, agent) && IsLatest(d.manifests, tip) && UnlinkChain(d, agent, Log(agent, d.manifests, tip)).ok
    requires var chain := Log(agent, d.manifests, tip);
             HandedOver(d, Replay(d, GrantWrites(d, chain)).auths, RollbackWrites(d, agent, chain), chain, e, part, bound)
    ensures Sound(e, agent) && forall h :: Held(d, agent, h) <= AuthOf(e, h).Keys
  {
    var chain := Log(agent, d.manifests, tip);
    MarksSound(d, e, agent, tip, bound);
    LogRoutes(agent, d.manifests, tip);
    ChainIs(agent, d.manifests, Some(tip));
    AllGiven(d, e, chain);
  }

  lemma AllGiven(d: Disk, e: Disk, chain: seq<Link>)
    requires chain != [] && HasRoutes(chain) && HandoffRun(d, chain).ok && e.auths == Replay(d, GrantWrites(d, chain)).auths
    ensures forall h :: HeldBy(d, chain, h) <= AuthOf(e, h).Keys
  {
    forall h ensures HeldBy(d, chain, h) <= AuthOf(e, h).Keys {
      HandoffGivesHeld(d, chain, h);
    }
  }

  lemma TipHolds(d: Disk, agent: Agent, tip: Path, k: nat)
    requires Sound(d, agent) && IsLatest(d.manifests, tip) && k <= |UnlinkChain(d, agent, Log(agent, d.manifests, tip)).writes|
    ensures var run := UnlinkChain(d, agent, Log(agent, d.manifests, tip));
            var e := Replay(d, run.writes[..k]);
            && Sound(e, agent) && (forall h :: Held(d, agent, h) <= Held(e, agent, h))
            && (run.ok && k == |run.writes| ==> forall h :: Held(d, agent, h) <= AuthOf(e, h).Keys)
  {
    var chain := Log(agent, d.manifests, tip);
    var run := UnlinkChain(d, agent, chain);
    var e := Replay(d, run.writes[..k]);
    if !run.ok {
      ChainRefusal(d, agent, chain);
      GrantsCut(d, run.writes, k);
      GrantsHold(d, e, agent);
    } else {
      LogUnlinkable(agent, d.manifests, tip);
      var part, bound := CutReaches(d, agent, chain, k);
      if k < |GrantWrites(d, chain)| {
        GrantsHold(d, e, agent);
      } else {
        OverHolds(d, agent, tip, e, part, bound);
      }
    }
  }

  // Every cut of an unlink keeps what every home holds; a complete one leaves
  // each home with the keys themselves.
  lemma UnlinkHolds(d: Disk, agent: Agent, root: Option<string>, p: Path, k: nat)
    requires Sound(d, agent) && k <= |UnlinkRun(d, agent, root, p).writes|
    ensures var run := UnlinkRun(d, agent, root, p);
            var e := Replay(d, run.writes[..k]);
            && Sound(e, agent) && (forall h :: Held(d, agent, h) <= Held(e, agent, h))
            && (run.ok && k == |run.writes| ==> forall h :: Held(d, agent, h) <= AuthOf(e, h).Keys)
  {
    var latest := SomeLatest(d.manifests);
    if latest == Some(p) {
      TipRun(d, agent, root, p);
      TipHolds(d, agent, p, k);
    } else {
      OnlyTipUnlinks(d, agent, root, p, latest);
    }
  }
}
