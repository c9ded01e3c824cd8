// The invariant that keeps every credential somewhere, and why a link or sync
// keeps it wherever it is cut.
module CredentialSafety {
  import opened Wrappers
  import opened MigrationDisk
  import opened ManifestLog
  import opened CredentialHandoff
  import opened Reconcile
  import opened ReconcileCuts
  import opened LinkUndo
  import opened HandoffBacking
  import opened CutHandoff
  import opened CutUnlink
  import opened ChainInversion
  import opened UnlinkInverts

  // The providers with an account in the gateway shard.
  function Sources(files: map<Path, Content>): set<Provider> {
    var shard := ShardAccounts(files, SHARD);
    set id | id in shard :: shard[id].source
  }

  // The providers with a credential, be it the agent's or the gateway's.
  function Covered(d: Disk, h: Home): set<Provider> {
    AuthOf(d, h).Keys + Sources(d.files)
  }

  predicate BackupCovered(c: Content, covered: set<Provider>) {
    c.Accounts? && Owned(c.accounts) && forall id :: id in c.accounts ==> c.accounts[id].source in covered
  }

  // Rolling the shard back to any of its backups brings nothing uncovered.
  ghost predicate BackupsCovered(files: map<Path, Content>, covered: set<Provider>) {
    forall n: nat :: BackupOf(SHARD, n) in files ==> BackupCovered(files[BackupOf(SHARD, n)], covered)
  }

  // `chain` owes `s` to the agent, and its newest manifest leads to an account for it.
  predicate Owes(files: map<Path, Content>, chain: seq<Link>, s: Provider) {
    && chain != [] && chain[0].manifest.shard == Some(SHARD) && s in PendingSources(chain)
    && var shard := ShardAccounts(files, SHARD);
      exists id :: id in chain[0].manifest.imported && id in shard && shard[id].source == s
  }

  // What only the gateway holds is owed to the agent.
  predicate AllOwed(d: Disk, h: Home, chain: seq<Link>) {
    forall s :: s in Sources(d.files) && s !in AuthOf(d, h) ==> Owes(d.files, chain, s)
  }

  ghost predicate OwnedHome(ms: map<Path, Manifest>, h: Home) {
    forall p :: p in ms && !ms[p].handoff ==> ms[p].home == Some(h)
  }

  ghost predicate Kept(d: Disk, h: Home, chain: seq<Link>) {
    ShardOwned(d.files) && BackupsCovered(d.files, Covered(d, h)) && AllOwed(d, h, chain)
  }

  ghost predicate Safe(d: Disk, agent: Agent, h: Home, latest: Option<Path>) {
    && MovesCredentials(agent)
    && LogShape(agent, d.manifests) && LatestIs(d.manifests, latest) && OwnedHome(d.manifests, h)
    && Kept(d, h, Prior(agent, d.manifests, latest))
  }

  // ---- Backups of the shard ----

  lemma ShardKept(d: Disk, e: Disk)
    requires Lookup(e.files, SHARD) == Lookup(d.files, SHARD)
    ensures ShardAccounts(e.files, SHARD) == ShardAccounts(d.files, SHARD) && Sources(e.files) == Sources(d.files)
    ensures ShardOwned(d.files) ==> ShardOwned(e.files)
  {
    assert ShardAccounts(e.files, SHARD) == ShardAccounts(d.files, SHARD);
  }

  lemma ShardCovered(d: Disk, h: Home, c: Content)
    requires ShardOwned(d.files) && Lookup(d.files, SHARD) == Some(c)
    ensures BackupCovered(c, Covered(d, h))
  {
    assert ShardAccounts(d.files, SHARD) == c.accounts;
  }

  // Every shard backup is an old one or a copy of the shard.
  ghost predicate BackupsFrom(fs: map<Path, Content>, gs: map<Path, Content>) {
    forall n: nat :: Lookup(gs, BackupOf(SHARD, n)) in {Lookup(fs, BackupOf(SHARD, n)), Lookup(fs, SHARD)}
  }

  lemma BackupsStay(d: Disk, e: Disk, h: Home, covered: set<Provider>)
    requires ShardOwned(d.files) && BackupsCovered(d.files, Covered(d, h)) && Covered(d, h) <= covered
    requires BackupsFrom(d.files, e.files)
    ensures BackupsCovered(e.files, covered)
  {
    forall n: nat | BackupOf(SHARD, n) in e.files ensures BackupCovered(e.files[BackupOf(SHARD, n)], covered) {
      var c := e.files[BackupOf(SHARD, n)];
      assert Lookup(e.files, BackupOf(SHARD, n)) == Some(c);
      if Lookup(d.files, BackupOf(SHARD, n)) == Some(c) {
        assert BackupCovered(d.files[BackupOf(SHARD, n)], Covered(d, h));
      } else {
        ShardCovered(d, h, c);
      }
    }
  }

  // ---- A link cut after its manifest ----

  lemma SavedSources(files: map<Path, Content>, imported: seq<Account>)
    requires HoldsExactly(files, imported)
    ensures forall s :: s in Sources(files) <==> HasSource(imported, s)
  {
    var saved := ShardAccounts(files, SHARD);
    forall s ensures s in Sources(files) <==> HasSource(imported, s) {
      if a :| a in imported && a.source == s {
        assert a.id in saved;
      }
    }
  }

  // Saving the shard and then stripping keys loses no provider.
  lemma LinkCovers(d: Disk, plan: Plan, e: Disk)
    requires DistinctAccounts(plan.imported) && Covers(ShardAccounts(d.files, SHARD), plan.imported)
    requires forall s :: s in plan.transferred ==> HasSource(plan.imported, s)
    requires HoldsExactly(e.files, plan.imported) && KeysCut(d, plan, e)
    ensures forall h :: Covered(d, h) <= Covered(e, h)
  {
    SavedSources(e.files, plan.imported);
  }

  // What only the gateway holds at the cut was transferred now or owed before.
  lemma OwedWhenSaved(d: Disk, plan: Plan, e: Disk, m: Manifest, prior: seq<Link>)
    requires Imports(d, plan) && ManifestOf(plan, m) && (!Pending(m) ==> plan.transferred == {})
    requires HoldsExactly(e.files, plan.imported) && KeysCut(d, plan, e)
    requires AllOwed(d, plan.home, prior)
    ensures AllOwed(e, plan.home, [Link(ManifestAt(plan.stamp), m)] + prior)
  {
    var chain := [Link(ManifestAt(plan.stamp), m)] + prior;
    SavedSources(e.files, plan.imported);
    ImportedIds(plan, m);
    OwedAt(d, plan, m, prior);
    forall s | s in Sources(e.files) && s !in AuthOf(e, plan.home) ensures Owes(e.files, chain, s) {
      var a :| a in plan.imported && a.source == s;
      assert a.id in m.imported && ShardAccounts(e.files, SHARD)[a.id] == a;
      if s !in plan.transferred {
        assert s !in AuthOf(d, plan.home);
        assert ShardAccounts(d.files, SHARD)[a.id] == a;
        assert Owes(d.files, prior, s);
      }
    }
  }

  lemma TransferredDiscovered(d: Disk, plan: Plan)
    requires Imports(d, plan)
    ensures plan.transferred <= AuthOf(d, plan.home).Keys
  {
    forall s | s in plan.transferred ensures s in AuthOf(d, plan.home) {
      var a :| a in plan.imported && a.source == s;
      assert Discovered(d, plan, a);
    }
  }

  // An account in the shard is imported, or its source is read from the agent now.
  lemma ShardImported(d: Disk, plan: Plan, s: Provider)
    requires Imports(d, plan) && s in Sources(d.files) && s !in plan.transferred
    ensures exists a :: a in plan.imported && a.source == s && Lookup(ShardAccounts(d.files, SHARD), a.id) == Some(a)
  {
    var shard := ShardAccounts(d.files, SHARD);
    var id :| id in shard && shard[id].source == s;
    var a :| a in plan.imported && a.source == shard[id].source;
    assert a.id in shard && shard[a.id] == a;
  }

  lemma OwedWhenUnsaved(d: Disk, plan: Plan, e: Disk, m: Manifest, prior: seq<Link>)
    requires Imports(d, plan) && ManifestOf(plan, m)
    requires Lookup(e.files, SHARD) == Lookup(d.files, SHARD) && e.auths == d.auths
    requires AllOwed(d, plan.home, prior)
    ensures AllOwed(e, plan.home, [Link(ManifestAt(plan.stamp), m)] + prior)
  {
    var chain := [Link(ManifestAt(plan.stamp), m)] + prior;
    ShardKept(d, e);
    ImportedIds(plan, m);
    OwedAt(d, plan, m, prior);
    TransferredDiscovered(d, plan);
    assert AuthOf(e, plan.home) == AuthOf(d, plan.home);
    forall s | s in Sources(e.files) && s !in AuthOf(e, plan.home) ensures Owes(e.files, chain, s) {
      assert Owes(d.files, prior, s);
      ShardImported(d, plan, s);
    }
  }

  // ---- A link keeps the invariant ----

  lemma MidBackups(d: Disk, plan: Plan, gs: map<Path, Content>, files: seq<FileBackup>, dirty: Option<Path>)
    requires Tidy(plan) && FilesMid(d.files, plan, gs, files, dirty)
    ensures BackupsFrom(d.files, gs)
  {
    var paths := Tracked(plan);
    forall n: nat ensures Lookup(gs, BackupOf(SHARD, n)) in {Lookup(d.files, BackupOf(SHARD, n)), Lookup(d.files, SHARD)} {
      var p := BackupOf(SHARD, n);
      assert p !in paths;
      if CopiedAside(d.files, paths, p, plan.stamp) {
        var i :| 0 <= i < |paths| && paths[i] == SHARD;
      }
    }
  }

  // A link that uses only the main credentials owes nothing and changes none.
  lemma MainOwesNothing(d: Disk, plan: Plan, h: Home)
    requires Linkable(d, plan) && plan.source.FromMain? && AllOwed(d, h, PriorOf(d, plan))
    ensures Sources(d.files) <= AuthOf(d, h).Keys
  {
    if plan.previous.Some? {
      var m := d.manifests[plan.previous.value];
      assert PriorOf(d, plan)[0].manifest == m;
      assert PreviousAccepted(d, plan, plan.previous.value);
      assert SourceOf(m) == plan.source;
      assert m.shard.None?;
    }
    forall s | s in Sources(d.files) ensures s in AuthOf(d, h) {
      assert !Owes(d.files, PriorOf(d, plan), s);
    }
  }

  lemma MainKept(d: Disk, plan: Plan, e: Disk, m: Manifest, chain: seq<Link>, h: Home)
    requires ShardOwned(d.files) && BackupsCovered(d.files, Covered(d, h)) && BackupsFrom(d.files, e.files)
    requires Sources(d.files) <= AuthOf(d, h).Keys
    requires Lookup(e.files, SHARD) == Lookup(d.files, SHARD) && e.auths == d.auths
    ensures Kept(e, h, chain) && forall k :: Covered(d, k) <= Covered(e, k)
  {
    ShardKept(d, e);
    assert forall k :: AuthOf(e, k) == AuthOf(d, k);
    BackupsStay(d, e, h, Covered(e, h));
  }

  lemma SavedKept(d: Disk, plan: Plan, e: Disk, m: Manifest, prior: seq<Link>)
    requires Imports(d, plan) && ManifestOf(plan, m) && (!Pending(m) ==> plan.transferred == {})
    requires KeysCut(d, plan, e) && HoldsExactly(e.files, plan.imported) && AllOwed(d, plan.home, prior)
    ensures ShardOwned(e.files) && AllOwed(e, plan.home, [Link(ManifestAt(plan.stamp), m)] + prior)
    ensures forall k :: Covered(d, k) <= Covered(e, k)
  {
    LinkCovers(d, plan, e);
    OwedWhenSaved(d, plan, e, m, prior);
  }

  lemma UnsavedKept(d: Disk, plan: Plan, e: Disk, m: Manifest, prior: seq<Link>)
    requires Imports(d, plan) && ManifestOf(plan, m) && ShardOwned(d.files)
    requires Lookup(e.files, SHARD) == Lookup(d.files, SHARD) && e.auths == d.auths && AllOwed(d, plan.home, prior)
    ensures ShardOwned(e.files) && AllOwed(e, plan.home, [Link(ManifestAt(plan.stamp), m)] + prior)
    ensures forall k :: Covered(d, k) <= Covered(e, k)
  {
    ShardKept(d, e);
    OwedWhenUnsaved(d, plan, e, m, prior);
    assert forall k :: AuthOf(e, k) == AuthOf(d, k);
  }

  lemma AgentKept(d: Disk, plan: Plan, e: Disk, m: Manifest, prior: seq<Link>)
    requires Imports(d, plan) && ManifestOf(plan, m) && (!Pending(m) ==> plan.transferred == {})
    requires KeysCut(d, plan, e) && ShardAt(d, plan, e, m) && ShardOwned(d.files) && AllOwed(d, plan.home, prior)
    ensures ShardOwned(e.files) && AllOwed(e, plan.home, [Link(ManifestAt(plan.stamp), m)] + prior)
    ensures forall k :: Covered(d, k) <= Covered(e, k)
  {
    if Lookup(e.files, SHARD) == Some(Accounts(SavedShard(ShardAccounts(d.files, SHARD), plan.imported))) {
      SavedHolds(d, plan, e);
      SavedKept(d, plan, e, m, prior);
    } else {
      UnsavedKept(d, plan, e, m, prior);
    }
  }

  lemma CutKept(d: Disk, plan: Plan, e: Disk, m: Manifest, dirty: Option<Path>)
    requires Linkable(d, plan) && MovesCredentials(plan.agent)
    requires Tidy(plan) && Mid(d, plan, e, m, dirty) && Kept(d, plan.home, PriorOf(d, plan))
    ensures Kept(e, plan.home, ChainAt(d, plan, m)) && forall k :: Covered(d, k) <= Covered(e, k)
  {
    var prior := PriorOf(d, plan);
    HeaderOf(d, plan, m);
    CutKeys(d, plan, e, m);
    MidBackups(d, plan, e.files, m.files, dirty);
    if plan.source.FromAgent? {
      MergedImports(d, plan);
      ShardOfMid(d, plan, e, m, dirty);
      OwedIsOwned(d, plan, m);
      AgentKept(d, plan, e, m, prior);
      BackupsStay(d, e, plan.home, Covered(e, plan.home));
    } else {
      MainOwesNothing(d, plan, plan.home);
      MainKept(d, plan, e, m, ChainAt(d, plan, m), plan.home);
    }
  }

  lemma CutOwnedHome(d: Disk, plan: Plan, e: Disk, m: Manifest)
    requires OwnedHome(d.manifests, plan.home) && Header(d, plan, m)
    requires e.manifests == d.manifests[ManifestAt(plan.stamp) := m]
    ensures OwnedHome(e.manifests, plan.home)
  {
    HeaderOf(d, plan, m);
  }
}
