// Any number of completed links and syncs, then one more cut anywhere:
// unlinking the newest gives back the disk before the first.
module ChainInversion {
  import opened Wrappers
  import opened MigrationDisk
  import opened ManifestChain
  import opened ManifestLog
  import opened FileRollback
  import opened BindingRollback
  import opened CredentialHandoff
  import opened Unlink
  import opened Reconcile
  import opened ReconcileCuts
  import opened LinkUndo
  import opened HandoffBacking
  import opened CutHandoff
  import opened CutUnlink

  // Files other than backup copies.
  ghost predicate SameFiles(fs: Files, gs: Files) {
    forall p: Path :: !p.BackupOf? ==> Lookup(fs, p) == Lookup(gs, p)
  }

  // ---- The invariant between completed links ----

  ghost predicate FilesUndo(base: Disk, d: Disk, prior: seq<Link>) {
    RollbackIsSafe(d.files, prior) && SameFiles(RestoreChain(d.files, prior), base.files)
  }

  ghost predicate BindingUndo(base: Disk, d: Disk, agent: Agent, prior: seq<Link>) {
    && BindingRun(agent, Lookup(d.bindings, agent), prior).ok
    && OldestBefore(Lookup(d.bindings, agent), prior) == Lookup(base.bindings, agent)
    && forall a :: a != agent ==> Lookup(d.bindings, a) == Lookup(base.bindings, a)
  }

  // All keys missing from home `h` are owed to it, and the shard holds them.
  ghost predicate KeysUndo(base: Disk, d: Disk, prior: seq<Link>, h: Home) {
    var owed, shard := PendingSources(prior), ShardAccounts(d.files, SHARD);
    && (forall l :: l in prior && Pending(l.manifest) ==> l.manifest.home == Some(h))
    && (forall k :: k != h ==> AuthOf(d, k) == AuthOf(base, k))
    && (forall s :: s in AuthOf(d, h) ==> s in AuthOf(base, h) && AuthOf(d, h)[s] == AuthOf(base, h)[s])
    && (forall s :: s in AuthOf(base, h) ==> s in AuthOf(d, h) || s in owed)
    && (forall s :: s in owed ==> s in AuthOf(base, h))
    && (forall id :: id in shard && shard[id].source in owed ==> shard[id].secret == AuthOf(base, h)[shard[id].source])
  }

  predicate OwedByAgentLink(prior: seq<Link>) {
    (exists l :: l in prior && Pending(l.manifest)) ==> SourceOf(prior[0].manifest).FromAgent?
  }

  ghost predicate Undoable(base: Disk, d: Disk, agent: Agent, h: Home, latest: Option<Path>)
  {
    && LogShape(agent, d.manifests) && LatestIs(d.manifests, latest)
    && var prior := Prior(agent, d.manifests, latest);
    && Backed(d, agent, prior) && OwedByAgentLink(prior)
    && FilesUndo(base, d, prior) && BindingUndo(base, d, agent, prior) && KeysUndo(base, d, prior, h)
  }

  lemma LatestUnique(ms: map<Path, Manifest>, a: Option<Path>, b: Option<Path>)
    requires LatestIs(ms, a) && LatestIs(ms, b)
    ensures a == b
  {
  }

  lemma NothingLinked(base: Disk, agent: Agent, h: Home)
    requires LogShape(agent, base.manifests) && NoneActive(base.manifests)
    requires MovesCredentials(agent) ==> ShardOwned(base.files)
    ensures Undoable(base, base, agent, h, None)
  {
  }

  // ---- What planning adds ----

  lemma PlanContinues(base: Disk, d: Disk, plan: Plan, h: Home)
    requires Undoable(base, d, plan.agent, h, plan.previous) && Planned(d, plan)
    ensures Continues(d, plan, PriorOf(d, plan))
  {
    var prior := PriorOf(d, plan);
    if plan.previous.Some? {
      assert prior[0] == Link(plan.previous.value, d.manifests[plan.previous.value]);
      assert PreviousAccepted(d, plan, plan.previous.value);
    }
  }

  lemma SourceOfHeader(d: Disk, plan: Plan, m: Manifest)
    requires Header(d, plan, m)
    ensures plan.source.FromAgent? ==> SourceOf(m).FromAgent?
  {
  }

  // ---- Keys at a cut ----

  // The keys at a cut: untouched, or stripped of the transferred sources.
  ghost predicate KeysCut(d: Disk, plan: Plan, e: Disk) {
    || e.auths == d.auths
    || (plan.source.FromAgent? && e.auths == d.auths[plan.home := AuthOf(d, plan.home) - plan.transferred])
  }

  lemma SecretsOfImports(base: Disk, d: Disk, plan: Plan, prior: seq<Link>)
    requires Imports(d, plan) && KeysUndo(base, d, prior, plan.home)
    ensures forall a :: a in plan.imported && a.source in plan.transferred + PendingSources(prior) ==>
              a.source in AuthOf(base, plan.home) && a.secret == AuthOf(base, plan.home)[a.source]
  {
    forall a | a in plan.imported && a.source in plan.transferred ensures Discovered(d, plan, a) {
    }
  }

  lemma TransferredInBase(base: Disk, d: Disk, plan: Plan, prior: seq<Link>)
    requires Imports(d, plan) && KeysUndo(base, d, prior, plan.home)
    ensures forall s :: s in plan.transferred ==> s in AuthOf(d, plan.home) && s in AuthOf(base, plan.home)
  {
    forall s | s in plan.transferred ensures s in AuthOf(d, plan.home) {
      var a :| a in plan.imported && a.source == s;
      assert Discovered(d, plan, a);
    }
  }

  lemma OwedAt(d: Disk, plan: Plan, m: Manifest, prior: seq<Link>)
    requires Imports(d, plan) && ManifestOf(plan, m)
    ensures PendingSources([Link(ManifestAt(plan.stamp), m)] + prior)
         == (if Pending(m) then plan.transferred else {}) + PendingSources(prior)
  {
    TransferredSources(d, plan, m);
    assert ([Link(ManifestAt(plan.stamp), m)] + prior)[1..] == prior;
  }

  // ---- Keys after a completed link ----

  lemma OwedIsOwned(d: Disk, plan: Plan, m: Manifest)
    requires Imports(d, plan) && Header(d, plan, m) && plan.source.FromAgent?
    ensures plan.transferred != {} ==> Pending(m)
  {
    if s :| s in plan.transferred {
      RoutesOfImports(d, plan);
      var a :| a in plan.imported && a.source == s;
      assert RouteFor(a, plan.transferred).transfer;
      assert RouteFor(a, plan.transferred) in plan.routes;
    }
  }

  lemma SavedIsImported(d: Disk, plan: Plan, e: Disk)
    requires DistinctAccounts(plan.imported) && Owned(ShardAccounts(d.files, SHARD)) && Covers(ShardAccounts(d.files, SHARD), plan.imported)
    requires Lookup(e.files, SHARD) == Some(Accounts(SavedShard(ShardAccounts(d.files, SHARD), plan.imported)))
    ensures var saved := ShardAccounts(e.files, SHARD);
            && (forall id :: id in saved ==> saved[id] in plan.imported && saved[id].id == id)
            && (forall a :: a in plan.imported ==> a.id in saved && saved[a.id] == a)
  {
    SavedAccounts(ShardAccounts(d.files, SHARD), plan.imported);
  }

  lemma KeysKept(base: Disk, d: Disk, plan: Plan, e: Disk, m: Manifest, prior: seq<Link>)
    requires Imports(d, plan) && ManifestOf(plan, m) && (!Pending(m) ==> plan.transferred == {})
    requires KeysUndo(base, d, prior, plan.home) && KeysCut(d, plan, e)
    requires HoldsExactly(e.files, plan.imported)
    ensures KeysUndo(base, e, [Link(ManifestAt(plan.stamp), m)] + prior, plan.home)
  {
    var chain := [Link(ManifestAt(plan.stamp), m)] + prior;
    SecretsOfImports(base, d, plan, prior);
    TransferredInBase(base, d, plan, prior);
    OwedAt(d, plan, m, prior);
    assert PendingSources(chain) == plan.transferred + PendingSources(prior);
    StrippedKeys(base, d, plan, e, PendingSources(prior));
  }

  lemma StrippedKeys(base: Disk, d: Disk, plan: Plan, e: Disk, owed: set<Provider>)
    requires KeysCut(d, plan, e)
    requires forall s :: s in AuthOf(d, plan.home) ==> s in AuthOf(base, plan.home) && AuthOf(d, plan.home)[s] == AuthOf(base, plan.home)[s]
    requires forall s :: s in AuthOf(base, plan.home) ==> s in AuthOf(d, plan.home) || s in owed
    ensures forall s :: s in AuthOf(e, plan.home) ==> s in AuthOf(base, plan.home) && AuthOf(e, plan.home)[s] == AuthOf(base, plan.home)[s]
    ensures forall s :: s in AuthOf(base, plan.home) ==> s in AuthOf(e, plan.home) || s in plan.transferred + owed
    ensures forall k :: k != plan.home ==> AuthOf(e, k) == AuthOf(d, k)
  {
  }

  // ---- Keys after an unlink ----

  // The accounts loaded at a cut give back exactly the missing keys.
  ghost predicate KeysMeet(base: Disk, e: Disk, owed: set<Provider>, accounts: seq<Account>, h: Home) {
    && (forall a :: a in accounts && a.source in owed ==>
          a.source in AuthOf(e, h) || (a.source in AuthOf(base, h) && a.secret == AuthOf(base, h)[a.source]))
    && (forall s :: s in AuthOf(base, h) ==> s in AuthOf(e, h) || (s in owed && HasSource(accounts, s)))
    && (forall s :: s in AuthOf(e, h) ==> s in AuthOf(base, h) && AuthOf(e, h)[s] == AuthOf(base, h)[s])
    && (forall k :: k != h ==> AuthOf(e, k) == AuthOf(base, k))
  }

  lemma {:induction false} AllTargets(chain: seq<Link>, byId: map<AccountId, Account>, h: Home)
    requires HasRoutes(chain) && forall l :: l in chain && Pending(l.manifest) ==> l.manifest.home == Some(h)
    ensures TargetsAt(chain, byId, h) == PendingSources(chain)
  {
    if chain != [] {
      assert chain[0] in chain && forall l :: l in chain[1..] ==> l in chain;
      AllTargets(chain[1..], byId, h);
    }
  }

  lemma HandedBack(base: Disk, e: Disk, owed: set<Provider>, accounts: seq<Account>, h: Home, f: map<Provider, Secret>)
    requires KeysMeet(base, e, owed, accounts, h)
    requires f == (map s | s in owed && s in BySource(accounts) :: BySource(accounts)[s].secret) + AuthOf(e, h)
    ensures f == AuthOf(base, h)
  {
    BySourceFrom(accounts);
    assert forall s :: s in f <==> s in AuthOf(base, h);
    assert forall s :: s in f ==> f[s] == AuthOf(base, h)[s];
  }

  lemma KeysReturned(base: Disk, e: Disk, chain: seq<Link>, h: Home)
    requires chain != [] && HandoffRun(e, chain).ok && HasRoutes(chain)
    requires forall l :: l in chain && Pending(l.manifest) ==> l.manifest.home == Some(h)
    requires exists l :: l in chain && Pending(l.manifest)
    requires Loaded(e, chain).Ok? ==> KeysMeet(base, e, PendingSources(chain), Loaded(e, chain).value, h)
    ensures forall k :: AuthOf(Replay(e, HandoffRun(e, chain).writes), k) == AuthOf(base, k)
  {
    var accounts := Loaded(e, chain).value;
    forall k ensures AuthOf(Replay(e, HandoffRun(e, chain).writes), k) == AuthOf(base, k) {
      HandoffKeys(e, chain, k);
      if k == h {
        AllTargets(chain, ById(accounts), h);
        HandedBack(base, e, PendingSources(chain), accounts, h, HandedKeys(chain, accounts, h) + AuthOf(e, h));
      } else {
        NoHomeNoTargets(chain, ById(accounts), k);
        assert HandedKeys(chain, accounts, k) == map[];
        assert map[] + AuthOf(e, k) == AuthOf(e, k);
      }
    }
  }

  // Nothing is owed: nothing is granted, and no key was missing.
  lemma NoneOwed(base: Disk, d: Disk, e: Disk, prior: seq<Link>, chain: seq<Link>, h: Home)
    requires chain != [] && forall l :: l in chain ==> l.manifest.handoff
    requires KeysUndo(base, d, prior, h) && forall l :: l in prior ==> l in chain
    requires forall k :: AuthOf(e, k) == AuthOf(d, k)
    ensures HandoffRun(e, chain).writes == []
    ensures forall k :: AuthOf(Replay(e, HandoffRun(e, chain).writes), k) == AuthOf(base, k)
  {
    NothingPending(prior);
    assert AuthOf(d, h) == AuthOf(base, h);
  }

  lemma SameKeys(d: Disk, plan: Plan, e: Disk)
    requires KeysCut(d, plan, e) && plan.transferred == {}
    ensures forall k :: AuthOf(e, k) == AuthOf(d, k)
  {
    assert AuthOf(d, plan.home) - {} == AuthOf(d, plan.home);
  }

  lemma {:induction false} NothingPending(chain: seq<Link>)
    requires forall l :: l in chain ==> l.manifest.handoff
    ensures PendingSources(chain) == {}
  {
    if chain != [] {
      assert chain[0] in chain && forall l :: l in chain[1..] ==> l in chain;
      NothingPending(chain[1..]);
    }
  }

  lemma MeetWhenSaved(base: Disk, d: Disk, plan: Plan, e: Disk, m: Manifest, prior: seq<Link>, accounts: seq<Account>)
    requires Imports(d, plan) && Moves(plan) && Backed(d, plan.agent, prior) && ManifestOf(plan, m) && (!Pending(m) ==> plan.transferred == {})
    requires KeysUndo(base, d, prior, plan.home) && KeysCut(d, plan, e)
    requires forall a :: a in accounts <==> a in plan.imported
    ensures KeysMeet(base, e, PendingSources([Link(ManifestAt(plan.stamp), m)] + prior), accounts, plan.home)
  {
    var h := plan.home;
    SecretsOfImports(base, d, plan, prior);
    TransferredInBase(base, d, plan, prior);
    OwedAt(d, plan, m, prior);
    var owed := plan.transferred + PendingSources(prior);
    assert PendingSources([Link(ManifestAt(plan.stamp), m)] + prior) == owed;
    AllSupplied(d, plan, prior, accounts);
  }

  lemma AllSupplied(d: Disk, plan: Plan, prior: seq<Link>, accounts: seq<Account>)
    requires Imports(d, plan) && PendingBacked(d.files, prior) && forall a :: a in plan.imported ==> a in accounts
    ensures forall s :: s in plan.transferred + PendingSources(prior) ==> HasSource(accounts, s)
  {
    forall s | s in plan.transferred + PendingSources(prior) ensures HasSource(accounts, s) {
      OwedImported(d, plan, prior, s);
      var a :| a in plan.imported && a.source == s;
      assert a in accounts;
    }
  }

  lemma OwedImported(d: Disk, plan: Plan, prior: seq<Link>, s: Provider)
    requires Imports(d, plan) && PendingBacked(d.files, prior) && s in plan.transferred + PendingSources(prior)
    ensures HasSource(plan.imported, s)
  {
    if s !in plan.transferred {
      var shard := ShardAccounts(d.files, SHARD);
      var id :| id in shard && shard[id].source == s;
      var a :| a in plan.imported && a.source == shard[id].source;
    }
  }

  lemma MeetWhenUnsaved(base: Disk, d: Disk, plan: Plan, e: Disk, m: Manifest, prior: seq<Link>, accounts: seq<Account>)
    requires Imports(d, plan) && Moves(plan) && Backed(d, plan.agent, prior) && ManifestOf(plan, m) && (!Pending(m) ==> plan.transferred == {})
    requires KeysUndo(base, d, prior, plan.home) && e.auths == d.auths
    requires forall a :: a in accounts ==> exists id :: id in ShardAccounts(d.files, SHARD) && ShardAccounts(d.files, SHARD)[id] == a
    requires forall a :: a in plan.imported && a.id in ShardAccounts(d.files, SHARD) && ShardAccounts(d.files, SHARD)[a.id] == a ==> a in accounts
    ensures KeysMeet(base, e, PendingSources([Link(ManifestAt(plan.stamp), m)] + prior), accounts, plan.home)
  {
    var h := plan.home;
    TransferredInBase(base, d, plan, prior);
    OwedAt(d, plan, m, prior);
    var owed := plan.transferred + PendingSources(prior);
    assert PendingSources([Link(ManifestAt(plan.stamp), m)] + prior) == owed;
    assert forall k :: AuthOf(e, k) == AuthOf(d, k);
    forall s | s in AuthOf(base, h) && s !in AuthOf(e, h) ensures s in owed && HasSource(accounts, s) {
      OwedImported(d, plan, prior, s);
      var a :| a in plan.imported && a.source == s;
      assert a in accounts;
    }
  }

  lemma StillLoaded(d: Disk, plan: Plan, e: Disk, m: Manifest)
    requires ManifestOf(plan, m) && LoadTransferred(e, m).Ok? && Lookup(e.files, SHARD) == Lookup(d.files, SHARD)
    ensures forall a :: a in plan.imported && a.id in ShardAccounts(d.files, SHARD) && ShardAccounts(d.files, SHARD)[a.id] == a
              ==> a in LoadTransferred(e, m).value
  {
    ImportedIds(plan, m);
    if m.imported != [] {
      Collected(e, m, m.imported);
    }
    forall a | a in plan.imported && a.id in ShardAccounts(d.files, SHARD) && ShardAccounts(d.files, SHARD)[a.id] == a
      ensures a in LoadTransferred(e, m).value {
      assert FindAccount(e, m, a.id) == Some(a);
    }
  }

  // ---- A completed link keeps the chain undoable ----

  // What the import has for every source owed.
  ghost predicate Supplies(imported: seq<Account>, owed: set<Provider>) {
    && (forall s :: s in owed ==> HasSource(imported, s))
    && (forall a :: a in imported && a.source in owed ==> a.exportable)
  }

  lemma ImportSupplies(d: Disk, plan: Plan, prior: seq<Link>)
    requires Imports(d, plan) && PendingBacked(d.files, prior)
    ensures Supplies(plan.imported, plan.transferred + PendingSources(prior))
  {
    var owed := plan.transferred + PendingSources(prior);
    forall s | s in owed ensures HasSource(plan.imported, s) {
      OwedImported(d, plan, prior, s);
    }
    forall a | a in plan.imported && a.source in owed ensures a.exportable {
      ImportedExportable(d, plan, prior, a);
    }
  }

  ghost predicate HoldsExactly(files: Files, imported: seq<Account>) {
    var saved := ShardAccounts(files, SHARD);
    && ShardReadable(files, SHARD)
    && (forall id :: id in saved ==> saved[id] in imported && saved[id].id == id && saved[id].owner == Gateway)
    && (forall a :: a in imported ==> a.id in saved && saved[a.id] == a)
  }

  lemma SavedHolds(d: Disk, plan: Plan, e: Disk)
    requires Imports(d, plan) && Owned(ShardAccounts(d.files, SHARD))
    requires Lookup(e.files, SHARD) == Some(Accounts(SavedShard(ShardAccounts(d.files, SHARD), plan.imported)))
    ensures HoldsExactly(e.files, plan.imported)
  {
    SavedIsImported(d, plan, e);
  }

  lemma SavedBacks(files: Files, imported: seq<Account>, chain: seq<Link>, owed: set<Provider>)
    requires HoldsExactly(files, imported) && Supplies(imported, owed) && PendingSources(chain) <= owed
    ensures ShardOwned(files) && PendingBacked(files, chain)
  {
    var saved := ShardAccounts(files, SHARD);
    forall s | s in owed ensures exists id :: id in saved && saved[id].source == s {
      var a :| a in imported && a.source == s;
      assert a.id in saved;
    }
  }

  // The shard and the keys after a completed link.
  lemma CutKeys(d: Disk, plan: Plan, e: Disk, m: Manifest)
    requires KeysMid(d, plan, e, m)
    ensures KeysCut(d, plan, e)
  {
  }

  lemma RoutesAfter(m: Manifest, l: Link, prior: seq<Link>)
    requires HasRoutes(prior) && l.manifest == m && (Pending(m) ==> m.home.Some? && m.routes != [])
    ensures HasRoutes([l] + prior)
  {
  }

  lemma SavedWhenComplete(d: Disk, plan: Plan, e: Disk, m: Manifest)
    requires Tidy(plan) && plan.source.FromAgent? && Mid(d, plan, e, m, None) && m.completed
    ensures Lookup(e.files, SHARD) == Some(Accounts(SavedShard(ShardAccounts(d.files, SHARD), plan.imported)))
  {
    ShardOfMid(d, plan, e, m, None);
  }

  lemma CredentialsAfter(base: Disk, d: Disk, plan: Plan, e: Disk, m: Manifest, prior: seq<Link>)
    requires Tidy(plan) && Mid(d, plan, e, m, None) && m.completed
    requires Continues(d, plan, prior) && KeysUndo(base, d, prior, plan.home)
    requires TakesOver(d, plan)
    ensures Backed(e, plan.agent, [Link(ManifestAt(plan.stamp), m)] + prior)
    ensures KeysUndo(base, e, [Link(ManifestAt(plan.stamp), m)] + prior, plan.home)
  {
    HeaderOf(d, plan, m);
    CutKeys(d, plan, e, m);
    RoutesAfter(m, Link(ManifestAt(plan.stamp), m), prior);
    if Moves(plan) {
      MergedImports(d, plan);
      SavedWhenComplete(d, plan, e, m);
      OwedIsOwned(d, plan, m);
      AgentCredentials(base, d, plan, e, m, prior);
    } else {
      OtherCredentials(base, d, plan, e, m, prior);
    }
  }

  lemma AgentCredentials(base: Disk, d: Disk, plan: Plan, e: Disk, m: Manifest, prior: seq<Link>)
    requires Imports(d, plan) && Moves(plan) && Backed(d, plan.agent, prior) && KeysUndo(base, d, prior, plan.home)
    requires ManifestOf(plan, m) && (!Pending(m) ==> plan.transferred == {}) && KeysCut(d, plan, e)
    requires HasRoutes([Link(ManifestAt(plan.stamp), m)] + prior)
    requires Lookup(e.files, SHARD) == Some(Accounts(SavedShard(ShardAccounts(d.files, SHARD), plan.imported)))
    ensures Backed(e, plan.agent, [Link(ManifestAt(plan.stamp), m)] + prior)
    ensures KeysUndo(base, e, [Link(ManifestAt(plan.stamp), m)] + prior, plan.home)
  {
    ImportSupplies(d, plan, prior);
    SavedHolds(d, plan, e);
    OwedAt(d, plan, m, prior);
    SavedBacks(e.files, plan.imported, [Link(ManifestAt(plan.stamp), m)] + prior, plan.transferred + PendingSources(prior));
    KeysKept(base, d, plan, e, m, prior);
  }

  lemma OtherCredentials(base: Disk, d: Disk, plan: Plan, e: Disk, m: Manifest, prior: seq<Link>)
    requires Tidy(plan) && FilesMid(d.files, plan, e.files, m.files, None) && KeysMid(d, plan, e, m)
    requires !Moves(plan) && TakesOver(d, plan) && m.handoff
    requires Continues(d, plan, prior) && KeysUndo(base, d, prior, plan.home)
    ensures Backed(e, plan.agent, [Link(ManifestAt(plan.stamp), m)] + prior)
    ensures KeysUndo(base, e, [Link(ManifestAt(plan.stamp), m)] + prior, plan.home)
  {
    var chain := [Link(ManifestAt(plan.stamp), m)] + prior;
    assert forall l :: l in chain <==> l == chain[0] || l in prior;
    NothingPending(chain);
    NothingPending(prior);
    CutKeys(d, plan, e, m);
    SameKeys(d, plan, e);
    if MovesCredentials(plan.agent) {
      assert Lookup(e.files, SHARD) == Lookup(d.files, SHARD);
    }
  }

  lemma OwedAfter(d: Disk, plan: Plan, m: Manifest, prior: seq<Link>)
    requires Header(d, plan, m) && Continues(d, plan, prior) && TakesOver(d, plan)
    ensures OwedByAgentLink([Link(ManifestAt(plan.stamp), m)] + prior)
  {
    var chain := [Link(ManifestAt(plan.stamp), m)] + prior;
    HeaderOf(d, plan, m);
    SourceOfHeader(d, plan, m);
    assert forall l :: l in chain <==> l == chain[0] || l in prior;
  }

  lemma FilesAfter(base: Disk, d: Disk, plan: Plan, e: Disk, m: Manifest, prior: seq<Link>)
    requires Tidy(plan) && Mid(d, plan, e, m, None) && OlderThan(prior, plan.stamp)
    requires FilesUndo(base, d, prior)
    ensures FilesUndo(base, e, [Link(ManifestAt(plan.stamp), m)] + prior)
  {
    CutFiles(d, plan, e, m, None, prior);
  }

  lemma LinkKeepsUndoable(base: Disk, d: Disk, plan: Plan, e: Disk, m: Manifest)
    requires Undoable(base, d, plan.agent, plan.home, plan.previous) && Planned(d, plan)
    requires Tidy(plan) && Mid(d, plan, e, m, None) && m.completed
    ensures Undoable(base, e, plan.agent, plan.home, Some(ManifestAt(plan.stamp)))
  {
    var prior, tip := PriorOf(d, plan), ManifestAt(plan.stamp);
    PlanContinues(base, d, plan, plan.home);
    CutLog(d, plan, e, m, None, None);
    PriorOlder(d, plan);
    LinkParts(base, d, plan, e, m, prior);
  }

  lemma LinkParts(base: Disk, d: Disk, plan: Plan, e: Disk, m: Manifest, prior: seq<Link>)
    requires Tidy(plan) && Mid(d, plan, e, m, None) && m.completed && OlderThan(prior, plan.stamp)
    requires FilesUndo(base, d, prior) && BindingUndo(base, d, plan.agent, prior) && KeysUndo(base, d, prior, plan.home)
    requires Continues(d, plan, prior)
    requires TakesOver(d, plan)
    ensures var chain := [Link(ManifestAt(plan.stamp), m)] + prior;
            && Backed(e, plan.agent, chain) && OwedByAgentLink(chain)
            && FilesUndo(base, e, chain) && BindingUndo(base, e, plan.agent, chain) && KeysUndo(base, e, chain, plan.home)
  {
    CredentialsAfter(base, d, plan, e, m, prior);
    OwedAfter(d, plan, m, prior);
    FilesAfter(base, d, plan, e, m, prior);
    CutBindings(d, plan, e, m, None, prior);
  }
}
