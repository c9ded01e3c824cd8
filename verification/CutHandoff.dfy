// The credential handoff of an unlink succeeds wherever the newest link was cut.
module CutHandoff {
  import opened Wrappers
  import opened MigrationDisk
  import opened ManifestChain
  import opened ManifestLog
  import opened BindingRollback
  import opened CredentialHandoff
  import opened Reconcile
  import opened ReconcileCuts
  import opened HandoffBacking

  predicate HandedOff(chain: seq<Link>) {
    forall l :: l in chain ==> l.manifest.handoff
  }

  // What a link relies on when it continues the chain `prior`. Where links
  // only copy credentials nothing is ever owed.
  ghost predicate Backed(d: Disk, agent: Agent, prior: seq<Link>) {
    && (if MovesCredentials(agent) then ShardOwned(d.files) else HandedOff(prior))
    && PendingBacked(d.files, prior) && HasRoutes(prior)
  }

  // The shard a cut link leaves behind.
  ghost predicate ShardAt(d: Disk, plan: Plan, e: Disk, m: Manifest) {
    var shard := ShardAccounts(d.files, SHARD);
    var saved := SavedShard(shard, plan.imported);
    && (Lookup(e.files, SHARD) == Lookup(d.files, SHARD) || Lookup(e.files, SHARD) == Some(Accounts(saved)))
    && (RequiresCredentials(m) ==> Lookup(e.files, SHARD) == Some(Accounts(saved)))
    && (e.auths == d.auths || Lookup(e.files, SHARD) == Some(Accounts(saved)))
  }

  lemma ShardOfMid(d: Disk, plan: Plan, e: Disk, m: Manifest, dirty: Option<Path>)
    requires Tidy(plan) && plan.source.FromAgent? && Mid(d, plan, e, m, dirty)
    ensures ShardAt(d, plan, e, m)
  {
    var saved := SavedShard(ShardAccounts(d.files, SHARD), plan.imported);
    assert SameEntry(m.files[0], Entry(d.files, SHARD, plan.stamp));
    assert EntryState(d.files, e.files, m.files[0], dirty);
    if RequiresCredentials(m) && !m.completed {
      var f :| f in m.files && f.original == SHARD && f.applied.Some?;
      var i :| 0 <= i < |m.files| && m.files[i] == f;
      assert SameEntry(m.files[i], Entry(d.files, Tracked(plan)[i], plan.stamp));
      assert Tracked(plan)[i] == Tracked(plan)[0];
    }
    if ShardSaved(d, plan, m) {
      assert Lookup(e.files, SHARD) == Some(Accounts(saved));
    }
  }

  // The fields of a cut link's manifest that the handoff reads.
  predicate ManifestOf(plan: Plan, m: Manifest) {
    && m.gatewayAuth && m.shard == Some(SHARD) && m.routes == plan.routes
    && m.imported == seq(|plan.imported|, i requires 0 <= i < |plan.imported| => plan.imported[i].id)
    && (Pending(m) ==> m.home == Some(plan.home))
  }

  lemma ImportedIds(plan: Plan, m: Manifest)
    requires ManifestOf(plan, m)
    ensures forall a :: a in plan.imported ==> a.id in m.imported
    ensures forall id :: id in m.imported ==> exists a :: a in plan.imported && a.id == id
  {
    forall a | a in plan.imported ensures a.id in m.imported {
      var i :| 0 <= i < |plan.imported| && plan.imported[i] == a;
      assert m.imported[i] == a.id;
    }
    forall id | id in m.imported ensures exists a :: a in plan.imported && a.id == id {
      var i :| 0 <= i < |m.imported| && m.imported[i] == id;
      assert plan.imported[i] in plan.imported;
    }
  }

  // With the shard saved, exactly the imported accounts are found ...
  lemma FoundWhenSaved(d: Disk, plan: Plan, e: Disk, m: Manifest)
    requires DistinctAccounts(plan.imported) && Owned(ShardAccounts(d.files, SHARD))
    requires Covers(ShardAccounts(d.files, SHARD), plan.imported) && m.shard == Some(SHARD)
    requires Lookup(e.files, SHARD) == Some(Accounts(SavedShard(ShardAccounts(d.files, SHARD), plan.imported)))
    ensures forall a :: a in plan.imported ==> FindAccount(e, m, a.id) == Some(a)
  {
    SavedAccounts(ShardAccounts(d.files, SHARD), plan.imported);
  }

  lemma RoutesWhenSaved(d: Disk, plan: Plan, e: Disk, m: Manifest)
    requires Imports(d, plan) && ManifestOf(plan, m)
    requires forall a :: a in plan.imported ==> FindAccount(e, m, a.id) == Some(a)
    ensures forall r :: r in m.routes && r.transfer ==> RouteRestorable(e, m, r)
  {
    ImportedIds(plan, m);
    RoutesOfImports(d, plan);
    forall r | r in m.routes && r.transfer ensures RouteRestorable(e, m, r) {
      var a :| a in plan.imported && r == RouteFor(a, plan.transferred);
      assert Discovered(d, plan, a);
    }
  }

  // ... and loaded.
  lemma LoadedWhenSaved(d: Disk, plan: Plan, e: Disk, m: Manifest)
    requires Imports(d, plan) && ShardOwned(d.files) && ManifestOf(plan, m)
    requires Lookup(e.files, SHARD) == Some(Accounts(SavedShard(ShardAccounts(d.files, SHARD), plan.imported)))
    ensures LoadTransferred(e, m).Ok?
    ensures forall a :: a in LoadTransferred(e, m).value <==> a in plan.imported
  {
    FoundWhenSaved(d, plan, e, m);
    RoutesWhenSaved(d, plan, e, m);
    ExactlyImported(plan, e, m);
  }

  lemma ExactlyImported(plan: Plan, e: Disk, m: Manifest)
    requires ManifestOf(plan, m) && ShardReadable(e.files, SHARD)
    requires forall a :: a in plan.imported ==> FindAccount(e, m, a.id) == Some(a)
    requires forall r :: r in m.routes && r.transfer ==> RouteRestorable(e, m, r)
    ensures LoadTransferred(e, m).Ok?
    ensures forall a :: a in LoadTransferred(e, m).value <==> a in plan.imported
  {
    ImportedIds(plan, m);
    AllCollected(e, m, m.imported);
    Collected(e, m, m.imported);
  }

  lemma {:induction false} AllCollected(d: Disk, m: Manifest, ids: seq<AccountId>)
    requires RequiresCredentials(m) ==> forall id :: id in ids ==> FindAccount(d, m, id).Some?
    ensures CollectAccounts(d, m, ids).Ok?
  {
    if ids != [] {
      assert ids[0] in ids && forall id :: id in ids[1..] ==> id in ids;
      AllCollected(d, m, ids[1..]);
    }
  }

  // With the shard as it was, whatever it holds of them is loaded.
  lemma LoadedWhenUnsaved(d: Disk, e: Disk, m: Manifest)
    requires ShardOwned(d.files) && Lookup(e.files, SHARD) == Lookup(d.files, SHARD)
    requires m.gatewayAuth && m.shard == Some(SHARD) && !RequiresCredentials(m)
    ensures LoadTransferred(e, m).Ok?
    ensures forall a :: a in LoadTransferred(e, m).value ==>
              exists id :: id in ShardAccounts(d.files, SHARD) && ShardAccounts(d.files, SHARD)[id] == a
  {
    assert ShardAccounts(e.files, SHARD) == ShardAccounts(d.files, SHARD);
    assert ShardReadable(e.files, SHARD);
    AllCollected(e, m, m.imported);
    if m.imported != [] {
      Collected(e, m, m.imported);
    }
  }

  // ---- The accounts suffice ----

  lemma SufficientWhenSaved(d: Disk, plan: Plan, e: Disk, m: Manifest, prior: seq<Link>, accounts: seq<Account>)
    requires Imports(d, plan) && Moves(plan) && Backed(d, plan.agent, prior) && ManifestOf(plan, m)
    requires HasRoutes([Link(ManifestAt(plan.stamp), m)] + prior)
    requires forall a :: a in accounts <==> a in plan.imported
    ensures Sufficient(e, [Link(ManifestAt(plan.stamp), m)] + prior, accounts)
  {
    var chain := [Link(ManifestAt(plan.stamp), m)] + prior;
    assert chain[1..] == prior;
    TransferredSources(d, plan, m);
    assert PendingSources(chain) <= plan.transferred + PendingSources(prior);
    forall s | s in PendingSources(chain) ensures exists a :: a in accounts && a.source == s {
      if s in plan.transferred {
        var a :| a in plan.imported && a.source == s;
        assert a in accounts;
      } else {
        var shard := ShardAccounts(d.files, SHARD);
        var id :| id in shard && shard[id].source == s;
        var a :| a in plan.imported && a.source == shard[id].source;
        assert a in accounts;
      }
    }
    forall a, h | a in accounts && a.source in TargetsAt(chain, ById(accounts), h) ensures a.exportable {
      TargetsPending(chain, ById(accounts), h);
      ImportedExportable(d, plan, prior, a);
    }
  }

  lemma ImportedExportable(d: Disk, plan: Plan, prior: seq<Link>, a: Account)
    requires Imports(d, plan) && PendingBacked(d.files, prior)
    requires a in plan.imported && a.source in plan.transferred + PendingSources(prior)
    ensures a.exportable
  {
    if a.source in plan.transferred {
      assert Discovered(d, plan, a);
    }
  }

  lemma SufficientWhenUnsaved(d: Disk, plan: Plan, e: Disk, m: Manifest, prior: seq<Link>, accounts: seq<Account>)
    requires Imports(d, plan) && Moves(plan) && Backed(d, plan.agent, prior) && ManifestOf(plan, m)
    requires HasRoutes([Link(ManifestAt(plan.stamp), m)] + prior)
    requires !RequiresCredentials(m) && e.auths == d.auths
    requires forall a :: a in accounts ==> exists id :: id in ShardAccounts(d.files, SHARD) && ShardAccounts(d.files, SHARD)[id] == a
    ensures Sufficient(e, [Link(ManifestAt(plan.stamp), m)] + prior, accounts)
  {
    var chain := [Link(ManifestAt(plan.stamp), m)] + prior;
    assert chain[1..] == prior;
    TransferredSources(d, plan, m);
    forall a, h | a in accounts && a.source in TargetsAt(chain, ById(accounts), h)
      ensures a.source in AuthOf(e, h) || a.exportable {
      TargetsPending(prior, ById(accounts), h);
      if a.source in TargetsAt(prior, ById(accounts), h) {
        assert a.source in PendingSources(prior);
      } else {
        assert h == plan.home && a.source in plan.transferred;
        var b :| b in plan.imported && b.source == a.source;
        assert Discovered(d, plan, b);
        assert AuthOf(e, h) == AuthOf(d, h);
      }
    }
  }

  // ---- The handoff at every cut ----

  lemma CutHandoffAgent(d: Disk, plan: Plan, e: Disk, m: Manifest, prior: seq<Link>)
    requires Imports(d, plan) && Moves(plan) && Backed(d, plan.agent, prior) && ManifestOf(plan, m) && ShardAt(d, plan, e, m)
    requires HasRoutes([Link(ManifestAt(plan.stamp), m)] + prior)
    ensures HandoffRun(e, [Link(ManifestAt(plan.stamp), m)] + prior).ok
  {
    var chain := [Link(ManifestAt(plan.stamp), m)] + prior;
    var saved := SavedShard(ShardAccounts(d.files, SHARD), plan.imported);
    if Lookup(e.files, SHARD) == Some(Accounts(saved)) {
      LoadedWhenSaved(d, plan, e, m);
      SufficientWhenSaved(d, plan, e, m, prior, LoadTransferred(e, m).value);
    } else {
      LoadedWhenUnsaved(d, e, m);
      SufficientWhenUnsaved(d, plan, e, m, prior, LoadTransferred(e, m).value);
    }
    if Homes(chain) == {} {
      NothingOwed(e, chain);
    } else {
      HandoffGoesThrough(e, chain);
    }
  }

  // Without a home that is owed anything the handoff has nothing to grant.
  lemma NothingOwed(e: Disk, chain: seq<Link>)
    requires chain != [] && HasRoutes(chain) && Homes(chain) == {}
    ensures HandoffRun(e, chain).ok
  {
    assert Ascending(Homes(chain)) == [];
    forall l | l in chain ensures !LegacyMissing(l.manifest, ById([])) {
    }
  }
}
