// Why the handoff of an unlink never fails: every source some manifest still
// owes to the agent is backed by an account in the gateway shard.
module HandoffBacking {
  import opened Wrappers
  import opened MigrationDisk
  import opened ManifestLog
  import opened BindingRollback
  import opened CredentialHandoff
  import opened Reconcile
  import opened ReconcileCuts

  // ---- What a linked agent's disk provides ----

  predicate ShardOwned(files: map<Path, Content>) {
    ShardReadable(files, SHARD) && Owned(ShardAccounts(files, SHARD))
  }

  predicate Owned(shard: map<AccountId, Account>) {
    forall id :: id in shard ==> shard[id].owner == Gateway && shard[id].id == id
  }

  predicate Covers(shard: map<AccountId, Account>, imported: seq<Account>) {
    forall id :: id in shard ==> HasSource(imported, shard[id].source)
  }

  // The sources the agent has not been given back yet, over all homes.
  function PendingSources(chain: seq<Link>): set<Provider> {
    if chain == [] then {}
    else (if Pending(chain[0].manifest) then TransferSources(chain[0].manifest) else {}) + PendingSources(chain[1..])
  }

  // Every source still owed has an account in the shard, and every account
  // for such a source can be exported back.
  predicate PendingBacked(files: map<Path, Content>, chain: seq<Link>) {
    var shard := ShardAccounts(files, SHARD);
    && (forall s :: s in PendingSources(chain) ==> exists id :: id in shard && shard[id].source == s)
    && (forall id :: id in shard && shard[id].source in PendingSources(chain) ==> shard[id].exportable)
  }

  predicate HasRoutes(chain: seq<Link>) {
    forall l :: l in chain && Pending(l.manifest) ==> l.manifest.routes != [] && l.manifest.home.Some?
  }

  lemma {:induction false} TargetsPending(chain: seq<Link>, byId: map<AccountId, Account>, h: Home)
    requires HasRoutes(chain)
    ensures TargetsAt(chain, byId, h) <= PendingSources(chain)
  {
    if chain != [] {
      assert chain[0] in chain && forall l :: l in chain[1..] ==> l in chain;
      TargetsPending(chain[1..], byId, h);
    }
  }

  // ---- The imported accounts of a link ----

  lemma {:induction false} ByIdAt(accounts: seq<Account>)
    requires DistinctAccounts(accounts)
    ensures forall a :: a in accounts ==> a.id in ById(accounts) && ById(accounts)[a.id] == a
    ensures forall id :: id in ById(accounts) ==> ById(accounts)[id] in accounts && ById(accounts)[id].id == id
  {
    if accounts != [] {
      var rest := accounts[1..];
      assert forall i :: 0 <= i < |rest| ==> rest[i] == accounts[i + 1];
      ByIdAt(rest);
    }
  }

  // An imported account was in the shard already unless it is transferred now.
  predicate FromShard(shard: map<AccountId, Account>, plan: Plan) {
    forall a :: a in plan.imported ==> a.owner == Gateway && (a.source !in plan.transferred ==> a.id in shard && shard[a.id] == a)
  }

  // The saved shard holds every imported account; all else it holds was there
  // before, with a source the import covers.
  lemma SavedAccounts(shard: map<AccountId, Account>, imported: seq<Account>)
    requires DistinctAccounts(imported)
    requires Owned(shard) && Covers(shard, imported)
    ensures var saved := SavedShard(shard, imported);
            && (forall a :: a in imported ==> a.id in saved && saved[a.id] == a)
            && (forall id :: id in saved ==> saved[id] in imported && saved[id].id == id)
  {
    ByIdAt(imported);
    forall id | id in shard && id !in ById(imported) ensures Replaced(id, shard[id], imported) {
      var a :| a in imported && a.source == shard[id].source;
      assert a.id != id;
    }
  }

  // ---- What a planned link from the agent's own credentials provides ----

  ghost predicate Imports(d: Disk, plan: Plan) {
    var shard := ShardAccounts(d.files, SHARD);
    && DistinctAccounts(plan.imported) && FromShard(shard, plan)
    && (forall a :: a in plan.imported && a.source in plan.transferred ==> Discovered(d, plan, a))
    && (forall s :: s in plan.transferred ==> HasSource(plan.imported, s))
    && Covers(shard, plan.imported) && RoutesMatch(plan)
  }

  lemma MergedImports(d: Disk, plan: Plan)
    requires Merged(d, plan) && ShardOwned(d.files)
    ensures Imports(d, plan)
  {
    forall a | a in plan.imported ensures Taken(d, plan, a) {
    }
  }

  lemma RoutesOfImports(d: Disk, plan: Plan)
    requires Imports(d, plan)
    ensures forall r :: r in plan.routes ==> exists a :: a in plan.imported && r == RouteFor(a, plan.transferred)
    ensures forall a :: a in plan.imported ==> RouteFor(a, plan.transferred) in plan.routes
  {
    forall r | r in plan.routes ensures exists a :: a in plan.imported && r == RouteFor(a, plan.transferred) {
      var i :| 0 <= i < |plan.routes| && plan.routes[i] == r;
      assert plan.imported[i] in plan.imported;
    }
    forall a | a in plan.imported ensures RouteFor(a, plan.transferred) in plan.routes {
      var i :| 0 <= i < |plan.imported| && plan.imported[i] == a;
      assert plan.routes[i] == RouteFor(a, plan.transferred);
    }
  }

  lemma TransferredSources(d: Disk, plan: Plan, m: Manifest)
    requires Imports(d, plan) && m.routes == plan.routes
    ensures TransferSources(m) == plan.transferred
  {
    RoutesOfImports(d, plan);
    forall s ensures s in TransferSources(m) <==> s in plan.transferred {
      if s in plan.transferred {
        var a :| a in plan.imported && a.source == s;
        assert RouteFor(a, plan.transferred) in m.routes;
      }
    }
  }

  // ---- When the grants go through ----

  lemma {:induction false} GrantsGoThrough(d: Disk, chain: seq<Link>, byId: map<AccountId, Account>, bySource: map<Provider, Account>,
                                           required: bool, homes: seq<Home>)
    requires forall h :: h in homes ==> KeysFor(d, chain, byId, bySource, required, h).Ok?
    ensures GrantRun(d, chain, byId, bySource, required, homes).ok
  {
    if homes != [] {
      assert forall h :: h in homes[1..] ==> h in homes;
      GrantsGoThrough(d, chain, byId, bySource, required, homes[1..]);
    }
  }

  // The accounts loaded from the newest manifest suffice for the handoff.
  ghost predicate Sufficient(d: Disk, chain: seq<Link>, accounts: seq<Account>)
    requires chain != []
  {
    && (RequiresCredentials(chain[0].manifest) ==>
          forall s :: s in PendingSources(chain) ==> exists a :: a in accounts && a.source == s)
    && (forall a, h :: a in accounts && a.source in TargetsAt(chain, ById(accounts), h) && a.source !in AuthOf(d, h) ==> a.exportable)
  }

  lemma HandoffGoesThrough(d: Disk, chain: seq<Link>)
    requires chain != [] && HasRoutes(chain)
    requires Loaded(d, chain).Ok? && Sufficient(d, chain, Loaded(d, chain).value)
    ensures HandoffRun(d, chain).ok
  {
    var accounts := Loaded(d, chain).value;
    var byId, bySource := ById(accounts), BySource(accounts);
    var required := RequiresCredentials(chain[0].manifest);
    BySourceFrom(accounts);
    forall h | h in Ascending(Homes(chain)) ensures KeysFor(d, chain, byId, bySource, required, h).Ok? {
      TargetsPending(chain, byId, h);
    }
    GrantsGoThrough(d, chain, byId, bySource, required, Ascending(Homes(chain)));
    forall l | l in chain ensures !LegacyMissing(l.manifest, byId) {
    }
  }
}
