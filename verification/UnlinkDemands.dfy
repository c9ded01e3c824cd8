// When an unlink hands credentials back, said without its grants: exactly what
// the handoff demands before it goes through, and what each home has after it.
module UnlinkDemands {
  import opened Wrappers
  import opened MigrationDisk
  import opened ManifestChain
  import opened FileRollback
  import opened BindingRollback
  import opened CredentialHandoff
  import opened Unlink

  // ---- What is demanded, in terms of the manifests and the accounts found ----

  // The agent's keys may be gone already: the newest manifest is complete, or
  // has the digest of the shard it transfers into.
  predicate KeysMayBeGone(m: Manifest) {
    || m.completed
    || ShardHoldsTransfer(m)
  }

  predicate ShardHoldsTransfer(m: Manifest) {
    && m.shard.Some?
    && (exists f :: f in m.files && Some(f.original) == m.shard && f.applied.Some?)
    && exists r :: r in m.routes && r.transfer
  }

  // The k-th account the newest manifest imported is still there, for `s`.
  predicate SuppliedAt(d: Disk, m: Manifest, ids: seq<AccountId>, k: nat, s: Provider) {
    k < |ids| && FindAccount(d, m, ids[k]).Some? && FindAccount(d, m, ids[k]).value.source == s
  }

  ghost predicate Supplied(d: Disk, m: Manifest, ids: seq<AccountId>, s: Provider) {
    exists k :: SuppliedAt(d, m, ids, k, s)
  }

  // Of several accounts for a source the last one is handed back.
  ghost predicate LastSupply(d: Disk, m: Manifest, ids: seq<AccountId>, k: nat, s: Provider) {
    SuppliedAt(d, m, ids, k, s) && forall j :: k < j < |ids| ==> !SuppliedAt(d, m, ids, j, s)
  }

  predicate NamedAt(d: Disk, m: Manifest, ids: seq<AccountId>, k: nat, id: AccountId) {
    k < |ids| && FindAccount(d, m, ids[k]).Some? && FindAccount(d, m, ids[k]).value.id == id
  }

  ghost predicate LastNamed(d: Disk, m: Manifest, ids: seq<AccountId>, k: nat, id: AccountId) {
    NamedAt(d, m, ids, k, id) && forall j :: k < j < |ids| ==> !NamedAt(d, m, ids, j, id)
  }

  ghost predicate Named(d: Disk, m: Manifest, ids: seq<AccountId>, id: AccountId) {
    exists k :: NamedAt(d, m, ids, k, id)
  }

  // A manifest whose handoff to its home has not been recorded.
  predicate Awaits(l: Link, h: Home) {
    !l.manifest.handoff && l.manifest.home == Some(h)
  }

  // A manifest with routes owes the sources it transferred; an older one,
  // without routes, the sources of the accounts it imported.
  ghost predicate Owes(d: Disk, newest: Manifest, m: Manifest, s: Provider) {
    if m.routes != [] then exists r :: r in m.routes && r.transfer && r.source == s
    else exists id, k :: id in m.imported && LastNamed(d, newest, newest.imported, k, id) && SuppliedAt(d, newest, newest.imported, k, s)
  }

  ghost predicate Loads(d: Disk, m: Manifest) {
    || m.imported == []
    || (&& m.gatewayAuth && (m.shard.Some? ==> ShardReadable(d.files, m.shard.value))
        && (ShardHoldsTransfer(m) ==> forall r :: r in m.routes && r.transfer ==> Returnable(d, m, r))
        && (KeysMayBeGone(m) ==> forall id :: id in m.imported ==> FindAccount(d, m, id).Some?))
  }

  // The account of a route is held for the agent, unchanged and exportable.
  predicate Returnable(d: Disk, m: Manifest, r: Route) {
    && r.account in m.imported && FindAccount(d, m, r.account).Some?
    && var a := FindAccount(d, m, r.account).value;
      a.owner == Gateway && a.provider == r.provider && a.source == r.source && a.exportable
  }

  ghost predicate Demands(d: Disk, newest: Manifest, l: Link, h: Home) {
    && (l.manifest.routes == [] && l.manifest.completed ==>
          forall id :: id in l.manifest.imported ==> Named(d, newest, newest.imported, id))
    && (KeysMayBeGone(newest) ==> forall s :: Owes(d, newest, l.manifest, s) ==> Supplied(d, newest, newest.imported, s))
    && (forall s, k: nat :: Owes(d, newest, l.manifest, s) && s !in AuthOf(d, h) && LastSupply(d, newest, newest.imported, k, s) ==>
          FindAccount(d, newest, newest.imported[k]).value.exportable)
  }

  ghost predicate HandoffDemanded(d: Disk, chain: seq<Link>)
    requires chain != []
  {
    (exists l, h :: l in chain && Awaits(l, h)) ==>
      && Loads(d, chain[0].manifest)
      && forall l, h :: l in chain && Awaits(l, h) ==> Demands(d, chain[0].manifest, l, h)
  }

  // Accounts are looked up in the manifest's shard, those of an older manifest
  // in the gateway's own file.
  lemma FoundIn(d: Disk, m: Manifest, id: AccountId, a: Account)
    ensures FindAccount(d, m, id) == Some(a) <==>
              match m.shard
              case Some(p) => p in d.files && d.files[p].Accounts? && id in d.files[p].accounts && d.files[p].accounts[id] == a
              case None => id in d.rootAccounts && d.rootAccounts[id] == a
  {
  }

  // ---- The accounts loaded ----

  lemma {:induction false} CollectsWhenFound(d: Disk, m: Manifest, ids: seq<AccountId>)
    ensures CollectAccounts(d, m, ids).Ok? <==> (RequiresCredentials(m) ==> forall id :: id in ids ==> FindAccount(d, m, id).Some?)
  {
    if ids != [] {
      CollectsWhenFound(d, m, ids[1..]);
      assert forall id :: id in ids <==> id == ids[0] || id in ids[1..];
    }
  }

  lemma SuppliedShift(d: Disk, m: Manifest, ids: seq<AccountId>, k: nat, s: Provider)
    requires ids != []
    ensures SuppliedAt(d, m, ids[1..], k, s) <==> SuppliedAt(d, m, ids, k + 1, s)
  {
  }

  lemma NamedShift(d: Disk, m: Manifest, ids: seq<AccountId>, k: nat, id: AccountId)
    requires ids != []
    ensures NamedAt(d, m, ids[1..], k, id) <==> NamedAt(d, m, ids, k + 1, id)
  {
  }

  lemma {:induction false} LastBySource(d: Disk, m: Manifest, ids: seq<AccountId>, k: nat, s: Provider)
    requires CollectAccounts(d, m, ids).Ok? && LastSupply(d, m, ids, k, s)
    ensures var found := BySource(CollectAccounts(d, m, ids).value); s in found && Some(found[s]) == FindAccount(d, m, ids[k])
  {
    if k > 0 {
      SuppliedShift(d, m, ids, k - 1, s);
      forall j | k - 1 < j < |ids[1..]| ensures !SuppliedAt(d, m, ids[1..], j, s) {
        SuppliedShift(d, m, ids, j, s);
      }
      LastBySource(d, m, ids[1..], k - 1, s);
    } else {
      NoLaterSource(d, m, ids, s);
    }
  }

  lemma NoLaterSource(d: Disk, m: Manifest, ids: seq<AccountId>, s: Provider)
    requires CollectAccounts(d, m, ids).Ok? && ids != [] && CollectAccounts(d, m, ids[1..]).Ok? && LastSupply(d, m, ids, 0, s)
    ensures s !in BySource(CollectAccounts(d, m, ids[1..]).value)
  {
    var rest := CollectAccounts(d, m, ids[1..]).value;
    BySourceFrom(rest);
    if s in BySource(rest) {
      Collected(d, m, ids[1..]);
      var j :| 0 <= j < |ids[1..]| && FindAccount(d, m, ids[1..][j]) == Some(BySource(rest)[s]);
      SuppliedShift(d, m, ids, j, s);
      assert false;
    }
  }

  lemma {:induction false} ByIdFrom(accounts: seq<Account>)
    ensures forall id :: id in ById(accounts) ==> ById(accounts)[id] in accounts && ById(accounts)[id].id == id
    ensures forall a :: a in accounts ==> a.id in ById(accounts)
  {
    if accounts != [] {
      ByIdFrom(accounts[1..]);
    }
  }

  lemma {:induction false} LastById(d: Disk, m: Manifest, ids: seq<AccountId>, k: nat, id: AccountId)
    requires CollectAccounts(d, m, ids).Ok? && LastNamed(d, m, ids, k, id)
    ensures var found := ById(CollectAccounts(d, m, ids).value); id in found && Some(found[id]) == FindAccount(d, m, ids[k])
  {
    if k > 0 {
      NamedShift(d, m, ids, k - 1, id);
      forall j | k - 1 < j < |ids[1..]| ensures !NamedAt(d, m, ids[1..], j, id) {
        NamedShift(d, m, ids, j, id);
      }
      LastById(d, m, ids[1..], k - 1, id);
    } else {
      NoLaterName(d, m, ids, id);
    }
  }

  lemma NoLaterName(d: Disk, m: Manifest, ids: seq<AccountId>, id: AccountId)
    requires CollectAccounts(d, m, ids).Ok? && ids != [] && CollectAccounts(d, m, ids[1..]).Ok? && LastNamed(d, m, ids, 0, id)
    ensures id !in ById(CollectAccounts(d, m, ids[1..]).value)
  {
    var rest := CollectAccounts(d, m, ids[1..]).value;
    ByIdFrom(rest);
    if id in ById(rest) {
      Collected(d, m, ids[1..]);
      var j :| 0 <= j < |ids[1..]| && FindAccount(d, m, ids[1..][j]) == Some(ById(rest)[id]);
      NamedShift(d, m, ids, j, id);
      assert false;
    }
  }

  // Whatever is supplied or named has a last account for it.
  lemma {:induction false} HasLastSupply(d: Disk, m: Manifest, ids: seq<AccountId>, k: nat, s: Provider) returns (last: nat)
    requires SuppliedAt(d, m, ids, k, s)
    ensures LastSupply(d, m, ids, last, s)
    decreases |ids| - k
  {
    if j :| k < j < |ids| && SuppliedAt(d, m, ids, j, s) {
      last := HasLastSupply(d, m, ids, j, s);
    } else {
      last := k;
    }
  }

  lemma {:induction false} HasLastNamed(d: Disk, m: Manifest, ids: seq<AccountId>, k: nat, id: AccountId) returns (last: nat)
    requires NamedAt(d, m, ids, k, id)
    ensures LastNamed(d, m, ids, last, id)
    decreases |ids| - k
  {
    if j :| k < j < |ids| && NamedAt(d, m, ids, j, id) {
      last := HasLastNamed(d, m, ids, j, id);
    } else {
      last := k;
    }
  }

  // `accounts` are those of the newest manifest, in its order.
  ghost predicate AccountsOf(d: Disk, m: Manifest, accounts: seq<Account>) {
    && (forall s :: s in BySource(accounts) <==> Supplied(d, m, m.imported, s))
    && (forall k: nat, s :: LastSupply(d, m, m.imported, k, s) ==>
          s in BySource(accounts) && Some(BySource(accounts)[s]) == FindAccount(d, m, m.imported[k]))
    && (forall id :: id in ById(accounts) <==> Named(d, m, m.imported, id))
    && (forall k: nat, id :: LastNamed(d, m, m.imported, k, id) ==>
          id in ById(accounts) && Some(ById(accounts)[id]) == FindAccount(d, m, m.imported[k]))
  }

  lemma CollectedAccounts(d: Disk, m: Manifest)
    requires CollectAccounts(d, m, m.imported).Ok?
    ensures AccountsOf(d, m, CollectAccounts(d, m, m.imported).value)
  {
    var ids := m.imported;
    var accounts := CollectAccounts(d, m, ids).value;
    forall k: nat, s | LastSupply(d, m, ids, k, s)
      ensures s in BySource(accounts) && Some(BySource(accounts)[s]) == FindAccount(d, m, ids[k]) {
      LastBySource(d, m, ids, k, s);
    }
    forall k: nat, id | LastNamed(d, m, ids, k, id)
      ensures id in ById(accounts) && Some(ById(accounts)[id]) == FindAccount(d, m, ids[k]) {
      LastById(d, m, ids, k, id);
    }
    forall s ensures s in BySource(accounts) <==> Supplied(d, m, ids, s) {
      CollectedSource(d, m, s);
    }
    forall id ensures id in ById(accounts) <==> Named(d, m, ids, id) {
      CollectedName(d, m, id);
    }
  }

  lemma CollectedSource(d: Disk, m: Manifest, s: Provider)
    requires CollectAccounts(d, m, m.imported).Ok?
    ensures s in BySource(CollectAccounts(d, m, m.imported).value) <==> Supplied(d, m, m.imported, s)
  {
    var found := BySource(CollectAccounts(d, m, m.imported).value);
    if s in found {
      BySourceFrom(CollectAccounts(d, m, m.imported).value);
      Collected(d, m, m.imported);
      var k :| 0 <= k < |m.imported| && FindAccount(d, m, m.imported[k]) == Some(found[s]);
      assert SuppliedAt(d, m, m.imported, k, s);
    }
    if k: nat :| SuppliedAt(d, m, m.imported, k, s) {
      var last := HasLastSupply(d, m, m.imported, k, s);
      LastBySource(d, m, m.imported, last, s);
    }
  }

  lemma CollectedName(d: Disk, m: Manifest, id: AccountId)
    requires CollectAccounts(d, m, m.imported).Ok?
    ensures id in ById(CollectAccounts(d, m, m.imported).value) <==> Named(d, m, m.imported, id)
  {
    var found := ById(CollectAccounts(d, m, m.imported).value);
    if id in found {
      ByIdFrom(CollectAccounts(d, m, m.imported).value);
      Collected(d, m, m.imported);
      var k :| 0 <= k < |m.imported| && FindAccount(d, m, m.imported[k]) == Some(found[id]);
      assert NamedAt(d, m, m.imported, k, id);
    }
    if k: nat :| NamedAt(d, m, m.imported, k, id) {
      var last := HasLastNamed(d, m, m.imported, k, id);
      LastById(d, m, m.imported, last, id);
    }
  }

  lemma KeysRequired(m: Manifest)
    ensures RequiresCredentials(m) <==> KeysMayBeGone(m)
    ensures HasCheckpointedTransferShard(m) <==> ShardHoldsTransfer(m)
  {
  }

  lemma LoadsExactly(d: Disk, m: Manifest)
    ensures LoadTransferred(d, m).Ok? <==> Loads(d, m)
    ensures LoadTransferred(d, m).Ok? ==> AccountsOf(d, m, LoadTransferred(d, m).value)
  {
    KeysRequired(m);
    CollectsWhenFound(d, m, m.imported);
    if LoadTransferred(d, m).Ok? {
      assert LoadTransferred(d, m) == CollectAccounts(d, m, m.imported);
      CollectedAccounts(d, m);
    }
  }

  // ---- What is owed where ----

  lemma OwedSources(d: Disk, newest: Manifest, m: Manifest, accounts: seq<Account>, s: Provider)
    requires AccountsOf(d, newest, accounts)
    ensures s in ManifestTargets(m, ById(accounts)) <==> Owes(d, newest, m, s)
  {
    var ids := newest.imported;
    if m.routes == [] {
      if id :| id in m.imported && id in ById(accounts) && ById(accounts)[id].source == s {
        var k: nat :| NamedAt(d, newest, ids, k, id);
        var last := HasLastNamed(d, newest, ids, k, id);
        assert SuppliedAt(d, newest, ids, last, s);
      }
    }
  }

  lemma {:induction false} OwedAt(d: Disk, newest: Manifest, chain: seq<Link>, accounts: seq<Account>, h: Home, s: Provider)
    requires AccountsOf(d, newest, accounts)
    ensures s in TargetsAt(chain, ById(accounts), h) <==> exists l :: l in chain && Awaits(l, h) && Owes(d, newest, l.manifest, s)
  {
    if chain != [] {
      OwedAt(d, newest, chain[1..], accounts, h, s);
      OwedSources(d, newest, chain[0].manifest, accounts, s);
      assert forall l :: l in chain <==> l == chain[0] || l in chain[1..];
    }
  }

  lemma {:induction false} GrantsGoThroughIff(d: Disk, chain: seq<Link>, byId: map<AccountId, Account>, bySource: map<Provider, Account>,
                                              required: bool, homes: seq<Home>)
    ensures GrantRun(d, chain, byId, bySource, required, homes).ok <==>
              forall h :: h in homes ==> KeysFor(d, chain, byId, bySource, required, h).Ok?
  {
    if homes != [] {
      GrantsGoThroughIff(d, chain, byId, bySource, required, homes[1..]);
      assert forall h :: h in homes <==> h == homes[0] || h in homes[1..];
    }
  }

  // `owed` can be granted at `h`.
  predicate Grantable(d: Disk, newest: Manifest, accounts: seq<Account>, owed: set<Provider>, h: Home) {
    && (KeysMayBeGone(newest) ==> forall s :: s in owed ==> s in BySource(accounts))
    && forall s :: s in owed && s in BySource(accounts) && s !in AuthOf(d, h) ==> BySource(accounts)[s].exportable
  }

  lemma GrantableMeets(d: Disk, newest: Manifest, accounts: seq<Account>, owed: set<Provider>, l: Link, h: Home)
    requires AccountsOf(d, newest, accounts) && Grantable(d, newest, accounts, owed, h)
    requires !LegacyMissing(l.manifest, ById(accounts)) && Awaits(l, h)
    requires forall s :: Owes(d, newest, l.manifest, s) ==> s in owed
    ensures Demands(d, newest, l, h)
  {
  }

  lemma MeetsGrantable(d: Disk, newest: Manifest, accounts: seq<Account>, l: Link, h: Home, s: Provider)
    requires AccountsOf(d, newest, accounts) && Demands(d, newest, l, h) && Owes(d, newest, l.manifest, s)
    ensures KeysMayBeGone(newest) ==> s in BySource(accounts)
    ensures s in BySource(accounts) && s !in AuthOf(d, h) ==> BySource(accounts)[s].exportable
  {
    if s in BySource(accounts) {
      var k: nat :| SuppliedAt(d, newest, newest.imported, k, s);
      var last := HasLastSupply(d, newest, newest.imported, k, s);
    }
  }

  // One home can be served exactly if every manifest waiting for it can.
  lemma HomeServed(d: Disk, chain: seq<Link>, accounts: seq<Account>, h: Home)
    requires chain != [] && AccountsOf(d, chain[0].manifest, accounts)
    requires forall l :: l in chain ==> !LegacyMissing(l.manifest, ById(accounts))
    ensures Grantable(d, chain[0].manifest, accounts, TargetsAt(chain, ById(accounts), h), h) <==>
              forall l :: l in chain && Awaits(l, h) ==> Demands(d, chain[0].manifest, l, h)
  {
    var newest, owed := chain[0].manifest, TargetsAt(chain, ById(accounts), h);
    if Grantable(d, newest, accounts, owed, h) {
      forall l | l in chain && Awaits(l, h) ensures Demands(d, newest, l, h) {
        forall s | Owes(d, newest, l.manifest, s) ensures s in owed {
          OwedAt(d, newest, chain, accounts, h, s);
        }
        GrantableMeets(d, newest, accounts, owed, l, h);
      }
    }
    if forall l :: l in chain && Awaits(l, h) ==> Demands(d, newest, l, h) {
      forall s | s in owed
        ensures KeysMayBeGone(newest) ==> s in BySource(accounts)
        ensures s in BySource(accounts) && s !in AuthOf(d, h) ==> BySource(accounts)[s].exportable {
        OwedAt(d, newest, chain, accounts, h, s);
        var l :| l in chain && Awaits(l, h) && Owes(d, newest, l.manifest, s);
        MeetsGrantable(d, newest, accounts, l, h, s);
      }
    }
  }

  lemma KeysForExactly(d: Disk, chain: seq<Link>, accounts: seq<Account>, h: Home)
    requires chain != []
    ensures KeysFor(d, chain, ById(accounts), BySource(accounts), RequiresCredentials(chain[0].manifest), h).Ok? <==>
              Grantable(d, chain[0].manifest, accounts, TargetsAt(chain, ById(accounts), h), h)
  {
    KeysRequired(chain[0].manifest);
  }

  // ---- The handoff goes through exactly if what it demands is there ----

  lemma HomesAwait(chain: seq<Link>, h: Home)
    ensures h in Homes(chain) <==> exists l :: l in chain && Awaits(l, h)
  {
  }

  lemma GrantsExactlyIf(d: Disk, chain: seq<Link>, accounts: seq<Account>)
    requires chain != [] && AccountsOf(d, chain[0].manifest, accounts)
    requires forall l :: l in chain ==> !LegacyMissing(l.manifest, ById(accounts))
    ensures Grants(d, chain, accounts).ok <==> forall l, h :: l in chain && Awaits(l, h) ==> Demands(d, chain[0].manifest, l, h)
  {
    var homes := Ascending(Homes(chain));
    AscendingMembers(Homes(chain));
    GrantsGoThroughIff(d, chain, ById(accounts), BySource(accounts), RequiresCredentials(chain[0].manifest), homes);
    forall h ensures KeysFor(d, chain, ById(accounts), BySource(accounts), RequiresCredentials(chain[0].manifest), h).Ok? <==>
                       forall l :: l in chain && Awaits(l, h) ==> Demands(d, chain[0].manifest, l, h) {
      HomeServed(d, chain, accounts, h);
      KeysForExactly(d, chain, accounts, h);
    }
    forall l, h | l in chain && Awaits(l, h) ensures h in homes {
      HomesAwait(chain, h);
    }
  }

  lemma LegacyNamed(d: Disk, newest: Manifest, accounts: seq<Account>, l: Link, h: Home)
    requires AccountsOf(d, newest, accounts) && Awaits(l, h) && Demands(d, newest, l, h)
    ensures !LegacyMissing(l.manifest, ById(accounts))
  {
  }

  lemma NothingAwaited(d: Disk, chain: seq<Link>)
    requires chain != [] && forall l, h :: l in chain ==> !Awaits(l, h)
    ensures HandoffRun(d, chain).ok
  {
    forall h ensures h !in Homes(chain) {
      HomesAwait(chain, h);
    }
    assert Homes(chain) == {};
    forall l | l in chain ensures !LegacyMissing(l.manifest, ById([])) {
      assert l.manifest.home.Some? ==> !Awaits(l, l.manifest.home.value);
    }
  }

  lemma HandoffExactlyIf(d: Disk, chain: seq<Link>)
    requires chain != []
    ensures HandoffRun(d, chain).ok <==> HandoffDemanded(d, chain)
  {
    var newest := chain[0].manifest;
    if l, h :| l in chain && Awaits(l, h) {
      HomesAwait(chain, h);
      assert Loaded(d, chain) == LoadTransferred(d, newest);
      LoadsExactly(d, newest);
      if LoadTransferred(d, newest).Ok? {
        LoadedHandoff(d, chain, LoadTransferred(d, newest).value);
      }
    } else {
      NothingAwaited(d, chain);
    }
  }

  lemma LoadedHandoff(d: Disk, chain: seq<Link>, accounts: seq<Account>)
    requires chain != [] && AccountsOf(d, chain[0].manifest, accounts)
    ensures (forall l :: l in chain ==> !LegacyMissing(l.manifest, ById(accounts))) && Grants(d, chain, accounts).ok <==>
              forall l, h :: l in chain && Awaits(l, h) ==> Demands(d, chain[0].manifest, l, h)
  {
    var newest := chain[0].manifest;
    if forall l, h :: l in chain && Awaits(l, h) ==> Demands(d, newest, l, h) {
      forall l | l in chain ensures !LegacyMissing(l.manifest, ById(accounts)) {
        if Pending(l.manifest) && l.manifest.home.Some? {
          assert Awaits(l, l.manifest.home.value);
          LegacyNamed(d, newest, accounts, l, l.manifest.home.value);
        }
      }
      GrantsExactlyIf(d, chain, accounts);
    } else if forall l :: l in chain ==> !LegacyMissing(l.manifest, ById(accounts)) {
      GrantsExactlyIf(d, chain, accounts);
    }
  }

  // ---- What it leaves at every home ----

  ghost predicate OwedAndSupplied(d: Disk, chain: seq<Link>, h: Home, s: Provider)
    requires chain != []
  {
    var newest := chain[0].manifest;
    Supplied(d, newest, newest.imported, s) && exists l :: l in chain && Awaits(l, h) && Owes(d, newest, l.manifest, s)
  }

  // Home `h` keeps its keys and gets exactly those owed to it and supplied,
  // each from the last account for its source.
  ghost predicate Settled(d: Disk, e: Disk, chain: seq<Link>, h: Home)
    requires chain != []
  {
    var newest := chain[0].manifest;
    && (forall s :: s in AuthOf(e, h) <==> s in AuthOf(d, h) || OwedAndSupplied(d, chain, h, s))
    && (forall s :: s in AuthOf(d, h) && s in AuthOf(e, h) ==> AuthOf(e, h)[s] == AuthOf(d, h)[s])
    && (forall s, k: nat :: s in AuthOf(e, h) && s !in AuthOf(d, h) && LastSupply(d, newest, newest.imported, k, s) ==>
          AuthOf(e, h)[s] == FindAccount(d, newest, newest.imported[k]).value.secret)
  }

  lemma KeysSettled(d: Disk, e: Disk, chain: seq<Link>, accounts: seq<Account>, h: Home)
    requires chain != [] && AccountsOf(d, chain[0].manifest, accounts)
    requires AuthOf(e, h) == HandedKeys(chain, accounts, h) + AuthOf(d, h)
    ensures Settled(d, e, chain, h)
  {
    var newest := chain[0].manifest;
    forall s ensures s in HandedKeys(chain, accounts, h) <==> OwedAndSupplied(d, chain, h, s) {
      OwedAt(d, newest, chain, accounts, h, s);
    }
  }

  // No manifest waits for `h`: nothing is owed there and nothing arrives.
  lemma OthersSettled(d: Disk, e: Disk, chain: seq<Link>, h: Home)
    requires chain != [] && AuthOf(e, h) == AuthOf(d, h) && forall l :: l in chain ==> !Awaits(l, h)
    ensures Settled(d, e, chain, h)
  {
  }

  lemma HandoffAt(d: Disk, chain: seq<Link>, h: Home)
    requires chain != [] && HandoffRun(d, chain).ok && forall l :: l in chain ==> !Awaits(l, h)
    ensures AuthOf(Replay(d, HandoffRun(d, chain).writes), h) == AuthOf(d, h)
  {
    if exists l :: l in chain && Pending(l.manifest) {
      HandoffKeys(d, chain, h);
      HomesAwait(chain, h);
      NothingHanded(chain, Loaded(d, chain).value, h);
      assert map[] + AuthOf(d, h) == AuthOf(d, h);
    }
  }

  lemma HandoffSettles(d: Disk, chain: seq<Link>, h: Home)
    requires chain != [] && HandoffRun(d, chain).ok
    ensures Settled(d, Replay(d, HandoffRun(d, chain).writes), chain, h)
  {
    if l :| l in chain && Awaits(l, h) {
      HandoffKeys(d, chain, h);
      HomesAwait(chain, h);
      LoadsExactly(d, chain[0].manifest);
      KeysSettled(d, Replay(d, HandoffRun(d, chain).writes), chain, LoadTransferred(d, chain[0].manifest).value, h);
    } else {
      HandoffAt(d, chain, h);
      OthersSettled(d, Replay(d, HandoffRun(d, chain).writes), chain, h);
    }
  }

  // ---- The unlink ----

  // Every provider a pending manifest transferred is back at its home.
  ghost predicate TransfersReturned(chain: seq<Link>, e: Disk) {
    forall l, r, h :: l in chain && Awaits(l, h) && r in l.manifest.routes && r.transfer ==> r.source in AuthOf(e, h)
  }

  lemma OwedReturned(d: Disk, e: Disk, chain: seq<Link>)
    requires chain != [] && HandoffDemanded(d, chain) && KeysMayBeGone(chain[0].manifest) && forall h :: Settled(d, e, chain, h)
    ensures TransfersReturned(chain, e)
  {
    forall l, r, h | l in chain && Awaits(l, h) && r in l.manifest.routes && r.transfer ensures r.source in AuthOf(e, h) {
      assert Owes(d, chain[0].manifest, l.manifest, r.source);
      assert Settled(d, e, chain, h) && OwedAndSupplied(d, chain, h, r.source);
    }
  }

  lemma HandoffReturnsTransfers(d: Disk, chain: seq<Link>)
    requires chain != [] && HandoffRun(d, chain).ok && KeysMayBeGone(chain[0].manifest)
    ensures TransfersReturned(chain, Replay(d, HandoffRun(d, chain).writes))
  {
    var e := Replay(d, HandoffRun(d, chain).writes);
    HandoffExactlyIf(d, chain);
    forall h ensures Settled(d, e, chain, h) {
      HandoffSettles(d, chain, h);
    }
    OwedReturned(d, e, chain);
  }

  // Another active manifest of the agent leads to `p`, or to no chain at all.
  ghost predicate Followed(ms: map<Path, Manifest>, agent: Agent, root: Option<string>, p: Path) {
    exists q :: q in ms && q.ManifestAt? && q != p && ms[q].agent == agent && !ms[q].unlinked && LeadsTo(ms, agent, root, q, p)
  }

  ghost predicate LeadsTo(ms: map<Path, Manifest>, agent: Agent, root: Option<string>, q: Path, p: Path) {
    forall chain: seq<Link> :: IsChain(ms, agent, root, q, chain) ==> exists i :: 1 <= i < |chain| && chain[i].path == p
  }

  lemma LeadsToIs(ms: map<Path, Manifest>, agent: Agent, root: Option<string>, p: Path, q: Path)
    ensures LeadsTo(ms, agent, root, q, p) <==>
              var walk := ManifestChainOf(ms, agent, root, q);
              walk.Err? || (walk.value != [] && p in Paths(walk.value[1..]))
  {
    var walk := ManifestChainOf(ms, agent, root, q);
    forall chain: seq<Link> ensures IsChain(ms, agent, root, q, chain) <==> walk == Ok(chain) {
      WalkIsExact(ms, agent, root, q, chain);
    }
    if walk.Ok? {
      var chain := walk.value;
      assert IsChain(ms, agent, root, q, chain) && chain != [];
      if i :| 1 <= i < |chain| && chain[i].path == p {
        assert chain[1..][i - 1] in chain[1..];
      }
      if p in Paths(chain[1..]) {
        var l :| l in chain[1..] && l.path == p;
        var i :| 0 <= i < |chain[1..]| && chain[1..][i] == l;
        assert chain[i + 1].path == p;
      }
    }
  }

  lemma FollowedIs(ms: map<Path, Manifest>, agent: Agent, root: Option<string>, p: Path)
    ensures Followed(ms, agent, root, p) <==> HasActiveSuccessor(ms, agent, root, p)
  {
    forall q ensures LeadsTo(ms, agent, root, q, p) <==>
              var walk := ManifestChainOf(ms, agent, root, q);
              walk.Err? || (walk.value != [] && p in Paths(walk.value[1..])) {
      LeadsToIs(ms, agent, root, p, q);
    }
    if q :| q in ms && q.ManifestAt? && q != p && ms[q].agent == agent && !ms[q].unlinked && LeadsTo(ms, agent, root, q, p) {
      assert Succeeds(ms, agent, root, p, q);
    }
  }

  // What an unlink of the manifest at the head of `chain` demands: it is still
  // active, on the disk its successors' rollback leaves each manifest finds its
  // files and the binding as recorded, and the handoff has what it needs.
  ghost predicate UnlinkDemanded(d: Disk, agent: Agent, chain: seq<Link>) {
    && chain != [] && !chain[0].manifest.unlinked
    && (forall k :: 0 <= k < |chain| ==> Restored(chain[k].manifest, RestoreChain(d.files, chain[..k])))
    && BindingsFit(Lookup(d.bindings, agent), chain) && HandoffDemanded(d, chain)
  }

  lemma ChainDemands(d: Disk, agent: Agent, chain: seq<Link>)
    ensures UnlinkChain(d, agent, chain).ok <==> UnlinkDemanded(d, agent, chain)
  {
    SafeAtEveryManifest(d.files, chain);
    BindingsFitExactly(agent, Lookup(d.bindings, agent), chain);
    if chain != [] {
      HandoffExactlyIf(d, chain);
    }
  }

  // An unlink goes through exactly if no active manifest follows this one, it
  // has a chain, and what the unlink of that chain demands is there.
  lemma UnlinkExactlyIf(d: Disk, agent: Agent, root: Option<string>, p: Path)
    ensures UnlinkRun(d, agent, root, p).ok <==>
              && !Followed(d.manifests, agent, root, p)
              && exists chain: seq<Link> :: IsChain(d.manifests, agent, root, p, chain) && UnlinkDemanded(d, agent, chain)
  {
    FollowedIs(d.manifests, agent, root, p);
    var walk := ManifestChainOf(d.manifests, agent, root, p);
    forall chain: seq<Link> ensures IsChain(d.manifests, agent, root, p, chain) <==> walk == Ok(chain) {
      WalkIsExact(d.manifests, agent, root, p, chain);
    }
    if walk.Ok? {
      ChainDemands(d, agent, walk.value);
    }
  }

  lemma UnlinkKeys(d: Disk, agent: Agent, root: Option<string>, p: Path)
    requires UnlinkRun(d, agent, root, p).ok
    ensures var chain := ManifestChainOf(d.manifests, agent, root, p).value;
            chain != [] && Replay(d, UnlinkRun(d, agent, root, p).writes).auths == Replay(d, HandoffRun(d, chain).writes).auths
  {
    var chain := ManifestChainOf(d.manifests, agent, root, p).value;
    WalkIsExact(d.manifests, agent, root, p, chain);
    UnlinkOutcome(d, agent, chain);
  }

  lemma SettledAlike(d: Disk, e: Disk, f: Disk, chain: seq<Link>, h: Home)
    requires chain != [] && e.auths == f.auths && Settled(d, f, chain, h)
    ensures Settled(d, e, chain, h)
  {
    assert AuthOf(e, h) == AuthOf(f, h);
  }

  // What an unlink leaves at every home.
  lemma UnlinkSettles(d: Disk, agent: Agent, root: Option<string>, p: Path)
    requires UnlinkRun(d, agent, root, p).ok
    ensures var chain, e := ManifestChainOf(d.manifests, agent, root, p).value, Replay(d, UnlinkRun(d, agent, root, p).writes);
            && chain != [] && (forall h :: Settled(d, e, chain, h))
            && (KeysMayBeGone(chain[0].manifest) ==> TransfersReturned(chain, e))
  {
    var chain, e := ManifestChainOf(d.manifests, agent, root, p).value, Replay(d, UnlinkRun(d, agent, root, p).writes);
    UnlinkKeys(d, agent, root, p);
    AllSettled(d, e, chain);
    HandoffExactlyIf(d, chain);
    if KeysMayBeGone(chain[0].manifest) {
      OwedReturned(d, e, chain);
    }
  }

  lemma AllSettled(d: Disk, e: Disk, chain: seq<Link>)
    requires chain != [] && HandoffRun(d, chain).ok && e.auths == Replay(d, HandoffRun(d, chain).writes).auths
    ensures forall h :: Settled(d, e, chain, h)
  {
    forall h ensures Settled(d, e, chain, h) {
      HandoffSettles(d, chain, h);
      SettledAlike(d, e, Replay(d, HandoffRun(d, chain).writes), chain, h);
    }
  }

  // An unlink fails closed: with a transferred source that no account the
  // newest manifest imported is for, it refuses.
  lemma MissingSourceRefuses(d: Disk, agent: Agent, root: Option<string>, p: Path, l: Link, r: Route, h: Home)
    requires ManifestChainOf(d.manifests, agent, root, p).Ok?
    requires var chain := ManifestChainOf(d.manifests, agent, root, p).value;
             && chain != [] && KeysMayBeGone(chain[0].manifest) && l in chain && Awaits(l, h) && r in l.manifest.routes && r.transfer
             && forall id :: id in chain[0].manifest.imported && FindAccount(d, chain[0].manifest, id).Some? ==>
                  FindAccount(d, chain[0].manifest, id).value.source != r.source
    ensures !UnlinkRun(d, agent, root, p).ok
    ensures !HandoffRun(d, ManifestChainOf(d.manifests, agent, root, p).value).ok
  {
    var chain := ManifestChainOf(d.manifests, agent, root, p).value;
    var newest := chain[0].manifest;
    assert Owes(d, newest, l.manifest, r.source);
    assert !Supplied(d, newest, newest.imported, r.source);
    assert !Demands(d, newest, l, h);
    HandoffExactlyIf(d, chain);
  }
}
