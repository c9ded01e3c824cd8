// What a completed link or sync leaves on disk, said without its steps: every
// file, every key, every binding, its manifest, and each account of the shard.
module LinkOutcome {
  import opened Wrappers
  import opened MigrationDisk
  import opened ManifestLog
  import opened CredentialHandoff
  import opened Reconcile
  import opened ReconcileCuts
  import opened HandoffBacking
  import opened ReconcileCompletes

  // ---- The files a run writes ----

  lemma TaskFiles(e: Disk, plan: Plan, m: Manifest, t: Task)
    ensures var f := Replay(e, TaskWrites(plan, m, t));
            f.files == if Image(t).Some? then e.files[Image(t).value.0 := Image(t).value.1] else e.files
  {
    if t.Strip? {
      ReplayOne(e, Action(plan, t));
    } else {
      var w := WriteManifest(ManifestAt(plan.stamp), AfterTask(m, t));
      assert TaskWrites(plan, m, t)[1..] == [w];
      ReplayOne(Step(e, Action(plan, t)), w);
    }
  }

  // What the last task for `p` writes there is what stays.
  lemma {:induction false} TasksLand(e: Disk, plan: Plan, m: Manifest, ts: seq<Task>, p: Path, c: Content)
    requires forall t :: t in ts && ImagePath(t) == Some(p) ==> Image(t) == Some((p, c))
    requires Lookup(e.files, p) == Some(c) || exists t :: t in ts && ImagePath(t) == Some(p)
    ensures Lookup(Replay(e, TasksWrites(plan, m, ts)).files, p) == Some(c)
    decreases |ts|
  {
    if ts != [] {
      var rest, ws := ts[1..], TaskWrites(plan, m, ts[0]);
      assert ts[0] in ts && forall t :: t in ts <==> t == ts[0] || t in rest;
      TaskFiles(e, plan, m, ts[0]);
      ReplayConcat(e, ws, TasksWrites(plan, AfterTask(m, ts[0]), rest));
      TasksLand(Replay(e, ws), plan, AfterTask(m, ts[0]), rest, p, c);
    }
  }

  lemma TaskIsOnly(d: Disk, plan: Plan, i: nat, t: Task)
    requires Tidy(plan) && i < |Tasks(d, plan)| && t in Tasks(d, plan)
    requires Image(t).Some? && ImagePath(Tasks(d, plan)[i]) == ImagePath(t)
    ensures Tasks(d, plan)[i] == t
  {
    TasksReady(d, plan);
    var j :| 0 <= j < |Tasks(d, plan)| && Tasks(d, plan)[j] == t;
  }

  // The completion of the manifest writes no file.
  lemma BodyFiles(d: Disk, plan: Plan)
    requires ApplyRun(d, plan).ok
    ensures Replay(d, ApplyRun(d, plan).writes).files == Replay(Replay(d, Opening(d, plan)), Body(d, plan)).files
  {
    var ws := Opening(d, plan) + Body(d, plan);
    var w := WriteManifest(ManifestAt(plan.stamp), LastManifest(d, plan).(completed := true));
    assert ApplyRun(d, plan).writes == ws + [w];
    ReplayConcat(d, ws, [w]);
    ReplayOne(Replay(d, ws), w);
    ReplayConcat(d, Opening(d, plan), Body(d, plan));
  }

  // The file of the i-th task holds its image when the run is complete.
  lemma ImageLands(d: Disk, plan: Plan, i: nat)
    requires Planned(d, plan) && i < |Tasks(d, plan)| && Image(Tasks(d, plan)[i]).Some?
    ensures var (p, c) := Image(Tasks(d, plan)[i]).value;
            Lookup(Replay(d, ApplyRun(d, plan).writes).files, p) == Some(c)
  {
    LinkCompletes(d, plan);
    TrackedPaths(d, plan);
    var ts := Tasks(d, plan);
    var (p, c) := Image(ts[i]).value;
    forall t | t in ts && ImagePath(t) == Some(p) ensures Image(t) == Some((p, c)) {
      TaskIsOnly(d, plan, i, t);
    }
    assert ts[i] in ts;
    BodyFiles(d, plan);
    TasksLand(Replay(d, Opening(d, plan)), plan, FirstManifest(d, plan), ts, p, c);
  }

  // ---- The shard, account by account ----

  lemma {:induction false} LastOfId(accounts: seq<Account>, i: nat)
    requires i < |accounts| && forall j :: i < j < |accounts| ==> accounts[j].id != accounts[i].id
    ensures accounts[i].id in ById(accounts) && ById(accounts)[accounts[i].id] == accounts[i]
  {
    if i > 0 {
      LastOfId(accounts[1..], i - 1);
    } else {
      ByIdHas(accounts[1..]);
      ByIdKeyed(accounts[1..]);
    }
  }

  lemma {:induction false} ByIdKeyed(accounts: seq<Account>)
    ensures forall id :: id in ById(accounts) ==> ById(accounts)[id].id == id
  {
    if accounts != [] {
      ByIdKeyed(accounts[1..]);
    }
  }

  predicate Imported(imported: seq<Account>, id: AccountId) {
    exists a :: a in imported && a.id == id
  }

  // What a link does to the accounts it does not import: foreign ones stay,
  // kept copies are disabled, and a gateway-owned account is removed exactly
  // if its source is imported under another id.
  predicate OldAccountKept(before: map<AccountId, Account>, after: map<AccountId, Account>, imported: seq<Account>, id: AccountId)
    requires id in before
  {
    match before[id].owner
    case Foreign => id in after && after[id] == before[id]
    case Synced => id in after && after[id] == before[id].(enabled := false)
    case Gateway =>
      && (id !in after <==> exists a :: a in imported && a.source == before[id].source && a.id != id)
      && (id in after ==> after[id] == before[id])
  }

  // How an import changes the accounts of a shard; of two imports with one id
  // the later one stays.
  ghost predicate ImportedInto(before: map<AccountId, Account>, after: map<AccountId, Account>, imported: seq<Account>) {
    && (forall id :: id in before && !Imported(imported, id) ==> OldAccountKept(before, after, imported, id))
    && (forall id :: id in after ==> id in before || Imported(imported, id))
    && (forall i :: 0 <= i < |imported| && (forall j :: i < j < |imported| ==> imported[j].id != imported[i].id) ==>
          imported[i].id in after && after[imported[i].id] == imported[i])
  }

  lemma ByIdImported(imported: seq<Account>)
    ensures forall id :: id in ById(imported) <==> Imported(imported, id)
  {
    ByIdHas(imported);
    ByIdKeyed(imported);
  }

  lemma OldSaved(before: map<AccountId, Account>, imported: seq<Account>, id: AccountId)
    requires id in before && id !in ById(imported) && !Imported(imported, id)
    ensures OldAccountKept(before, SavedShard(before, imported), imported, id)
  {
    var after := SavedShard(before, imported);
    assert id in after <==> !Replaced(id, before[id], imported);
  }

  lemma SavedShardIs(before: map<AccountId, Account>, imported: seq<Account>)
    ensures ImportedInto(before, SavedShard(before, imported), imported)
  {
    ByIdImported(imported);
    forall id | id in before && !Imported(imported, id) ensures OldAccountKept(before, SavedShard(before, imported), imported, id) {
      OldSaved(before, imported, id);
    }
    forall i | 0 <= i < |imported| && (forall j :: i < j < |imported| ==> imported[j].id != imported[i].id)
      ensures imported[i].id in SavedShard(before, imported) && SavedShard(before, imported)[imported[i].id] == imported[i] {
      LastOfId(imported, i);
    }
  }

  lemma ShardLands(d: Disk, plan: Plan)
    requires Planned(d, plan) && plan.source.FromAgent?
    ensures Lookup(Replay(d, ApplyRun(d, plan).writes).files, SHARD) == Some(Accounts(SavedShard(ShardAccounts(d.files, SHARD), plan.imported)))
  {
    assert Tasks(d, plan)[0] == SaveShard(SavedShard(ShardAccounts(d.files, SHARD), plan.imported));
    ImageLands(d, plan, 0);
  }

  lemma ShardAfterLink(d: Disk, plan: Plan)
    requires Planned(d, plan) && plan.source.FromAgent?
    ensures var e := Replay(d, ApplyRun(d, plan).writes);
            && SHARD in e.files && ShardReadable(e.files, SHARD)
            && ImportedInto(ShardAccounts(d.files, SHARD), ShardAccounts(e.files, SHARD), plan.imported)
  {
    ShardLands(d, plan);
    SavedShardIs(ShardAccounts(d.files, SHARD), plan.imported);
  }

  // ---- The rest of the disk ----

  predicate HasContent(fs: map<Path, Content>, p: Path, c: Content) {
    Lookup(fs, p) == Some(c)
  }

  lemma ConfigLands(d: Disk, plan: Plan)
    requires Planned(d, plan)
    ensures var e := Replay(d, ApplyRun(d, plan).writes);
            && HasContent(e.files, FRAGMENT, plan.fragment)
            && forall w :: w in plan.rewrites ==> HasContent(e.files, w.path, w.content)
  {
    var ts := Tasks(d, plan);
    var lead := if plan.source.FromAgent? then 1 else 0;
    assert ts[lead + 1] == Put(FRAGMENT, plan.fragment);
    ImageLands(d, plan, lead + 1);
    forall w | w in plan.rewrites ensures HasContent(Replay(d, ApplyRun(d, plan).writes).files, w.path, w.content) {
      var i :| 0 <= i < |plan.rewrites| && plan.rewrites[i] == w;
      var j := |ts| - |plan.rewrites| + i;
      assert ts[j] == Put(w.path, w.content);
      ImageLands(d, plan, j);
    }
  }

  // The record of one tracked file: whether it existed, its copy from before
  // the run, and what the run left in it.
  predicate Recorded(d: Disk, e: Disk, stamp: nat, p: Path, f: FileBackup) {
    && f.original == p && f.applied.Some? && f.applied == Lookup(e.files, p)
    && f.existed == (p in d.files) && f.created == (p !in d.files)
    && (if p in d.files then f.backup == Some(BackupOf(p, stamp)) && Lookup(e.files, BackupOf(p, stamp)) == Lookup(d.files, p)
        else f.backup == None)
  }

  predicate TrackedBy(plan: Plan, p: Path) {
    p == FRAGMENT || (plan.source.FromAgent? && p == SHARD) || exists w :: w in plan.rewrites && w.path == p
  }

  lemma TrackedByIs(plan: Plan)
    ensures forall p :: p in Tracked(plan) <==> TrackedBy(plan, p)
  {
    forall p ensures p in Tracked(plan) <==> TrackedBy(plan, p) {
      var paths := Tracked(plan);
      var lead := if plan.source.FromAgent? then 2 else 1;
      if TrackedBy(plan, p) {
        if w :| w in plan.rewrites && w.path == p {
          var i :| 0 <= i < |plan.rewrites| && plan.rewrites[i] == w;
          assert paths[lead + i] == p;
        } else {
          assert paths[lead - 1] == FRAGMENT;
        }
      }
    }
  }

  // The files the run records: each tracked one, once.
  ghost predicate RecordsFiles(d: Disk, plan: Plan, e: Disk, files: seq<FileBackup>) {
    && (forall p :: TrackedBy(plan, p) ==> exists f :: f in files && Recorded(d, e, plan.stamp, p, f))
    && (forall f :: f in files ==> TrackedBy(plan, f.original) && Recorded(d, e, plan.stamp, f.original, f))
    && (forall i, j :: 0 <= i < j < |files| ==> files[i].original != files[j].original)
  }

  lemma FilesRecorded(d: Disk, plan: Plan, e: Disk, m: Manifest)
    requires Tidy(plan) && FilesMid(d.files, plan, e.files, m.files, None)
    requires forall p :: p in Tracked(plan) ==> Checkpointed(m.files, p)
    ensures RecordsFiles(d, plan, e, m.files)
  {
    var paths := Tracked(plan);
    TrackedByIs(plan);
    EntriesValid(d, plan, e, m);
    forall i | 0 <= i < |m.files| ensures m.files[i].original == paths[i] && Recorded(d, e, plan.stamp, paths[i], m.files[i]) {
      assert SameEntry(m.files[i], Entry(d.files, paths[i], plan.stamp));
      assert m.files[i] in m.files;
    }
    forall p | TrackedBy(plan, p) ensures exists f :: f in m.files && Recorded(d, e, plan.stamp, p, f) {
      var i :| 0 <= i < |paths| && paths[i] == p;
      assert m.files[i] in m.files;
    }
  }

  predicate TransfersAny(plan: Plan) {
    plan.source.FromAgent? && exists r :: r in plan.routes && r.transfer
  }

  // The manifest: complete and active, with what an unlink needs to undo it.
  ghost predicate Records(d: Disk, plan: Plan, m: Manifest) {
    && m.version == CURRENT_VERSION && m.completed && !m.unlinked
    && m.agent == plan.agent && m.previous == plan.previous && m.routes == plan.routes
    && m.gatewayAuth == plan.source.FromAgent?
    && m.shard == (if plan.source.FromAgent? then Some(SHARD) else None)
    && m.home == (if TransfersAny(plan) then Some(plan.home) else None) && m.handoff == !TransfersAny(plan)
    && m.change == Some(BindingChange(Lookup(d.bindings, plan.agent), plan.binding, true))
    && (forall p :: p in m.paths <==> p == AGENT_CONFIG || (p == GATEWAY_AUTH && plan.source.FromAgent?) || (p == AGENT_AUTH && TransfersAny(plan)))
    && |m.imported| == |plan.imported| && (forall i :: 0 <= i < |m.imported| ==> m.imported[i] == plan.imported[i].id)
  }

  lemma LinkLeaves(d: Disk, plan: Plan)
    requires Planned(d, plan)
    ensures ApplyRun(d, plan).ok
    ensures var e := Replay(d, ApplyRun(d, plan).writes);
            && HasContent(e.files, FRAGMENT, plan.fragment)
            && (forall w :: w in plan.rewrites ==> HasContent(e.files, w.path, w.content))
            && (forall p :: !TrackedBy(plan, p) && !FreshBackup(p, plan.stamp) ==> Lookup(e.files, p) == Lookup(d.files, p))
            && e.bindings == d.bindings[plan.agent := plan.binding] && e.rootAccounts == d.rootAccounts
            && ManifestAt(plan.stamp) in e.manifests
            && e.manifests == d.manifests[ManifestAt(plan.stamp) := e.manifests[ManifestAt(plan.stamp)]]
            && Records(d, plan, e.manifests[ManifestAt(plan.stamp)])
            && RecordsFiles(d, plan, e, e.manifests[ManifestAt(plan.stamp)].files)
  {
    LinkCompletes(d, plan);
    CompleteReached(d, plan);
    ConfigLands(d, plan);
    AllCheckpointed(d, plan);
    MidLeaves(d, plan, Replay(d, ApplyRun(d, plan).writes), LastManifest(d, plan).(completed := true));
  }

  lemma MidLeaves(d: Disk, plan: Plan, e: Disk, m: Manifest)
    requires Tidy(plan) && Mid(d, plan, e, m, None) && m.completed && m.change.value.applied
    requires forall p :: p in Tracked(plan) ==> Checkpointed(m.files, p)
    ensures forall p :: !TrackedBy(plan, p) && !FreshBackup(p, plan.stamp) ==> Lookup(e.files, p) == Lookup(d.files, p)
    ensures e.bindings == d.bindings[plan.agent := plan.binding] && e.rootAccounts == d.rootAccounts
    ensures e.manifests == d.manifests[ManifestAt(plan.stamp) := m]
    ensures Records(d, plan, m) && RecordsFiles(d, plan, e, m.files)
  {
    TrackedByIs(plan);
    FilesRecorded(d, plan, e, m);
  }

  // ---- What a run that declares itself complete has checked ----

  // The shard holds the account under that id, on the agent's behalf.
  predicate HeldFor(fs: map<Path, Content>, shard: Path, id: AccountId) {
    shard in fs && fs[shard].Accounts? && id in fs[shard].accounts && !fs[shard].accounts[id].owner.Foreign?
  }

  // Its credential can be handed back as it was taken.
  predicate HeldAsTaken(fs: map<Path, Content>, shard: Path, r: Route) {
    && HeldFor(fs, shard, r.account)
    && var a := fs[shard].accounts[r.account];
      a.owner.Gateway? && a.enabled && a.exportable && a.source == r.source && a.provider == r.provider
  }

  // Whatever was planned: a run is complete exactly if, after its writes, the
  // binding is the one it meant to leave, every file besides the shard is what
  // it recorded, and the shard holds every account imported and transferred.
  ghost predicate Verified(e: Disk, m: Manifest) {
    && (m.change.Some? ==> m.change.value.applied && m.agent in e.bindings && e.bindings[m.agent] == m.change.value.after)
    && (forall f :: f in m.files && (m.shard.None? || f.original != m.shard.value) ==>
          f.applied.Some? && f.original in e.files && e.files[f.original] == f.applied.value)
    && match m.shard
       case None => forall r :: r in m.routes ==> !r.transfer
       case Some(shard) =>
         && m.gatewayAuth && (shard in e.files ==> e.files[shard].Accounts?)
         && (exists f :: f in m.files && f.original == shard && f.applied.Some?)
         && (forall id :: id in m.imported ==> HeldFor(e.files, shard, id))
         && (forall r :: r in m.routes && r.transfer ==> r.account in m.imported && HeldAsTaken(e.files, shard, r))
  }

  lemma VerifiedIs(e: Disk, m: Manifest)
    ensures CheckpointsValid(e, m) <==> Verified(e, m)
  {
    if m.shard.Some? {
      forall id ensures (FindAccount(e, m, id).Some? && FindAccount(e, m, id).value.owner != Foreign) <==> HeldFor(e.files, m.shard.value, id) {
      }
    }
  }

  lemma CompleteExactlyIf(d: Disk, plan: Plan)
    ensures ApplyRun(d, plan).ok <==> Verified(Replay(d, Opening(d, plan) + Body(d, plan)), LastManifest(d, plan))
  {
    VerifiedIs(Replay(d, Opening(d, plan) + Body(d, plan)), LastManifest(d, plan));
  }
}
