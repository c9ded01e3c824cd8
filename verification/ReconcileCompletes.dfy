// Left alone, every planned link or sync passes its own final validation.
module ReconcileCompletes {
  import opened Wrappers
  import opened MigrationDisk
  import opened CredentialHandoff
  import opened Reconcile
  import opened ReconcileCuts
  import opened HandoffBacking

  // `p` is checkpointed in `files`.
  predicate Checkpointed(files: seq<FileBackup>, p: Path) {
    forall i :: 0 <= i < |files| && files[i].original == p ==> files[i].applied.Some?
  }

  predicate Distinct(files: seq<FileBackup>) {
    forall i, j :: 0 <= i < j < |files| ==> files[i].original != files[j].original
  }

  lemma AfterTaskEntries(m: Manifest, t: Task)
    requires Distinct(m.files)
    ensures Distinct(AfterTask(m, t).files) && |AfterTask(m, t).files| == |m.files|
    ensures forall p :: Checkpointed(m.files, p) ==> Checkpointed(AfterTask(m, t).files, p)
    ensures ImagePath(t).Some? ==> Checkpointed(AfterTask(m, t).files, ImagePath(t).value)
  {
    if Image(t).Some? {
      SetAppliedAt(m.files, Image(t).value.0, Image(t).value.1);
    }
  }

  // Every path some task writes ends up checkpointed, and a binding task sets
  // the binding flag.
  lemma {:induction false} TasksCheckpoint(m: Manifest, ts: seq<Task>)
    requires Distinct(m.files) && m.change.Some?
    ensures var last := AfterTasks(m, ts);
            && last.change.Some? && (m.change.value.applied || Bind in ts ==> last.change.value.applied)
            && (forall p :: Checkpointed(m.files, p) ==> Checkpointed(last.files, p))
            && (forall t :: t in ts && ImagePath(t).Some? ==> Checkpointed(last.files, ImagePath(t).value))
    decreases |ts|
  {
    if ts != [] {
      AfterTaskEntries(m, ts[0]);
      TasksCheckpoint(AfterTask(m, ts[0]), ts[1..]);
      assert forall t :: t in ts <==> t == ts[0] || t in ts[1..];
    }
  }

  // Every tracked path is written by some task.
  lemma TrackedIsWritten(d: Disk, plan: Plan, p: Path)
    requires p in Tracked(plan)
    ensures Bind in Tasks(d, plan)
    ensures exists t :: t in Tasks(d, plan) && ImagePath(t) == Some(p)
  {
    var ts, paths := Tasks(d, plan), Tracked(plan);
    var lead := if plan.source.FromAgent? then 1 else 0;
    assert ts[lead] == Bind;
    var i :| 0 <= i < |paths| && paths[i] == p;
    var j := if i < lead then 0 else if i == lead then lead + 1 else i - |paths| + |ts|;
    assert ts[j] in ts && ImagePath(ts[j]) == Some(p);
  }

  lemma FirstIsDistinct(d: Disk, plan: Plan)
    requires Tidy(plan)
    ensures Distinct(FirstManifest(d, plan).files)
  {
    EntriesAt(d.files, Tracked(plan), plan.stamp);
  }

  lemma AllCheckpointed(d: Disk, plan: Plan)
    requires Tidy(plan)
    ensures var m := LastManifest(d, plan);
            m.change.Some? && m.change.value.applied && forall p :: p in Tracked(plan) ==> Checkpointed(m.files, p)
  {
    FirstIsDistinct(d, plan);
    TasksCheckpoint(FirstManifest(d, plan), Tasks(d, plan));
    var lead := if plan.source.FromAgent? then 1 else 0;
    assert Tracked(plan)[lead] in Tracked(plan);
    TrackedIsWritten(d, plan, Tracked(plan)[lead]);
    forall p | p in Tracked(plan) ensures Checkpointed(LastManifest(d, plan).files, p) {
      TrackedIsWritten(d, plan, p);
    }
  }

  lemma EntriesValid(d: Disk, plan: Plan, e: Disk, m: Manifest)
    requires Tidy(plan) && FilesMid(d.files, plan, e.files, m.files, None)
    requires forall p :: p in Tracked(plan) ==> Checkpointed(m.files, p)
    ensures forall f :: f in m.files ==> f.original in Tracked(plan) && f.applied.Some? && Lookup(e.files, f.original) == f.applied
    ensures forall p :: p in Tracked(plan) ==> exists f :: f in m.files && f.original == p
  {
    forall f | f in m.files ensures f.original in Tracked(plan) && f.applied.Some? && Lookup(e.files, f.original) == f.applied {
      var i :| 0 <= i < |m.files| && m.files[i] == f;
      assert SameEntry(f, Entry(d.files, Tracked(plan)[i], plan.stamp)) && EntryState(d.files, e.files, f, None);
    }
    forall p | p in Tracked(plan) ensures exists f :: f in m.files && f.original == p {
      var i :| 0 <= i < |m.files| && Tracked(plan)[i] == p;
      assert SameEntry(m.files[i], Entry(d.files, p, plan.stamp)) && m.files[i] in m.files;
    }
  }

  lemma AccountsFound(d: Disk, plan: Plan, e: Disk, m: Manifest)
    requires DistinctAccounts(plan.imported) && m.shard == Some(SHARD)
    requires Lookup(e.files, SHARD) == Some(Accounts(SavedShard(ShardAccounts(d.files, SHARD), plan.imported)))
    ensures forall a :: a in plan.imported ==> FindAccount(e, m, a.id) == Some(a)
  {
    ByIdAt(plan.imported);
  }

  // The accounts of the saved shard satisfy what completion demands of them.
  lemma AccountsValid(d: Disk, plan: Plan, e: Disk, m: Manifest)
    requires forall a :: a in plan.imported ==> FindAccount(e, m, a.id) == Some(a)
    requires forall a :: a in plan.imported ==> a.owner == Gateway && (a.source in plan.transferred ==> a.enabled && a.exportable)
    requires m.imported == seq(|plan.imported|, i requires 0 <= i < |plan.imported| => plan.imported[i].id)
    requires m.routes == seq(|plan.imported|, i requires 0 <= i < |plan.imported| => RouteFor(plan.imported[i], plan.transferred))
    ensures forall id :: id in m.imported ==> FindAccount(e, m, id).Some? && FindAccount(e, m, id).value.owner != Foreign
    ensures forall r :: r in m.routes && r.transfer ==> RouteRestorable(e, m, r) && FindAccount(e, m, r.account).value.enabled
  {
    forall id | id in m.imported ensures FindAccount(e, m, id).Some? && FindAccount(e, m, id).value.owner != Foreign {
      var i :| 0 <= i < |m.imported| && m.imported[i] == id;
      assert plan.imported[i] in plan.imported;
    }
    forall r | r in m.routes && r.transfer ensures RouteRestorable(e, m, r) && FindAccount(e, m, r.account).value.enabled {
      var i :| 0 <= i < |m.routes| && m.routes[i] == r;
      assert plan.imported[i] in plan.imported && m.imported[i] in m.imported;
    }
  }

  lemma SavedOnDisk(d: Disk, plan: Plan, e: Disk, m: Manifest)
    requires Tidy(plan) && FilesMid(d.files, plan, e.files, m.files, None) && ShardSaved(d, plan, m)
    ensures Lookup(e.files, SHARD) == Some(Accounts(SavedShard(ShardAccounts(d.files, SHARD), plan.imported)))
  {
    assert SameEntry(m.files[0], Entry(d.files, SHARD, plan.stamp));
    assert EntryState(d.files, e.files, m.files[0], None);
  }

  lemma MergedAccounts(d: Disk, plan: Plan)
    requires Merged(d, plan)
    ensures DistinctAccounts(plan.imported)
    ensures forall a :: a in plan.imported ==> a.owner == Gateway && (a.source in plan.transferred ==> a.enabled && a.exportable)
    ensures RoutesMatch(plan)
  {
    forall a | a in plan.imported ensures Taken(d, plan, a) {
    }
  }

  // A copied account ends up in the shard as an import of its id.
  lemma {:induction false} ByIdHas(accounts: seq<Account>)
    ensures forall a :: a in accounts ==> a.id in ById(accounts)
    ensures forall id :: id in ById(accounts) ==> ById(accounts)[id] in accounts
  {
    if accounts != [] {
      ByIdHas(accounts[1..]);
    }
  }

  lemma CopySaved(shard: map<AccountId, Account>, imported: seq<Account>, a: Account)
    requires a in imported
    ensures a.id in SavedShard(shard, imported) && SavedShard(shard, imported)[a.id] in imported
  {
    ByIdHas(imported);
    assert SavedShard(shard, imported)[a.id] == ById(imported)[a.id];
  }

  lemma CopiesValid(d: Disk, plan: Plan, e: Disk, m: Manifest)
    requires Copied(plan) && m.shard == Some(SHARD)
    requires Lookup(e.files, SHARD) == Some(Accounts(SavedShard(ShardAccounts(d.files, SHARD), plan.imported)))
    requires m.imported == seq(|plan.imported|, i requires 0 <= i < |plan.imported| => plan.imported[i].id)
    ensures forall id :: id in m.imported ==> FindAccount(e, m, id).Some? && FindAccount(e, m, id).value.owner != Foreign
  {
    forall id | id in m.imported ensures FindAccount(e, m, id).Some? && FindAccount(e, m, id).value.owner != Foreign {
      var i :| 0 <= i < |m.imported| && m.imported[i] == id;
      CopySaved(ShardAccounts(d.files, SHARD), plan.imported, plan.imported[i]);
    }
  }

  // The parts of a finished run's manifest that validation reads.
  predicate Finished(d: Disk, plan: Plan, e: Disk, m: Manifest) {
    && m.agent == plan.agent && m.routes == plan.routes
    && m.imported == seq(|plan.imported|, i requires 0 <= i < |plan.imported| => plan.imported[i].id)
    && m.gatewayAuth == plan.source.FromAgent?
    && m.shard == (if plan.source.FromAgent? then Some(SHARD) else None)
    && m.change.Some? && m.change.value.applied && Lookup(e.bindings, plan.agent) == Some(m.change.value.after)
  }

  lemma MidFinished(d: Disk, plan: Plan, e: Disk, m: Manifest)
    requires Mid(d, plan, e, m, None) && m.change.value.applied
    ensures Finished(d, plan, e, m) && FilesMid(d.files, plan, e.files, m.files, None)
  {
  }

  lemma FinishedValid(d: Disk, plan: Plan, e: Disk, m: Manifest)
    requires Tidy(plan) && Finished(d, plan, e, m) && FilesMid(d.files, plan, e.files, m.files, None)
    requires forall p :: p in Tracked(plan) ==> Checkpointed(m.files, p)
    requires TakesOver(d, plan) && (plan.source.FromAgent? ==> ShardSaved(d, plan, m))
    ensures CheckpointsValid(e, m)
  {
    EntriesValid(d, plan, e, m);
    if plan.source.FromAgent? {
      SavedOnDisk(d, plan, e, m);
    }
    if plan.source.FromAgent? && !Moves(plan) {
      CopiesValid(d, plan, e, m);
    } else if Moves(plan) {
      MergedAccounts(d, plan);
      AccountsFound(d, plan, e, m);
      AccountsValid(d, plan, e, m);
    }
  }

  // With no outside edit in between, a planned run never fails its validation.
  lemma LinkCompletes(d: Disk, plan: Plan)
    requires Planned(d, plan)
    ensures ApplyRun(d, plan).ok
  {
    var ws := Opening(d, plan) + Body(d, plan);
    var m := CutReached(d, plan, |ws|);
    assert ws[..|ws|] == ws;
    AllCheckpointed(d, plan);
    MidFinished(d, plan, CutState(d, plan, |ws|), m);
    FinishedValid(d, plan, CutState(d, plan, |ws|), m);
  }
}
