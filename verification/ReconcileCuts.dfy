// What holds of the disk wherever a link or sync is cut, once its in-progress
// manifest has been written.
module ReconcileCuts {
  import opened Wrappers
  import opened MigrationDisk
  import opened ManifestLog
  import opened BindingRollback
  import opened CredentialHandoff
  import opened Reconcile

  // ---- The invariant of a cut run ----

  predicate SameEntry(e: FileBackup, f: FileBackup) {
    e == f.(applied := e.applied)
  }

  // The state of one tracked file: untouched, checkpointed, or (only for the
  // path `dirty`) written without its checkpoint.
  predicate EntryState(fs: map<Path, Content>, gs: map<Path, Content>, e: FileBackup, dirty: Option<Path>) {
    match e.applied
    case Some(image) => dirty != Some(e.original) && Lookup(gs, e.original) == Some(image)
    case None => dirty == Some(e.original) || Lookup(gs, e.original) == Lookup(fs, e.original)
  }

  predicate FreshBackup(p: Path, stamp: nat) {
    p.BackupOf? && p.stamp == stamp
  }

  // `p` is the backup this run makes of an existing tracked file.
  predicate CopiedAside(fs: map<Path, Content>, paths: seq<Path>, p: Path, stamp: nat) {
    FreshBackup(p, stamp) && p.original in paths && p.original in fs
  }

  ghost predicate FilesMid(fs: map<Path, Content>, plan: Plan, gs: map<Path, Content>, files: seq<FileBackup>, dirty: Option<Path>) {
    var paths := Tracked(plan);
    && |files| == |paths|
    && (forall i :: 0 <= i < |files| ==>
          && SameEntry(files[i], Entry(fs, paths[i], plan.stamp))
          && EntryState(fs, gs, files[i], dirty)
          && (paths[i] in fs ==> Lookup(gs, BackupOf(paths[i], plan.stamp)) == Lookup(fs, paths[i])))
    && (forall p :: p !in paths && !CopiedAside(fs, paths, p, plan.stamp) ==> Lookup(gs, p) == Lookup(fs, p))
    && (dirty.Some? ==> dirty.value in paths && dirty.value in gs)
  }

  // The agent's keys are stripped only after the shard holds the accounts
  // and its checkpoint is on disk.
  ghost predicate KeysMid(d: Disk, plan: Plan, e: Disk, m: Manifest) {
    e.auths == d.auths || (e.auths == d.auths[plan.home := AuthOf(d, plan.home) - plan.transferred] && ShardSaved(d, plan, m))
  }

  predicate ShardSaved(d: Disk, plan: Plan, m: Manifest) {
    && plan.source.FromAgent? && m.files != []
    && m.files[0].applied == Some(Accounts(SavedShard(ShardAccounts(d.files, SHARD), plan.imported)))
  }

  ghost predicate Mid(d: Disk, plan: Plan, e: Disk, m: Manifest, dirty: Option<Path>) {
    var first := FirstManifest(d, plan);
    && e.manifests == d.manifests[ManifestAt(plan.stamp) := m]
    && m == first.(files := m.files, change := m.change, completed := m.completed)
    && (m.completed ==> dirty == None && (plan.source.FromAgent? ==> ShardSaved(d, plan, m)))
    && (plan.source.FromAgent? && m.files != [] && m.files[0].applied.Some? ==> ShardSaved(d, plan, m))
    && m.change.Some? && m.change == Some(first.change.value.(applied := m.change.value.applied))
    && FilesMid(d.files, plan, e.files, m.files, dirty)
    && KeysMid(d, plan, e, m)
    && e.rootAccounts == d.rootAccounts
    && e.bindings == (if m.change.value.applied then UpdateBinding(d.bindings, plan.agent, Some(plan.binding)) else e.bindings)
    && (e.bindings == d.bindings || e.bindings == UpdateBinding(d.bindings, plan.agent, Some(plan.binding)))
    && (plan.source.FromAgent? ==>
          || Lookup(e.files, SHARD) == Lookup(d.files, SHARD)
          || Lookup(e.files, SHARD) == Some(Accounts(SavedShard(ShardAccounts(d.files, SHARD), plan.imported))))
  }

  // ---- Opening: backups, then the in-progress manifest ----

  lemma {:induction false} EntriesAt(fs: map<Path, Content>, paths: seq<Path>, stamp: nat)
    ensures |Entries(fs, paths, stamp)| == |paths|
    ensures forall i :: 0 <= i < |paths| ==> Entries(fs, paths, stamp)[i] == Entry(fs, paths[i], stamp)
  {
    if paths != [] {
      EntriesAt(fs, paths[1..], stamp);
    }
  }

  // Backing up leaves `p` alone, or makes it the copy of its original.
  predicate BackedUp(before: map<Path, Content>, after: map<Path, Content>, fs: map<Path, Content>, paths: seq<Path>, p: Path, stamp: nat) {
    || Lookup(after, p) == Lookup(before, p)
    || (CopiedAside(fs, paths, p, stamp) && Lookup(after, p) == Lookup(fs, p.original))
  }

  lemma OthersKept(before: map<Path, Content>, after: map<Path, Content>, fs: map<Path, Content>, paths: seq<Path>, stamp: nat)
    requires forall p :: BackedUp(before, after, fs, paths, p, stamp)
    ensures forall p :: !CopiedAside(fs, paths, p, stamp) ==> Lookup(after, p) == Lookup(before, p)
  {
    forall p | !CopiedAside(fs, paths, p, stamp) ensures Lookup(after, p) == Lookup(before, p) {
      assert BackedUp(before, after, fs, paths, p, stamp);
    }
  }

  lemma {:induction false} BackupsCopied(e: Disk, fs: map<Path, Content>, paths: seq<Path>, stamp: nat, k: nat)
    requires forall i :: 0 <= i < |paths| ==> Lookup(e.files, paths[i]) == Lookup(fs, paths[i]) && !FreshBackup(paths[i], stamp)
    requires k <= |BackupWrites(fs, paths, stamp)|
    ensures var f := Replay(e, BackupWrites(fs, paths, stamp)[..k]);
            && f == e.(files := f.files)
            && forall p :: BackedUp(e.files, f.files, fs, paths, p, stamp)
    ensures var f := Replay(e, BackupWrites(fs, paths, stamp));
            forall i :: 0 <= i < |paths| && paths[i] in fs ==> Lookup(f.files, BackupOf(paths[i], stamp)) == Lookup(fs, paths[i])
    decreases |paths|, 1
  {
    if paths != [] {
      var w := if paths[0] in fs then [CopyFile(paths[0], BackupOf(paths[0], stamp))] else [];
      var rest := BackupWrites(fs, paths[1..], stamp);
      CutOfConcat(e, w, rest, k);
      ReplayConcat(e, w, rest);
      OneBackup(e, fs, paths, stamp);
      var e1 := Replay(e, w);
      if k < |w| {
        assert w[..k] == [];
        BackupsCopied(e1, fs, paths[1..], stamp, 0);
      } else {
        BackupsCopied(e1, fs, paths[1..], stamp, k - |w|);
        var f := Replay(e1, rest[..k - |w|]);
        forall p ensures BackedUp(e.files, f.files, fs, paths, p, stamp) {
          assert BackedUp(e.files, e1.files, fs, paths, p, stamp) && BackedUp(e1.files, f.files, fs, paths[1..], p, stamp);
        }
      }
      BackupAgain(e1, fs, paths, stamp);
    }
  }

  lemma OneBackup(e: Disk, fs: map<Path, Content>, paths: seq<Path>, stamp: nat)
    requires paths != [] && Lookup(e.files, paths[0]) == Lookup(fs, paths[0])
    ensures var f := Replay(e, if paths[0] in fs then [CopyFile(paths[0], BackupOf(paths[0], stamp))] else []);
            && f == e.(files := f.files)
            && (forall p :: BackedUp(e.files, f.files, fs, paths, p, stamp))
            && (forall p :: !FreshBackup(p, stamp) ==> Lookup(f.files, p) == Lookup(e.files, p))
            && (paths[0] in fs ==> Lookup(f.files, BackupOf(paths[0], stamp)) == Lookup(fs, paths[0]))
  {
    if paths[0] in fs {
      ReplayOne(e, CopyFile(paths[0], BackupOf(paths[0], stamp)));
    }
  }

  // A path that is copied aside is copied to the same content every time.
  lemma {:induction false} BackupAgain(e: Disk, fs: map<Path, Content>, paths: seq<Path>, stamp: nat)
    requires paths != []
    requires forall i :: 0 <= i < |paths| ==> Lookup(e.files, paths[i]) == Lookup(fs, paths[i]) && !FreshBackup(paths[i], stamp)
    requires paths[0] in fs ==> Lookup(e.files, BackupOf(paths[0], stamp)) == Lookup(fs, paths[0])
    ensures paths[0] in fs ==>
              Lookup(Replay(e, BackupWrites(fs, paths[1..], stamp)).files, BackupOf(paths[0], stamp)) == Lookup(fs, paths[0])
    decreases |paths|, 0
  {
    var rest := paths[1..];
    var n := |BackupWrites(fs, rest, stamp)|;
    assert BackupWrites(fs, rest, stamp)[..n] == BackupWrites(fs, rest, stamp);
    BackupsCopied(e, fs, rest, stamp, n);
    assert BackedUp(e.files, Replay(e, BackupWrites(fs, rest, stamp)).files, fs, rest, BackupOf(paths[0], stamp), stamp);
    if paths[0] in fs && paths[0] in rest {
      var i :| 0 <= i < |rest| && rest[i] == paths[0];
    }
  }

  // Tracked paths are distinct ordinary files, the shard first if there is one.
  ghost predicate Tidy(plan: Plan) {
    var paths := Tracked(plan);
    && (forall i :: 0 <= i < |paths| ==> paths[i].File?)
    && (forall i, j :: 0 <= i < j < |paths| ==> paths[i] != paths[j])
    && (SHARD in paths <==> plan.source.FromAgent?)
    && (plan.source.FromAgent? ==> paths[0] == SHARD)
  }

  lemma TrackedPaths(d: Disk, plan: Plan)
    requires Planned(d, plan)
    ensures Tidy(plan)
  {
    assert SHARD != FRAGMENT;
    var paths := Tracked(plan);
    var n := if plan.source.FromAgent? then 2 else 1;
    forall i | n <= i < |paths| ensures paths[i] == plan.rewrites[i - n].path {
    }
  }

  // Freshly backed up, no file has been touched.
  lemma BackedUpFiles(fs: map<Path, Content>, plan: Plan, gs: map<Path, Content>)
    requires Tidy(plan)
    requires forall p :: !CopiedAside(fs, Tracked(plan), p, plan.stamp) ==> Lookup(gs, p) == Lookup(fs, p)
    requires forall i :: 0 <= i < |Tracked(plan)| && Tracked(plan)[i] in fs ==>
               Lookup(gs, BackupOf(Tracked(plan)[i], plan.stamp)) == Lookup(fs, Tracked(plan)[i])
    ensures FilesMid(fs, plan, gs, Entries(fs, Tracked(plan), plan.stamp), None)
  {
    var paths := Tracked(plan);
    EntriesAt(fs, paths, plan.stamp);
    forall i | 0 <= i < |paths| ensures EntryState(fs, gs, Entry(fs, paths[i], plan.stamp), None) {
      assert !CopiedAside(fs, paths, paths[i], plan.stamp);
    }
  }

  lemma BackupRun(d: Disk, plan: Plan)
    requires Tidy(plan)
    ensures var e := Replay(d, BackupWrites(d.files, Tracked(plan), plan.stamp));
            && e == d.(files := e.files)
            && FilesMid(d.files, plan, e.files, Entries(d.files, Tracked(plan), plan.stamp), None)
            && (forall p: Path :: p.File? ==> Lookup(e.files, p) == Lookup(d.files, p))
  {
    var paths := Tracked(plan);
    var backups := BackupWrites(d.files, paths, plan.stamp);
    assert backups[..|backups|] == backups;
    BackupsCopied(d, d.files, paths, plan.stamp, |backups|);
    var e := Replay(d, backups);
    OthersKept(d.files, e.files, d.files, paths, plan.stamp);
    BackedUpFiles(d.files, plan, e.files);
  }

  lemma OpeningFiles(d: Disk, plan: Plan)
    requires Planned(d, plan)
    ensures var e := Replay(d, BackupWrites(d.files, Tracked(plan), plan.stamp));
            && e == d.(files := e.files)
            && FilesMid(d.files, plan, e.files, FirstManifest(d, plan).files, None)
            && (forall p: Path :: p.File? ==> Lookup(e.files, p) == Lookup(d.files, p))
  {
    TrackedPaths(d, plan);
    BackupRun(d, plan);
  }

  lemma OpeningReached(d: Disk, plan: Plan)
    requires Planned(d, plan)
    ensures Mid(d, plan, Replay(d, Opening(d, plan)), FirstManifest(d, plan), None)
  {
    OpeningFiles(d, plan);
    var backups := BackupWrites(d.files, Tracked(plan), plan.stamp);
    var w := WriteManifest(ManifestAt(plan.stamp), FirstManifest(d, plan));
    ReplayConcat(d, backups, [w]);
    ReplayOne(Replay(d, backups), w);
  }

  // A cut before the manifest is written leaves only stray backup copies.
  lemma OpeningCut(d: Disk, plan: Plan, k: nat)
    requires Planned(d, plan) && k < |Opening(d, plan)|
    ensures var e := Replay(d, Opening(d, plan)[..k]);
            && e == d.(files := e.files)
            && (forall p :: !FreshBackup(p, plan.stamp) ==> Lookup(e.files, p) == Lookup(d.files, p))
            && (forall p :: BackedUp(d.files, e.files, d.files, Tracked(plan), p, plan.stamp))
  {
    var paths := Tracked(plan);
    TrackedPaths(d, plan);
    var backups := BackupWrites(d.files, paths, plan.stamp);
    assert Opening(d, plan)[..k] == backups[..k];
    BackupsCopied(d, d.files, paths, plan.stamp, k);
    OthersKept(d.files, Replay(d, backups[..k]).files, d.files, paths, plan.stamp);
  }

  // ---- The steps that follow ----

  // The tasks still to do touch distinct tracked files that have no
  // checkpoint yet, and keys are stripped only after the shard is saved.
  ghost predicate Ready(d: Disk, plan: Plan, m: Manifest, ts: seq<Task>) {
    && |m.files| == |Tracked(plan)|
    && (forall i :: 0 <= i < |ts| ==> TaskOf(d, plan, ts[i]) && Unapplied(plan, m, ts[i]))
    && (forall i, j :: 0 <= i < j < |ts| && Image(ts[i]).Some? && Image(ts[j]).Some? ==> Image(ts[i]).value.0 != Image(ts[j]).value.0)
    && ((exists i :: 0 <= i < |ts| && ts[i].Strip?) ==> ShardSaved(d, plan, m) || ts[0].SaveShard?)
  }

  predicate TaskOf(d: Disk, plan: Plan, t: Task) {
    match t
    case SaveShard(accounts) => plan.source.FromAgent? && accounts == SavedShard(ShardAccounts(d.files, SHARD), plan.imported)
    case Strip(sources) => plan.source.FromAgent? && sources == plan.transferred
    case Put(p, _) => p != SHARD && p in Tracked(plan)
    case Bind => true
  }

  predicate Unapplied(plan: Plan, m: Manifest, t: Task)
    requires |m.files| == |Tracked(plan)|
  {
    Image(t).Some? ==>
      && Image(t).value.0 in Tracked(plan)
      && forall i :: 0 <= i < |m.files| && Tracked(plan)[i] == Image(t).value.0 ==> m.files[i].applied.None?
  }

  function ImagePath(t: Task): Option<Path> {
    match Image(t) case Some((p, _)) => Some(p) case None => None
  }

  // The path written but not yet checkpointed after `k` of the writes of `ts`.
  function GapAt(plan: Plan, m: Manifest, ts: seq<Task>, k: nat): Option<Path>
    decreases |ts|
  {
    if ts == [] || k == 0 then None
    else if k < |TaskWrites(plan, m, ts[0])| then ImagePath(ts[0])
    else GapAt(plan, AfterTask(m, ts[0]), ts[1..], k - |TaskWrites(plan, m, ts[0])|)
  }

  lemma {:induction false} SetAppliedAt(files: seq<FileBackup>, p: Path, image: Content)
    requires forall i, j :: 0 <= i < j < |files| ==> files[i].original != files[j].original
    ensures |SetApplied(files, p, image)| == |files|
    ensures forall i :: 0 <= i < |files| ==>
              SetApplied(files, p, image)[i] == if files[i].original == p then files[i].(applied := Some(image)) else files[i]
  {
    if files != [] && files[0].original != p {
      SetAppliedAt(files[1..], p, image);
    }
  }

  // The action of a task leaves its path, and only that, without a checkpoint.
  lemma ActionReached(d: Disk, plan: Plan, e: Disk, m: Manifest, t: Task)
    requires Tidy(plan) && Mid(d, plan, e, m, None)
    requires TaskOf(d, plan, t) && Unapplied(plan, m, t) && (t.Strip? ==> ShardSaved(d, plan, m)) && !m.completed
    ensures Mid(d, plan, Step(e, Action(plan, t)), m, ImagePath(t))
    ensures Image(t).Some? ==> Lookup(Step(e, Action(plan, t)).files, Image(t).value.0) == Some(Image(t).value.1)
    ensures t.Bind? ==> Step(e, Action(plan, t)).bindings == UpdateBinding(d.bindings, plan.agent, Some(plan.binding))
  {
    if Image(t).Some? {
      ActionFiles(d, plan, e, m, t);
    }
    if t.Strip? {
      var left := AuthOf(d, plan.home) - plan.transferred;
      assert left - plan.transferred == left;
      assert Step(e, Action(plan, t)).auths == d.auths[plan.home := left];
    }
  }

  lemma ActionFiles(d: Disk, plan: Plan, e: Disk, m: Manifest, t: Task)
    requires Tidy(plan) && FilesMid(d.files, plan, e.files, m.files, None)
    requires Image(t).Some? && Unapplied(plan, m, t)
    ensures FilesMid(d.files, plan, e.files[Image(t).value.0 := Image(t).value.1], m.files, ImagePath(t))
  {
    var paths := Tracked(plan);
    var gs := e.files[Image(t).value.0 := Image(t).value.1];
    forall i | 0 <= i < |paths| ensures EntryState(d.files, gs, m.files[i], ImagePath(t)) {
      assert SameEntry(m.files[i], Entry(d.files, paths[i], plan.stamp));
      assert EntryState(d.files, e.files, m.files[i], None);
    }
    forall i | 0 <= i < |paths| && paths[i] in d.files
      ensures Lookup(gs, BackupOf(paths[i], plan.stamp)) == Lookup(d.files, paths[i]) {
      assert Image(t).value.0.File?;
    }
  }

  // Writing the manifest closes the gap.
  lemma CheckpointReached(d: Disk, plan: Plan, e: Disk, m: Manifest, t: Task)
    requires Tidy(plan) && Mid(d, plan, e, m, ImagePath(t)) && !t.Strip?
    requires TaskOf(d, plan, t) && !m.completed
    requires Image(t).Some? ==> Lookup(e.files, Image(t).value.0) == Some(Image(t).value.1)
    requires t.Bind? ==> e.bindings == UpdateBinding(d.bindings, plan.agent, Some(plan.binding))
    ensures Mid(d, plan, Step(e, WriteManifest(ManifestAt(plan.stamp), AfterTask(m, t))), AfterTask(m, t), None)
    ensures t.SaveShard? ==> ShardSaved(d, plan, AfterTask(m, t))
  {
    if Image(t).Some? {
      CheckpointFiles(d, plan, e, m, t);
    }
  }

  lemma CheckpointFiles(d: Disk, plan: Plan, e: Disk, m: Manifest, t: Task)
    requires Tidy(plan) && FilesMid(d.files, plan, e.files, m.files, ImagePath(t))
    requires Image(t).Some? && Lookup(e.files, Image(t).value.0) == Some(Image(t).value.1)
    ensures FilesMid(d.files, plan, e.files, SetApplied(m.files, Image(t).value.0, Image(t).value.1), None)
  {
    var paths := Tracked(plan);
    forall i | 0 <= i < |m.files| ensures m.files[i].original == paths[i] {
      assert SameEntry(m.files[i], Entry(d.files, paths[i], plan.stamp));
    }
    SetAppliedAt(m.files, Image(t).value.0, Image(t).value.1);
    var after := SetApplied(m.files, Image(t).value.0, Image(t).value.1);
    forall i | 0 <= i < |paths|
      ensures EntryState(d.files, e.files, after[i], None) && SameEntry(after[i], Entry(d.files, paths[i], plan.stamp)) {
      assert SameEntry(m.files[i], Entry(d.files, paths[i], plan.stamp));
      assert EntryState(d.files, e.files, m.files[i], ImagePath(t));
    }
  }

  lemma ReadyStep(d: Disk, plan: Plan, m: Manifest, ts: seq<Task>)
    requires Tidy(plan) && ts != [] && Ready(d, plan, m, ts)
    requires forall i :: 0 <= i < |m.files| ==> m.files[i].original == Tracked(plan)[i]
    requires ts[0].SaveShard? ==> ShardSaved(d, plan, AfterTask(m, ts[0]))
    ensures Ready(d, plan, AfterTask(m, ts[0]), ts[1..])
  {
    var t, rest := ts[0], ts[1..];
    assert forall i :: 0 <= i < |rest| ==> rest[i] == ts[i + 1];
    if Image(t).Some? {
      SetAppliedAt(m.files, Image(t).value.0, Image(t).value.1);
    }
    forall i | 0 <= i < |rest| ensures TaskOf(d, plan, rest[i]) && Unapplied(plan, AfterTask(m, t), rest[i]) {
      StillUnapplied(plan, m, t, ts[i + 1]);
    }
    if ShardSaved(d, plan, m) {
      StillSaved(d, plan, m, t);
    }
  }

  lemma StillUnapplied(plan: Plan, m: Manifest, t: Task, u: Task)
    requires Tidy(plan) && |m.files| == |Tracked(plan)| && Unapplied(plan, m, u)
    requires forall i :: 0 <= i < |m.files| ==> m.files[i].original == Tracked(plan)[i]
    requires Image(t).Some? && Image(u).Some? ==> Image(t).value.0 != Image(u).value.0
    ensures |AfterTask(m, t).files| == |Tracked(plan)| && Unapplied(plan, AfterTask(m, t), u)
  {
    if Image(t).Some? {
      SetAppliedAt(m.files, Image(t).value.0, Image(t).value.1);
    }
  }

  lemma StillSaved(d: Disk, plan: Plan, m: Manifest, t: Task)
    requires Tidy(plan) && ShardSaved(d, plan, m) && TaskOf(d, plan, t)
    requires m.files[0].original == SHARD
    ensures ShardSaved(d, plan, AfterTask(m, t))
  {
  }

  // ---- Every cut ----

  lemma MidNames(d: Disk, plan: Plan, e: Disk, m: Manifest, dirty: Option<Path>)
    requires Tidy(plan) && Mid(d, plan, e, m, dirty)
    ensures |m.files| == |Tracked(plan)|
    ensures forall i :: 0 <= i < |m.files| ==> m.files[i].original == Tracked(plan)[i]
  {
    forall i | 0 <= i < |m.files| ensures m.files[i].original == Tracked(plan)[i] {
      assert SameEntry(m.files[i], Entry(d.files, Tracked(plan)[i], plan.stamp));
    }
  }

  // One whole task.
  lemma TaskReached(d: Disk, plan: Plan, e: Disk, m: Manifest, ts: seq<Task>)
    requires Tidy(plan) && Mid(d, plan, e, m, None) && ts != [] && Ready(d, plan, m, ts)
    ensures Mid(d, plan, Replay(e, TaskWrites(plan, m, ts[0])), AfterTask(m, ts[0]), None)
    requires !m.completed
    ensures Ready(d, plan, AfterTask(m, ts[0]), ts[1..])
    ensures Mid(d, plan, Step(e, Action(plan, ts[0])), m, ImagePath(ts[0]))
    ensures ShardSaved(d, plan, m) || ts[0].SaveShard? ==> ShardSaved(d, plan, AfterTask(m, ts[0]))
    ensures !AfterTask(m, ts[0]).completed
  {
    var t := ts[0];
    MidNames(d, plan, e, m, None);
    assert TaskOf(d, plan, t) && Unapplied(plan, m, t);
    ActionReached(d, plan, e, m, t);
    var e1 := Step(e, Action(plan, t));
    if t.Strip? {
      ReplayOne(e, Action(plan, t));
    } else {
      CheckpointReached(d, plan, e1, m, t);
      var w := WriteManifest(ManifestAt(plan.stamp), AfterTask(m, t));
      assert TaskWrites(plan, m, t)[1..] == [w];
      ReplayOne(e1, w);
    }
    ReadyStep(d, plan, m, ts);
    if ShardSaved(d, plan, m) {
      StillSaved(d, plan, m, t);
    }
  }

  // A cut inside the first task.
  lemma FirstTaskCut(d: Disk, plan: Plan, e: Disk, m: Manifest, ts: seq<Task>, k: nat)
    requires Tidy(plan) && Mid(d, plan, e, m, None) && ts != [] && !m.completed
    requires k < |TaskWrites(plan, m, ts[0])| && Mid(d, plan, Step(e, Action(plan, ts[0])), m, ImagePath(ts[0]))
    ensures Mid(d, plan, Replay(e, TasksWrites(plan, m, ts)[..k]), m, GapAt(plan, m, ts, k))
  {
    var first := TaskWrites(plan, m, ts[0]);
    CutOfConcat(e, first, TasksWrites(plan, AfterTask(m, ts[0]), ts[1..]), k);
    if k == 0 {
      assert first[..0] == [];
    } else {
      assert first[..k] == [Action(plan, ts[0])];
      ReplayOne(e, Action(plan, ts[0]));
    }
  }

  // After any number of the writes of `ts` the invariant holds, with exactly
  // the path at `GapAt` written but not checkpointed.
  lemma {:induction false} TasksCut(d: Disk, plan: Plan, e: Disk, m: Manifest, ts: seq<Task>, k: nat) returns (now: Manifest)
    requires Tidy(plan) && Mid(d, plan, e, m, None) && Ready(d, plan, m, ts)
    requires k <= |TasksWrites(plan, m, ts)| && !m.completed
    ensures !now.completed
    ensures Mid(d, plan, Replay(e, TasksWrites(plan, m, ts)[..k]), now, GapAt(plan, m, ts, k))
    ensures k == |TasksWrites(plan, m, ts)| ==> now == AfterTasks(m, ts) && GapAt(plan, m, ts, k) == None
    ensures k == |TasksWrites(plan, m, ts)| && (ShardSaved(d, plan, m) || (ts != [] && ts[0].SaveShard?)) ==> ShardSaved(d, plan, now)
    decreases |ts|
  {
    var ws := TasksWrites(plan, m, ts);
    now := m;
    if ts == [] {
      assert ws[..k] == [];
    } else {
      TaskReached(d, plan, e, m, ts);
      var first := TaskWrites(plan, m, ts[0]);
      if k < |first| {
        FirstTaskCut(d, plan, e, m, ts, k);
      } else {
        CutOfConcat(e, first, TasksWrites(plan, AfterTask(m, ts[0]), ts[1..]), k);
        now := TasksCut(d, plan, Replay(e, first), AfterTask(m, ts[0]), ts[1..], k - |first|);
      }
    }
  }

  // Where the path of the i-th task stands among the tracked ones.
  function Slot(d: Disk, plan: Plan, i: nat): int {
    var ts, lead := Tasks(d, plan), if plan.source.FromAgent? then 1 else 0;
    if i == 0 then 0 else if i <= lead + 1 then lead else i - |ts| + |Tracked(plan)|
  }

  lemma TaskAt(d: Disk, plan: Plan, i: nat)
    requires Tidy(plan) && i < |Tasks(d, plan)|
    ensures TaskOf(d, plan, Tasks(d, plan)[i])
    ensures Image(Tasks(d, plan)[i]).Some? ==>
              && 0 <= Slot(d, plan, i) < |Tracked(plan)|
              && Image(Tasks(d, plan)[i]).value.0 == Tracked(plan)[Slot(d, plan, i)]
  {
    var ts, paths := Tasks(d, plan), Tracked(plan);
    var skip, lead := |ts| - |plan.rewrites|, |paths| - |plan.rewrites|;
    assert paths[lead - 1] == FRAGMENT;
    if skip <= i {
      assert ts[i] == Put(plan.rewrites[i - skip].path, plan.rewrites[i - skip].content);
      assert paths[i - skip + lead] == plan.rewrites[i - skip].path;
    }
  }

  lemma TasksReady(d: Disk, plan: Plan)
    requires Tidy(plan)
    ensures Ready(d, plan, FirstManifest(d, plan), Tasks(d, plan))
  {
    var ts, paths, m := Tasks(d, plan), Tracked(plan), FirstManifest(d, plan);
    EntriesAt(d.files, paths, plan.stamp);
    forall i | 0 <= i < |ts| ensures TaskOf(d, plan, ts[i]) && Unapplied(plan, m, ts[i]) {
      TaskAt(d, plan, i);
    }
    forall i, j | 0 <= i < j < |ts| && Image(ts[i]).Some? && Image(ts[j]).Some?
      ensures Image(ts[i]).value.0 != Image(ts[j]).value.0 {
      TaskAt(d, plan, i);
      TaskAt(d, plan, j);
    }
  }

  // ---- Cuts of the whole run ----

  function CutState(d: Disk, plan: Plan, k: nat): Disk
    requires k <= |Opening(d, plan) + Body(d, plan)|
  {
    Replay(d, (Opening(d, plan) + Body(d, plan))[..k])
  }

  // The path whose write the cut separates from its checkpoint, if any.
  function CutGap(d: Disk, plan: Plan, k: nat): Option<Path>
    requires |Opening(d, plan)| <= k
  {
    GapAt(plan, FirstManifest(d, plan), Tasks(d, plan), k - |Opening(d, plan)|)
  }

  lemma CutReached(d: Disk, plan: Plan, k: nat) returns (m: Manifest)
    requires Planned(d, plan) && |Opening(d, plan)| <= k <= |Opening(d, plan) + Body(d, plan)|
    ensures Tidy(plan) && Mid(d, plan, CutState(d, plan, k), m, CutGap(d, plan, k)) && !m.completed
    ensures k == |Opening(d, plan) + Body(d, plan)| ==>
              && m == LastManifest(d, plan) && CutGap(d, plan, k) == None
              && (plan.source.FromAgent? ==> ShardSaved(d, plan, m))
  {
    TrackedPaths(d, plan);
    OpeningReached(d, plan);
    TasksReady(d, plan);
    CutOfConcat(d, Opening(d, plan), Body(d, plan), k);
    m := TasksCut(d, plan, Replay(d, Opening(d, plan)), FirstManifest(d, plan), Tasks(d, plan), k - |Opening(d, plan)|);
  }

  // Declaring the manifest complete.
  lemma CompletionReached(d: Disk, plan: Plan, e: Disk, m: Manifest)
    requires Mid(d, plan, e, m, None) && (plan.source.FromAgent? ==> ShardSaved(d, plan, m))
    ensures Mid(d, plan, Step(e, WriteManifest(ManifestAt(plan.stamp), m.(completed := true))), m.(completed := true), None)
  {
  }

  lemma CompleteReached(d: Disk, plan: Plan)
    requires Planned(d, plan) && ApplyRun(d, plan).ok
    ensures Tidy(plan)
    ensures Mid(d, plan, Replay(d, ApplyRun(d, plan).writes), LastManifest(d, plan).(completed := true), None)
  {
    var ws := Opening(d, plan) + Body(d, plan);
    var m := CutReached(d, plan, |ws|);
    assert ws[..|ws|] == ws;
    var w := WriteManifest(ManifestAt(plan.stamp), m.(completed := true));
    assert ApplyRun(d, plan).writes == ws + [w];
    CompletionReached(d, plan, CutState(d, plan, |ws|), m);
    ReplayConcat(d, ws, [w]);
    ReplayOne(Replay(d, ws), w);
  }
}
