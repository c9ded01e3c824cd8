// An unlink that stopped while marking its manifests is not accepted again,
// unless the links happen to have changed nothing.
module RetryLimits {
  import opened Wrappers
  import opened MigrationDisk
  import opened ManifestChain
  import opened ManifestLog
  import opened FileRollback
  import opened BindingRollback
  import opened CredentialHandoff
  import opened Unlink
  import opened Reconcile
  import opened ReconcileCuts
  import opened LinkUndo
  import opened HandoffBacking
  import opened ReconcileCompletes
  import opened CutUnlink
  import opened ChainInversion
  import opened UnlinkInverts
  import opened LogMarks
  import opened UnlinkCuts
  import opened UnlinkRetry

  lemma {:induction false} MarkEach(chain: seq<Link>)
    ensures |UnlinkMarks(chain)| == |chain|
  {
    if chain != [] {
      MarkEach(chain[1..]);
    }
  }

  lemma RolledBackFiles(d: Disk, agent: Agent, chain: seq<Link>)
    requires Accepted(d, agent, chain)
    ensures Replay(d, RollbackWrites(d, agent, chain)).files == RestoreChain(d.files, chain)
  {
    ReplayConcat(d, ChainWrites(chain), BindingRun(agent, Lookup(d.bindings, agent), chain).writes);
    ReplayChain(d, chain);
    BindingRestored(d.(files := RestoreChain(d.files, chain)), agent, chain);
  }

  // While it marks manifests, an unlink has rolled all files back.
  lemma MarkingFiles(d: Disk, agent: Agent, tip: Path, k: nat)
    requires LogShape(agent, d.manifests) && IsLatest(d.manifests, tip)
    requires var chain := Log(agent, d.manifests, tip);
             var run := UnlinkChain(d, agent, chain);
             run.ok && |run.writes| - |chain| <= k <= |run.writes|
    ensures var chain := Log(agent, d.manifests, tip);
            Replay(d, UnlinkChain(d, agent, chain).writes[..k]).files == RestoreChain(d.files, chain)
  {
    LogUnlinkable(agent, d.manifests, tip);
    ChainMarkingFiles(d, agent, Log(agent, d.manifests, tip), k);
  }

  lemma ChainMarkingFiles(d: Disk, agent: Agent, chain: seq<Link>, k: nat)
    requires Unlinkable(d.manifests, chain) && UnlinkChain(d, agent, chain).ok
    requires |UnlinkChain(d, agent, chain).writes| - |chain| <= k <= |UnlinkChain(d, agent, chain).writes|
    ensures Replay(d, UnlinkChain(d, agent, chain).writes[..k]).files == RestoreChain(d.files, chain)
  {
    MarkEach(chain);
    var part, bound := CutReaches(d, agent, chain, k);
    var rollback := RollbackWrites(d, agent, chain);
    assert rollback[..part] == rollback;
    RolledBackFiles(d, agent, chain);
  }

  // While marking, a second run is accepted exactly if the files as they were
  // before the first link are also what the newest manifests left.
  lemma RetryWhileMarking(d: Disk, agent: Agent, root: Option<string>, tip: Path, k: nat)
    requires LogShape(agent, d.manifests) && tip in d.manifests && UnlinkRun(d, agent, root, tip).ok
    requires |UnlinkRun(d, agent, root, tip).writes| - |Log(agent, d.manifests, tip)| <= k < |UnlinkRun(d, agent, root, tip).writes|
    ensures var chain, e := Log(agent, d.manifests, tip), CutAt(d, agent, root, tip, k);
            UnlinkRun(e, agent, root, tip).ok
            <==> Standing(RestoreChain(d.files, chain), chain) && BindingStands(Lookup(e.bindings, agent), chain)
  {
    RetryOutcome(d, agent, root, tip, k);
    UnlinksLatest(d, agent, root, tip);
    TipRun(d, agent, root, tip);
    MarkingFiles(d, agent, tip, k);
  }

  lemma ChangedRefuses(d: Disk, agent: Agent, root: Option<string>, tip: Path, k: nat, f: FileBackup)
    requires LogShape(agent, d.manifests) && tip in d.manifests && UnlinkRun(d, agent, root, tip).ok
    requires |UnlinkRun(d, agent, root, tip).writes| - |Log(agent, d.manifests, tip)| <= k < |UnlinkRun(d, agent, root, tip).writes|
    requires f in d.manifests[tip].files && !IsShardEntry(d.manifests[tip], f) && f.applied.Some?
    requires Lookup(RestoreChain(d.files, Log(agent, d.manifests, tip)), f.original) != f.applied
    ensures !UnlinkRun(CutAt(d, agent, root, tip, k), agent, root, tip).ok
  {
    RetryWhileMarking(d, agent, root, tip, k);
    var chain := Log(agent, d.manifests, tip);
    assert chain[0].manifest == d.manifests[tip] && Originals(chain[..0]) == {};
    assert !Stands(RestoreChain(d.files, chain), chain[0].manifest, f);
  }

  // ---- What a completed link leaves ----

  lemma {:induction false} FileAfterTasks(e: Disk, plan: Plan, m: Manifest, ts: seq<Task>, p: Path, c: Content)
    requires forall t :: t in ts && ImagePath(t) == Some(p) ==> Image(t).value.1 == c
    ensures Lookup(Replay(e, TasksWrites(plan, m, ts)).files, p)
         == if exists t :: t in ts && ImagePath(t) == Some(p) then Some(c) else Lookup(e.files, p)
    decreases |ts|
  {
    if ts != [] {
      var t, rest := ts[0], ts[1..];
      assert t in ts && forall x :: x in ts <==> x == t || x in rest;
      ReplayConcat(e, TaskWrites(plan, m, t), TasksWrites(plan, AfterTask(m, t), rest));
      FileAfterTask(e, plan, m, t);
      FileAfterTasks(Replay(e, TaskWrites(plan, m, t)), plan, AfterTask(m, t), rest, p, c);
    }
  }

  lemma FileAfterTask(e: Disk, plan: Plan, m: Manifest, t: Task)
    ensures Replay(e, TaskWrites(plan, m, t)).files == match Image(t) case Some((p, c)) => e.files[p := c] case None => e.files
  {
    if t.Strip? {
      ReplayOne(e, Action(plan, t));
    } else {
      var w := WriteManifest(ManifestAt(plan.stamp), AfterTask(m, t));
      assert TaskWrites(plan, m, t)[1..] == [w];
      ReplayOne(Step(e, Action(plan, t)), w);
    }
  }

  lemma FragmentTasks(d: Disk, plan: Plan)
    requires Tidy(plan)
    ensures forall t :: t in Tasks(d, plan) && ImagePath(t) == Some(FRAGMENT) ==> Image(t).value.1 == plan.fragment
    ensures Put(FRAGMENT, plan.fragment) in Tasks(d, plan)
  {
    var ts, lead := Tasks(d, plan), if plan.source.FromAgent? then 1 else 0;
    assert ts[lead + 1] == Put(FRAGMENT, plan.fragment) && Tracked(plan)[lead] == FRAGMENT;
    forall i | 0 <= i < |ts| && ImagePath(ts[i]) == Some(FRAGMENT) ensures Image(ts[i]).value.1 == plan.fragment {
      TaskAt(d, plan, i);
      assert Slot(d, plan, i) == lead;
    }
  }

  lemma FragmentAfterBody(d: Disk, plan: Plan)
    requires Tidy(plan)
    ensures Lookup(Replay(d, Opening(d, plan) + Body(d, plan)).files, FRAGMENT) == Some(plan.fragment)
  {
    FragmentTasks(d, plan);
    assert ImagePath(Put(FRAGMENT, plan.fragment)) == Some(FRAGMENT);
    FileAfterTasks(Replay(d, Opening(d, plan)), plan, FirstManifest(d, plan), Tasks(d, plan), FRAGMENT, plan.fragment);
    ReplayConcat(d, Opening(d, plan), Body(d, plan));
  }

  lemma FragmentWritten(d: Disk, plan: Plan)
    requires Planned(d, plan)
    ensures Lookup(Replay(d, ApplyRun(d, plan).writes).files, FRAGMENT) == Some(plan.fragment)
  {
    LinkCompletes(d, plan);
    TrackedPaths(d, plan);
    FragmentAfterBody(d, plan);
    LastWriteKeeps(d, Opening(d, plan) + Body(d, plan), WriteManifest(ManifestAt(plan.stamp), LastManifest(d, plan).(completed := true)));
  }

  lemma LastWriteKeeps(d: Disk, ws: seq<Write>, w: Write)
    requires w.WriteManifest?
    ensures Replay(d, ws + [w]).files == Replay(d, ws).files
  {
    ReplayConcat(d, ws, [w]);
    ReplayOne(Replay(d, ws), w);
  }

  lemma EntryWritten(d: Disk, plan: Plan, e: Disk, m: Manifest) returns (f: FileBackup)
    requires Tidy(plan) && FilesMid(d.files, plan, e.files, m.files, None)
    requires forall p :: p in Tracked(plan) ==> Checkpointed(m.files, p)
    requires Lookup(e.files, FRAGMENT) == Some(plan.fragment)
    ensures f in m.files && f.original == FRAGMENT && f.applied == Some(plan.fragment)
  {
    EntriesValid(d, plan, e, m);
    assert Tracked(plan)[if plan.source.FromAgent? then 1 else 0] == FRAGMENT;
    f :| f in m.files && f.original == FRAGMENT;
  }

  lemma FragmentEntry(d: Disk, plan: Plan) returns (f: FileBackup)
    requires Planned(d, plan)
    ensures var e := Replay(d, ApplyRun(d, plan).writes);
            && ManifestAt(plan.stamp) in e.manifests && f in e.manifests[ManifestAt(plan.stamp)].files
            && !IsShardEntry(e.manifests[ManifestAt(plan.stamp)], f)
            && f.original == FRAGMENT && f.applied == Some(plan.fragment)
  {
    LinkCompletes(d, plan);
    CompleteReached(d, plan);
    AllCheckpointed(d, plan);
    FragmentWritten(d, plan);
    f := CompletedEntry(d, plan, Replay(d, ApplyRun(d, plan).writes), LastManifest(d, plan).(completed := true));
  }

  lemma CompletedEntry(d: Disk, plan: Plan, e: Disk, m: Manifest) returns (f: FileBackup)
    requires Tidy(plan) && Mid(d, plan, e, m, None) && Lookup(e.files, FRAGMENT) == Some(plan.fragment)
    requires forall p :: p in Tracked(plan) ==> Checkpointed(m.files, p)
    ensures ManifestAt(plan.stamp) in e.manifests && e.manifests[ManifestAt(plan.stamp)] == m
    ensures f in m.files && !IsShardEntry(m, f) && f.original == FRAGMENT && f.applied == Some(plan.fragment)
  {
    HeaderOf(d, plan, m);
    f := EntryWritten(d, plan, e, m);
  }

  lemma UndoableRefuses(base: Disk, d: Disk, agent: Agent, h: Home, root: Option<string>, tip: Path, k: nat, f: FileBackup)
    requires Undoable(base, d, agent, h, Some(tip)) && UnlinkRun(d, agent, root, tip).ok
    requires f in d.manifests[tip].files && !IsShardEntry(d.manifests[tip], f) && f.original == FRAGMENT && f.applied.Some?
    requires Lookup(base.files, FRAGMENT) != f.applied
    requires |UnlinkRun(d, agent, root, tip).writes| - |Log(agent, d.manifests, tip)| < k < |UnlinkRun(d, agent, root, tip).writes|
    ensures !UnlinkRun(CutAt(d, agent, root, tip, k), agent, root, tip).ok
    ensures IsLatest(CutAt(d, agent, root, tip, k).manifests, tip)
  {
    ChangedRefuses(d, agent, root, tip, k, f);
    TipRun(d, agent, root, tip);
    var bound := CutMeets(d, agent, tip, k);
  }

  // After any completed links and syncs the newest of which left another
  // fragment than there was before the first: the unlink succeeds, but cut
  // between two of its marks it is refused from then on, while the newest
  // manifest is still active.
  lemma RetryRefused(base: Disk, agent: Agent, plans: seq<Plan>, plan: Plan, root: Option<string>, k: nat)
    requires LogShape(agent, base.manifests) && NoneActive(base.manifests)
    requires MovesCredentials(agent) ==> ShardOwned(base.files)
    requires plan.agent == agent && Links(base, agent, plan.home, plans) && Planned(AfterLinks(base, plans), plan)
    requires Lookup(base.files, FRAGMENT) != Some(plan.fragment)
    ensures var d := Replay(AfterLinks(base, plans), ApplyRun(AfterLinks(base, plans), plan).writes);
            var tip, run := ManifestAt(plan.stamp), UnlinkRun(d, agent, root, ManifestAt(plan.stamp));
            && LogShape(agent, d.manifests) && tip in d.manifests && run.ok
            && (|run.writes| - |Log(agent, d.manifests, tip)| < k < |run.writes| ==>
                  var e := CutAt(d, agent, root, tip, k);
                  !UnlinkRun(e, agent, root, tip).ok && IsLatest(e.manifests, tip))
  {
    var before := AfterLinks(base, plans);
    var d := Replay(before, ApplyRun(before, plan).writes);
    var tip := ManifestAt(plan.stamp);
    CompleteUndoes(base, agent, plans, plan, root);
    var f := FragmentEntry(before, plan);
    var run := UnlinkRun(d, agent, root, tip);
    assert Undoable(base, d, agent, plan.home, Some(tip));
    if |run.writes| - |Log(agent, d.manifests, tip)| < k < |run.writes| {
      UndoableRefuses(base, d, agent, plan.home, root, tip, k, f);
    }
  }

  lemma CompleteUndoes(base: Disk, agent: Agent, plans: seq<Plan>, plan: Plan, root: Option<string>)
    requires LogShape(agent, base.manifests) && NoneActive(base.manifests)
    requires MovesCredentials(agent) ==> ShardOwned(base.files)
    requires plan.agent == agent && Links(base, agent, plan.home, plans) && Planned(AfterLinks(base, plans), plan)
    ensures var before := AfterLinks(base, plans);
            var d, tip := Replay(before, ApplyRun(before, plan).writes), ManifestAt(plan.stamp);
            && Linkable(before, plan) && UnlinkRun(d, agent, root, tip).ok
            && Undoable(base, d, agent, plan.home, Some(tip))
  {
    var before := AfterLinks(base, plans);
    NothingLinked(base, agent, plan.home);
    var latest := LinksKeepUndoable(base, base, agent, plan.home, None, plans);
    PlannedNext(base, before, agent, plan.home, latest, plan);
    OneLink(base, before, plan.home, latest, plan);
    WholeRun(base, before, plan, root);
  }

  lemma WholeRun(base: Disk, d: Disk, plan: Plan, root: Option<string>)
    requires Undoable(base, d, plan.agent, plan.home, plan.previous) && Planned(d, plan)
    ensures UnlinkRun(Replay(d, ApplyRun(d, plan).writes), plan.agent, root, ManifestAt(plan.stamp)).ok
  {
    LinkCompletes(d, plan);
    var ws := ApplyRun(d, plan).writes;
    assert ws[..|ws|] == ws;
    UndoCut(base, d, plan, |ws|, root);
  }

  // ---- Two links of the main accounts ----

  function Empty(): Disk {
    Disk(map[], map[], map[], map[], map[])
  }

  function MainLink(stamp: nat, previous: Option<Path>, text: string): Plan {
    Plan(OPENCODE, stamp, previous, FromMain, 0, [], {}, [], Text(text), [], Binding(FromMain, text))
  }

  function LinkedOnce(): Disk {
    Replay(Empty(), ApplyRun(Empty(), MainLink(1, None, "f1")).writes)
  }

  function LinkedTwice(): Disk {
    Replay(LinkedOnce(), ApplyRun(LinkedOnce(), MainLink(2, Some(ManifestAt(1)), "f2")).writes)
  }

  lemma OncePlanned()
    ensures Linkable(Empty(), MainLink(1, None, "f1")) && NoneActive(Empty().manifests)
  {
  }

  // What the first link leaves, as far as the second one reads it.
  ghost predicate MainLinked(d: Disk, m: Manifest) {
    && SHARD !in d.files && d.manifests == map[ManifestAt(1) := m]
    && SourceOf(m) == FromMain && m.agent == OPENCODE && m.completed && m.previous == None && !m.unlinked
    && exists e :: e in m.files && e.original == FRAGMENT
  }

  lemma OnceLinked() returns (m: Manifest)
    ensures MainLinked(LinkedOnce(), m)
  {
    var plan := MainLink(1, None, "f1");
    OncePlanned();
    LinkCompletes(Empty(), plan);
    CompleteReached(Empty(), plan);
    m := LastManifest(Empty(), plan).(completed := true);
    OnceMid(LinkedOnce(), m);
  }

  lemma OnceMid(e: Disk, m: Manifest)
    requires Tidy(MainLink(1, None, "f1")) && Mid(Empty(), MainLink(1, None, "f1"), e, m, None) && m.completed
    ensures MainLinked(e, m)
  {
    var plan := MainLink(1, None, "f1");
    MidNames(Empty(), plan, e, m, None);
    assert Tracked(plan) == [FRAGMENT];
    assert m.files[0] in m.files;
    assert Lookup(e.files, SHARD) == Lookup(Empty().files, SHARD);
  }

  lemma TwicePlanned(d: Disk, m: Manifest)
    requires MainLinked(d, m) && LogShape(OPENCODE, d.manifests)
    ensures Planned(d, MainLink(2, Some(ManifestAt(1)), "f2")) && |Log(OPENCODE, d.manifests, ManifestAt(1))| == 1
  {
    LogIsChain(OPENCODE, d.manifests, None, ManifestAt(1));
    assert Log(OPENCODE, d.manifests, ManifestAt(1)) == [Link(ManifestAt(1), m)];
    assert IsLatest(d.manifests, ManifestAt(1));
  }

  lemma TwoLinks(d: Disk, plan: Plan)
    requires Linkable(d, plan) && plan.previous.Some? && |PriorOf(d, plan)| == 1
    ensures var e := Replay(d, ApplyRun(d, plan).writes);
            LogShape(plan.agent, e.manifests) && ManifestAt(plan.stamp) in e.manifests
            && |Log(plan.agent, e.manifests, ManifestAt(plan.stamp))| == 2
  {
    LinkCompletes(d, plan);
    CompleteReached(d, plan);
    CutLog(d, plan, Replay(d, ApplyRun(d, plan).writes), LastManifest(d, plan).(completed := true), None, None);
  }

  lemma OnceKept()
    ensures LogShape(OPENCODE, LinkedOnce().manifests)
  {
    var plan := MainLink(1, None, "f1");
    OncePlanned();
    LinkCompletes(Empty(), plan);
    CompleteReached(Empty(), plan);
    CutLog(Empty(), plan, LinkedOnce(), LastManifest(Empty(), plan).(completed := true), None, None);
  }

  // `tip` was unlinked up to its own mark, is still active, and refuses.
  ghost predicate StuckAtLastMark(d: Disk, agent: Agent, root: Option<string>, tip: Path) {
    var run := UnlinkRun(d, agent, root, tip);
    && run.ok && run.writes != []
    && var e := CutAt(d, agent, root, tip, |run.writes| - 1);
      IsLatest(e.manifests, tip) && !UnlinkRun(e, agent, root, tip).ok
  }

  lemma StuckWhenUndoable(base: Disk, d: Disk, agent: Agent, h: Home, root: Option<string>, tip: Path, f: FileBackup)
    requires Undoable(base, d, agent, h, Some(tip)) && UnlinkRun(d, agent, root, tip).ok && |Log(agent, d.manifests, tip)| == 2
    requires f in d.manifests[tip].files && !IsShardEntry(d.manifests[tip], f) && f.original == FRAGMENT && f.applied.Some?
    requires Lookup(base.files, FRAGMENT) != f.applied
    ensures StuckAtLastMark(d, agent, root, tip)
  {
    MarksWritten(d, agent, root, tip);
    UndoableRefuses(base, d, agent, h, root, tip, |UnlinkRun(d, agent, root, tip).writes| - 1, f);
  }

  lemma LastMarkFails(base: Disk, d: Disk, plan: Plan, root: Option<string>)
    requires Undoable(base, d, plan.agent, plan.home, plan.previous) && Planned(d, plan)
    requires Lookup(base.files, FRAGMENT) != Some(plan.fragment) && |PriorOf(d, plan)| == 1
    ensures StuckAtLastMark(Replay(d, ApplyRun(d, plan).writes), plan.agent, root, ManifestAt(plan.stamp))
  {
    TwoLinks(d, plan);
    OneLink(base, d, plan.home, plan.previous, plan);
    WholeRun(base, d, plan, root);
    var f := FragmentEntry(d, plan);
    StuckWhenUndoable(base, Replay(d, ApplyRun(d, plan).writes), plan.agent, plan.home, root, ManifestAt(plan.stamp), f);
  }

  lemma MarksWritten(d: Disk, agent: Agent, root: Option<string>, tip: Path)
    requires LogShape(agent, d.manifests) && UnlinkRun(d, agent, root, tip).ok
    ensures UnlinkRun(d, agent, root, tip).writes != []
  {
    UnlinksLatest(d, agent, root, tip);
    TipRun(d, agent, root, tip);
    MarkEach(Log(agent, d.manifests, tip));
  }

  // Linked, synced, and unlinked up to the last mark: the unlink is refused
  // from then on, though nothing but that mark is missing.
  lemma FailedMarkIsFinal()
    ensures StuckAtLastMark(LinkedTwice(), OPENCODE, None, ManifestAt(2))
  {
    var m := OnceLinked();
    OnceKept();
    TwicePlanned(LinkedOnce(), m);
    OncePlanned();
    NothingLinked(Empty(), OPENCODE, 0);
    OneLink(Empty(), Empty(), 0, None, MainLink(1, None, "f1"));
    LastMarkFails(Empty(), LinkedOnce(), MainLink(2, Some(ManifestAt(1)), "f2"), None);
  }
}
