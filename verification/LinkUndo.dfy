// What unlink does to a link or sync that was cut anywhere.
module LinkUndo {
  import opened Wrappers
  import opened MigrationDisk
  import opened ManifestChain
  import opened ManifestLog
  import opened FileRollback
  import opened BindingRollback
  import opened CredentialHandoff
  import opened Unlink
  import opened Reconcile
  import opened ReconcileCuts

  // ---- Rolling back the entries of a cut run ----

  // Entries name distinct ordinary files, each with its own fresh backup.
  ghost predicate OwnBackups(entries: seq<FileBackup>, stamp: nat) {
    && (forall i :: 0 <= i < |entries| ==> OwnBackup(entries[i], stamp))
    && (forall i, j :: 0 <= i < j < |entries| ==> entries[i].original != entries[j].original)
  }

  lemma {:induction false} RestoreEntriesAt(gs: Files, entries: seq<FileBackup>, stamp: nat)
    requires OwnBackups(entries, stamp)
    requires forall i :: 0 <= i < |entries| ==> BackupReadable(entries[i], gs)
    ensures forall i :: 0 <= i < |entries| ==>
              Lookup(RestoreEntries(gs, entries), entries[i].original)
              == (if entries[i].created then None else Lookup(gs, BackupOf(entries[i].original, stamp)))
    ensures forall p :: (forall i :: 0 <= i < |entries| ==> entries[i].original != p) ==>
              Lookup(RestoreEntries(gs, entries), p) == Lookup(gs, p)
  {
    if entries != [] {
      var rest := entries[1..];
      RestoreEntriesAt(gs, rest, stamp);
      assert forall i :: 1 <= i < |entries| ==> entries[i] == rest[i - 1];
      var e, fs := entries[0], RestoreEntries(gs, rest);
      if e.backup.Some? {
        assert Lookup(fs, e.backup.value) == Lookup(gs, e.backup.value);
      }
      forall p | forall i :: 0 <= i < |entries| ==> entries[i].original != p
        ensures Lookup(RestoreEntries(gs, entries), p) == Lookup(gs, p) {
        assert e.original != p;
        assert forall i :: 0 <= i < |rest| ==> rest[i].original != p;
      }
    }
  }

  lemma MidEntries(fs: Files, plan: Plan, gs: Files, files: seq<FileBackup>, dirty: Option<Path>)
    requires Tidy(plan) && FilesMid(fs, plan, gs, files, dirty)
    ensures OwnBackups(files, plan.stamp)
    ensures forall i :: 0 <= i < |files| ==> files[i].original == Tracked(plan)[i] && BackupReadable(files[i], gs)
    ensures forall i :: 0 <= i < |files| ==> files[i].existed == (Tracked(plan)[i] in fs)
  {
    forall i | 0 <= i < |files|
      ensures files[i].original == Tracked(plan)[i] && BackupReadable(files[i], gs)
      ensures files[i].existed == (Tracked(plan)[i] in fs)
      ensures files[i].created <==> files[i].backup.None?
      ensures files[i].backup.Some? ==> files[i].backup.value == BackupOf(files[i].original, plan.stamp)
    {
      assert SameEntry(files[i], Entry(fs, Tracked(plan)[i], plan.stamp));
    }
  }

  // Equal everywhere except in the backups of one run.
  ghost predicate AgreeOff(fs: Files, gs: Files, stamp: nat) {
    forall p :: !FreshBackup(p, stamp) ==> Lookup(fs, p) == Lookup(gs, p)
  }

  // Wherever the run was cut, restoring its entries gives the disk before it.
  lemma MidRestores(fs: Files, plan: Plan, gs: Files, files: seq<FileBackup>, dirty: Option<Path>)
    requires Tidy(plan) && FilesMid(fs, plan, gs, files, dirty)
    ensures AgreeOff(RestoreEntries(gs, files), fs, plan.stamp)
  {
    MidEntries(fs, plan, gs, files, dirty);
    RestoreEntriesAt(gs, files, plan.stamp);
    forall p | !FreshBackup(p, plan.stamp) ensures Lookup(RestoreEntries(gs, files), p) == Lookup(fs, p) {
      if p in Tracked(plan) {
        var i :| 0 <= i < |files| && Tracked(plan)[i] == p;
        assert SameEntry(files[i], Entry(fs, p, plan.stamp));
      } else {
        assert forall i :: 0 <= i < |files| ==> files[i].original != p;
      }
    }
  }

  // Preflight accepts the entries of a cut run unless the cut fell between a
  // write that changed a file and its checkpoint (the shard excepted).
  predicate OpenGap(fs: Files, gs: Files, dirty: Option<Path>, shard: Option<Path>) {
    dirty.Some? && dirty != shard && Lookup(gs, dirty.value) != Lookup(fs, dirty.value)
  }

  lemma MidAccepted(fs: Files, plan: Plan, gs: Files, m: Manifest, dirty: Option<Path>)
    requires Tidy(plan) && FilesMid(fs, plan, gs, m.files, dirty) && m.version == CURRENT_VERSION
    ensures Restored(m, gs) <==> !OpenGap(fs, gs, dirty, m.shard)
  {
    MidEntries(fs, plan, gs, m.files, dirty);
    forall i | 0 <= i < |m.files|
      ensures EntryMatches(m.version, m.files[i], Lookup(gs, m.files[i].original), gs)
          <==> (dirty == Some(m.files[i].original) ==> Lookup(gs, dirty.value) == Lookup(fs, dirty.value))
    {
      EntryAccepted(fs, plan, gs, m.files[i], i, dirty);
    }
    if dirty.Some? {
      var i :| 0 <= i < |m.files| && Tracked(plan)[i] == dirty.value;
      assert m.files[i] in m.files;
    }
  }

  lemma EntryAccepted(fs: Files, plan: Plan, gs: Files, e: FileBackup, i: nat, dirty: Option<Path>)
    requires i < |Tracked(plan)| && SameEntry(e, Entry(fs, Tracked(plan)[i], plan.stamp)) && EntryState(fs, gs, e, dirty)
    requires Tracked(plan)[i] in fs ==> Lookup(gs, BackupOf(Tracked(plan)[i], plan.stamp)) == Lookup(fs, Tracked(plan)[i])
    requires dirty == Some(e.original) ==> e.original in gs
    ensures EntryMatches(CURRENT_VERSION, e, Lookup(gs, e.original), gs)
        <==> (dirty == Some(e.original) ==> Lookup(gs, e.original) == Lookup(fs, e.original))
  {
  }

  // ---- Older manifests do not see the backups of a newer run ----

  ghost predicate OlderThan(chain: seq<Link>, stamp: nat) {
    forall l, e :: l in chain && e in l.manifest.files ==>
      e.original.File? && (e.backup.Some? ==> e.backup.value.BackupOf? && e.backup.value.stamp < stamp)
  }

  lemma {:induction false} RestoreAgrees(fs: Files, gs: Files, entries: seq<FileBackup>, stamp: nat)
    requires AgreeOff(fs, gs, stamp)
    requires forall e :: e in entries ==> e.original.File? && (e.backup.Some? ==> e.backup.value.BackupOf? && e.backup.value.stamp < stamp)
    ensures AgreeOff(RestoreEntries(fs, entries), RestoreEntries(gs, entries), stamp)
  {
    if entries != [] {
      assert forall e :: e in entries[1..] ==> e in entries;
      RestoreAgrees(fs, gs, entries[1..], stamp);
      var e := entries[0];
      assert e in entries;
      if e.backup.Some? {
        assert !FreshBackup(e.backup.value, stamp);
      }
    }
  }

  lemma RestoredAgrees(m: Manifest, fs: Files, gs: Files, stamp: nat)
    requires AgreeOff(fs, gs, stamp)
    requires forall e :: e in m.files ==> e.original.File? && (e.backup.Some? ==> e.backup.value.BackupOf? && e.backup.value.stamp < stamp)
    ensures Restored(m, fs) <==> Restored(m, gs)
  {
    forall e | e in m.files
      ensures Lookup(fs, e.original) == Lookup(gs, e.original)
      ensures e.backup.Some? ==> Lookup(fs, e.backup.value) == Lookup(gs, e.backup.value) {
      assert !FreshBackup(e.original, stamp);
    }
  }

  lemma {:induction false} ChainAgrees(fs: Files, gs: Files, chain: seq<Link>, stamp: nat)
    requires AgreeOff(fs, gs, stamp) && OlderThan(chain, stamp)
    ensures RollbackIsSafe(fs, chain) <==> RollbackIsSafe(gs, chain)
    ensures AgreeOff(RestoreChain(fs, chain), RestoreChain(gs, chain), stamp)
    decreases |chain|
  {
    if chain != [] {
      assert chain[0] in chain && forall l :: l in chain[1..] ==> l in chain;
      RestoredAgrees(chain[0].manifest, fs, gs, stamp);
      RestoreAgrees(fs, gs, chain[0].manifest.files, stamp);
      ChainAgrees(RestoreEntries(fs, chain[0].manifest.files), RestoreEntries(gs, chain[0].manifest.files), chain[1..], stamp);
    }
  }

  // ---- The log with one more manifest ----

  // The chain a new link continues; empty if nothing is linked.
  function Prior(agent: Agent, ms: map<Path, Manifest>, previous: Option<Path>): seq<Link>
    requires LogShape(agent, ms) && (previous.Some? ==> previous.value in ms)
  {
    match previous case None => [] case Some(p) => Log(agent, ms, p)
  }

  lemma {:induction false} LogOlder(agent: Agent, ms: map<Path, Manifest>, p: Path, stamp: nat)
    requires LogShape(agent, ms) && p in ms && p.stamp < stamp
    ensures OlderThan(Log(agent, ms, p), stamp)
  {
    LogEntries(agent, ms, p);
    forall l, e | l in Log(agent, ms, p) && e in l.manifest.files
      ensures e.original.File? && (e.backup.Some? ==> e.backup.value.BackupOf? && e.backup.value.stamp < stamp) {
      assert Written(agent, l.path, ms[l.path]);
    }
  }

  lemma {:induction false} LogKept(agent: Agent, ms: map<Path, Manifest>, more: map<Path, Manifest>, p: Path)
    requires LogShape(agent, ms) && LogShape(agent, more) && p in ms
    requires forall q :: q in ms && q.ManifestAt? && q.stamp <= p.stamp ==> q in more && more[q] == ms[q]
    ensures Log(agent, more, p) == Log(agent, ms, p)
    decreases p.stamp
  {
    assert Written(agent, p, ms[p]);
    match ms[p].previous
    case None =>
    case Some(q) => LogKept(agent, ms, more, q);
  }

  lemma NewManifestWritten(d: Disk, plan: Plan, m: Manifest)
    requires Tidy(plan) && (plan.previous.Some? ==> plan.previous.value.ManifestAt?)
    requires m.version == CURRENT_VERSION && m.agent == plan.agent && m.previous == plan.previous
    requires (m.shard.Some? ==> m.shard.value == SHARD) && forall p :: p in m.paths ==> Absolute(p)
    requires (m.home.None? ==> m.handoff) && (m.home.Some? ==> m.routes != [])
    requires OwnBackups(m.files, plan.stamp) && (m.shard.None? ==> m.imported == [])
    ensures Written(plan.agent, ManifestAt(plan.stamp), m)
  {
    forall p | p in RestorePaths(m) ensures Absolute(p) {
      if p in BackupPaths(m.files) {
        BackupPathOf(m.files, p);
      } else if p in seq(|m.files|, i requires 0 <= i < |m.files| => m.files[i].original) {
        var i :| 0 <= i < |m.files| && m.files[i].original == p;
      }
    }
  }

  lemma {:induction false} BackupPathOf(files: seq<FileBackup>, p: Path)
    requires p in BackupPaths(files)
    ensures exists i :: 0 <= i < |files| && files[i].backup == Some(p)
  {
    if files[0].backup == Some(p) {
    } else {
      BackupPathOf(files[1..], p);
      var i :| 0 <= i < |files[1..]| && files[1..][i].backup == Some(p);
      assert files[i + 1].backup == Some(p);
    }
  }

  lemma BackExtended(ms: map<Path, Manifest>, n: Path, m: Manifest)
    requires LeadsBack(ms) && n.ManifestAt? && LatestIs(ms, m.previous)
    requires forall p :: p in ms ==> p.ManifestAt? && p.stamp < n.stamp
    ensures LeadsBack(ms[n := m])
  {
  }

  lemma OrderExtended(ms: map<Path, Manifest>, n: Path, m: Manifest)
    requires ActiveOrder(ms) && !m.unlinked && n.ManifestAt?
    requires forall p :: p in ms ==> p.ManifestAt? && p.stamp < n.stamp
    requires LatestIs(ms, m.previous)
    ensures ActiveOrder(ms[n := m]) && IsLatest(ms[n := m], n)
  {
    var more := ms[n := m];
    forall p ensures Active(more, p) <==> p == n || Active(ms, p) {
    }
    forall p, q | Active(more, p) && Active(more, q) && q.stamp < p.stamp
      ensures more[p].previous.Some? && more[p].previous.value.ManifestAt? && q.stamp <= more[p].previous.value.stamp {
      assert q != n;
      if p == n {
        assert Active(ms, q);
      }
    }
  }

  // A new manifest with the highest name extends the log by one link.
  lemma LogExtended(agent: Agent, ms: map<Path, Manifest>, n: Path, m: Manifest)
    requires LogShape(agent, ms) && Written(agent, n, m) && !m.unlinked
    requires forall p :: p in ms ==> p.stamp < n.stamp
    requires LatestIs(ms, m.previous)
    ensures LogShape(agent, ms[n := m]) && IsLatest(ms[n := m], n)
    ensures Log(agent, ms[n := m], n) == [Link(n, m)] + Prior(agent, ms, m.previous)
  {
    forall p | p in ms ensures p.ManifestAt? {
      assert Written(agent, p, ms[p]);
    }
    OrderExtended(ms, n, m);
    BackExtended(ms, n, m);
    if m.previous.Some? {
      LogKept(agent, ms, ms[n := m], m.previous.value);
    }
  }
}
