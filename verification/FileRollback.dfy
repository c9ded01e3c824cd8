// Rolling tracked files back, and the preflight that simulates the rollback
// of a whole chain before anything is changed.
module FileRollback {
  import opened Wrappers
  import opened MigrationDisk

  type Files = map<Path, Content>

  // ---- The rollback itself ----

  function RestoreEntry(fs: Files, e: FileBackup): Files {
    if e.created then fs - {e.original}
    else match e.backup
      case None => fs
      case Some(b) => if b in fs then fs[e.original := fs[b]] else fs
  }

  // Entries are restored in reverse order.
  function RestoreEntries(fs: Files, entries: seq<FileBackup>): Files {
    if entries == [] then fs else RestoreEntry(RestoreEntries(fs, entries[1..]), entries[0])
  }

  function RestoreChain(fs: Files, chain: seq<Link>): Files
    decreases |chain|
  {
    if chain == [] then fs else RestoreChain(RestoreEntries(fs, chain[0].manifest.files), chain[1..])
  }

  function EntryWrites(e: FileBackup): seq<Write> {
    if e.created then [RemoveFile(e.original)]
    else match e.backup case None => [] case Some(b) => [CopyFile(b, e.original)]
  }

  function EntriesWrites(entries: seq<FileBackup>): seq<Write> {
    if entries == [] then [] else EntriesWrites(entries[1..]) + EntryWrites(entries[0])
  }

  function ChainWrites(chain: seq<Link>): seq<Write> {
    if chain == [] then [] else EntriesWrites(chain[0].manifest.files) + ChainWrites(chain[1..])
  }

  lemma {:induction false} ReplayEntries(d: Disk, entries: seq<FileBackup>)
    ensures Replay(d, EntriesWrites(entries)) == d.(files := RestoreEntries(d.files, entries))
  {
    if entries != [] {
      var w := EntryWrites(entries[0]);
      ReplayEntries(d, entries[1..]);
      ReplayConcat(d, EntriesWrites(entries[1..]), w);
      if |w| == 1 {
        ReplayOne(Replay(d, EntriesWrites(entries[1..])), w[0]);
      }
    }
  }

  lemma {:induction false} ReplayChain(d: Disk, chain: seq<Link>)
    ensures Replay(d, ChainWrites(chain)) == d.(files := RestoreChain(d.files, chain))
    decreases |chain|
  {
    if chain != [] {
      ReplayEntries(d, chain[0].manifest.files);
      ReplayConcat(d, EntriesWrites(chain[0].manifest.files), ChainWrites(chain[1..]));
      ReplayChain(d.(files := RestoreEntries(d.files, chain[0].manifest.files)), chain[1..]);
    }
  }

  // ---- What preflight must establish ----

  // A tracked file that was never checkpointed must still be its pre-image.
  predicate MatchesPreimage(e: FileBackup, state: Option<Content>, fs: Files) {
    match state
    case None => e.created || !e.existed
    case Some(c) => e.backup.Some? && e.backup.value in fs && fs[e.backup.value] == c
  }

  predicate EntryMatches(version: nat, e: FileBackup, state: Option<Content>, fs: Files) {
    match e.applied
    case Some(image) => state == Some(image)
    case None => version < CURRENT_VERSION || MatchesPreimage(e, state, fs)
  }

  predicate IsShardEntry(m: Manifest, e: FileBackup) {
    m.shard == Some(e.original)
  }

  predicate BackupReadable(e: FileBackup, fs: Files) {
    !e.created && e.backup.Some? ==> e.backup.value in fs
  }

  // The files of manifest `m` on disk are the images the link or sync left
  // there (the shard excepted), and its backups can be read.
  predicate Restored(m: Manifest, fs: Files) {
    forall e :: e in m.files ==>
      (IsShardEntry(m, e) || EntryMatches(m.version, e, Lookup(fs, e.original), fs)) && BackupReadable(e, fs)
  }

  // The same, for every manifest of the chain, each judged on the disk that
  // the real rollback of its successors leaves behind.
  predicate RollbackIsSafe(fs: Files, chain: seq<Link>)
    decreases |chain|
  {
    chain != [] ==> Restored(chain[0].manifest, fs) && RollbackIsSafe(RestoreEntries(fs, chain[0].manifest.files), chain[1..])
  }

  // Said manifest by manifest: when the rollback reaches the k-th one, its
  // files are its recorded images, so nothing newer is overwritten.
  lemma {:induction false} SafeAtEveryManifest(fs: Files, chain: seq<Link>)
    ensures RollbackIsSafe(fs, chain)
       <==> forall k :: 0 <= k < |chain| ==> Restored(chain[k].manifest, RestoreChain(fs, chain[..k]))
    decreases |chain|
  {
    if chain != [] {
      var gs := RestoreEntries(fs, chain[0].manifest.files);
      SafeAtEveryManifest(gs, chain[1..]);
      forall k | 0 <= k < |chain| - 1 ensures RestoreChain(fs, chain[..k + 1]) == RestoreChain(gs, chain[1..][..k]) {
        assert chain[..k + 1][1..] == chain[1..][..k];
      }
      assert RestoreChain(fs, chain[..0]) == fs;
      forall k | 0 <= k < |chain|
        ensures Restored(chain[k].manifest, RestoreChain(fs, chain[..k]))
           <==> if k == 0 then Restored(chain[0].manifest, fs) else Restored(chain[1..][k - 1].manifest, RestoreChain(gs, chain[1..][..k - 1])) {
        assert k > 0 ==> chain[..k - 1 + 1] == chain[..k];
      }
      if forall k :: 0 <= k < |chain| ==> Restored(chain[k].manifest, RestoreChain(fs, chain[..k])) {
        forall k | 0 <= k < |chain[1..]| ensures Restored(chain[1..][k].manifest, RestoreChain(gs, chain[1..][..k])) {
          assert Restored(chain[k + 1].manifest, RestoreChain(fs, chain[..k + 1]));
        }
        assert Restored(chain[0].manifest, RestoreChain(fs, chain[..0]));
      }
    }
  }

  // Adjacent backup copies are not themselves tracked files.
  ghost predicate BackupsApart(chain: seq<Link>) {
    forall l, e, k, f :: l in chain && e in l.manifest.files && k in chain && f in k.manifest.files && e.backup.Some? ==>
      e.backup.value != f.original
  }

  // ---- The simulation ----

  type Simulated = map<Path, Option<Content>>

  function StateIn(sim: Simulated, fs: Files, p: Path): Option<Content> {
    if p in sim then sim[p] else Lookup(fs, p)
  }

  function SimulateEntry(sim: Simulated, fs: Files, e: FileBackup): Simulated {
    if e.created then sim[e.original := None]
    else match e.backup
      case None => sim
      case Some(b) => if b in fs then sim[e.original := Some(fs[b])] else sim
  }

  function SimulateEntries(sim: Simulated, fs: Files, entries: seq<FileBackup>): Simulated {
    if entries == [] then sim else SimulateEntry(SimulateEntries(sim, fs, entries[1..]), fs, entries[0])
  }

  // `sim` on top of the untouched disk `fs` is the disk `disk`.
  ghost predicate Simulates(sim: Simulated, fs: Files, disk: Files) {
    forall p :: StateIn(sim, fs, p) == Lookup(disk, p)
  }

  ghost predicate BackupsKept(entries: seq<FileBackup>, fs: Files, disk: Files) {
    forall e :: e in entries && e.backup.Some? ==> Lookup(disk, e.backup.value) == Lookup(fs, e.backup.value)
  }

  lemma {:induction false} SimulationTracks(sim: Simulated, fs: Files, disk: Files, entries: seq<FileBackup>)
    requires Simulates(sim, fs, disk)
    requires BackupsKept(entries, fs, disk)
    requires forall e, f :: e in entries && f in entries && e.backup.Some? ==> e.backup.value != f.original
    ensures Simulates(SimulateEntries(sim, fs, entries), fs, RestoreEntries(disk, entries))
    ensures forall p :: (forall e :: e in entries ==> e.original != p) ==> Lookup(RestoreEntries(disk, entries), p) == Lookup(disk, p)
  {
    if entries != [] {
      var e, rest := entries[0], entries[1..];
      assert forall f :: f in rest ==> f in entries;
      SimulationTracks(sim, fs, disk, rest);
      assert e in entries;
      var sim1, disk1 := SimulateEntries(sim, fs, rest), RestoreEntries(disk, rest);
      assert e.backup.Some? ==> Lookup(disk1, e.backup.value) == Lookup(fs, e.backup.value);
      forall p ensures StateIn(SimulateEntry(sim1, fs, e), fs, p) == Lookup(RestoreEntry(disk1, e), p) {
        assert StateIn(sim1, fs, p) == Lookup(disk1, p);
      }
    }
  }

  // Checks the entries of one manifest against the simulated state, reading
  // a file from disk the first time it is seen.
  method CheckEntries(m: Manifest, sim: Simulated, fs: Files, ghost disk: Files) returns (ok: bool, captured: Simulated)
    requires Simulates(sim, fs, disk)
    requires BackupsKept(m.files, fs, disk)
    ensures ok <==> forall e :: e in m.files ==> IsShardEntry(m, e) || EntryMatches(m.version, e, Lookup(disk, e.original), disk)
    ensures Simulates(captured, fs, disk)
  {
    captured := sim;
    for i := 0 to |m.files|
      invariant Simulates(captured, fs, disk)
      invariant forall e :: e in m.files[..i] ==> IsShardEntry(m, e) || EntryMatches(m.version, e, Lookup(disk, e.original), disk)
    {
      var e := m.files[i];
      assert e in m.files;
      if m.shard == Some(e.original) {
        continue;
      }
      if e.original !in captured {
        captured := captured[e.original := Lookup(fs, e.original)];
      }
      if !EntryMatches(m.version, e, captured[e.original], fs) {
        assert StateIn(captured, fs, e.original) == Lookup(disk, e.original);
        return false, captured;
      }
      assert StateIn(captured, fs, e.original) == Lookup(disk, e.original);
    }
    assert m.files[..|m.files|] == m.files;
    ok := true;
  }

  // Applies the simulated restore of one manifest, last entry first.
  method SimulateManifest(m: Manifest, sim: Simulated, fs: Files) returns (ok: bool, after: Simulated)
    ensures ok <==> forall e :: e in m.files ==> BackupReadable(e, fs)
    ensures ok ==> after == SimulateEntries(sim, fs, m.files)
  {
    after := sim;
    var i := |m.files|;
    while i > 0
      invariant 0 <= i <= |m.files|
      invariant forall e :: e in m.files[i..] ==> BackupReadable(e, fs)
      invariant after == SimulateEntries(sim, fs, m.files[i..])
    {
      i := i - 1;
      var e := m.files[i];
      assert m.files[i..] == [e] + m.files[i + 1..];
      if e.created {
        after := after[e.original := None];
      } else if e.backup.Some? {
        if e.backup.value !in fs {
          assert e in m.files && !BackupReadable(e, fs);
          return false, after;
        }
        after := after[e.original := Some(fs[e.backup.value])];
      }
    }
    assert m.files[0..] == m.files;
    ok := true;
  }

  // Preflight accepts exactly when the real rollback would be safe: at every
  // manifest of the chain, the disk that rollback will find there carries the
  // recorded images.
  method Preflight(fs: Files, chain: seq<Link>) returns (ok: bool)
    requires BackupsApart(chain)
    ensures ok <==> RollbackIsSafe(fs, chain)
  {
    var sim: Simulated := map[];
    ghost var disk := fs;
    for i := 0 to |chain|
      invariant Simulates(sim, fs, disk)
      invariant forall l :: l in chain ==> BackupsKept(l.manifest.files, fs, disk)
      invariant RollbackIsSafe(fs, chain) <==> RollbackIsSafe(disk, chain[i..])
    {
      var m := chain[i].manifest;
      assert chain[i] in chain;
      assert chain[i..][0] == chain[i] && chain[i..][1..] == chain[i + 1..];
      ReadableAgree(m.files, fs, disk);
      var matches, captured := CheckEntries(m, sim, fs, disk);
      if !matches {
        return false;
      }
      var readable, after := SimulateManifest(m, captured, fs);
      if !readable {
        return false;
      }
      SimulationTracks(captured, fs, disk, m.files);
      sim := after;
      disk := RestoreEntries(disk, m.files);
    }
    assert chain[|chain|..] == [];
    ok := true;
  }

  lemma ReadableAgree(entries: seq<FileBackup>, fs: Files, disk: Files)
    requires BackupsKept(entries, fs, disk)
    ensures forall e :: e in entries ==> (BackupReadable(e, fs) <==> BackupReadable(e, disk))
  {
    forall e | e in entries && e.backup.Some? ensures e.backup.value in fs <==> e.backup.value in disk {
      assert Lookup(disk, e.backup.value) == Lookup(fs, e.backup.value);
    }
  }
}
