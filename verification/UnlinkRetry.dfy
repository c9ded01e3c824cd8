// Running an unlink again after it was cut: when the second run is accepted,
// and what it then leaves.
module UnlinkRetry {
  import opened Wrappers
  import opened MigrationDisk
  import opened ManifestChain
  import opened ManifestLog
  import opened FileRollback
  import opened BindingRollback
  import opened CredentialHandoff
  import opened Unlink
  import opened Reconcile
  import opened HandoffBacking
  import opened CutHandoff
  import opened CutUnlink
  import opened LogMarks
  import opened UnlinkCuts

  // ---- Files rolled back once already ----

  predicate Plain(e: FileBackup) {
    e.original.File? && (e.backup.Some? ==> e.backup.value.BackupOf?) && (e.created <==> e.backup.None?)
  }

  ghost predicate PlainChain(chain: seq<Link>) {
    forall l, e :: l in chain && e in l.manifest.files ==> Plain(e)
  }

  ghost predicate SameBackups(fs: Files, gs: Files) {
    forall p: Path :: p.BackupOf? ==> Lookup(fs, p) == Lookup(gs, p)
  }

  function Names(entries: seq<FileBackup>): set<Path> {
    set e | e in entries :: e.original
  }

  lemma RestoredOnce(fs: Files, gs: Files, e: FileBackup)
    requires Plain(e) && SameBackups(fs, gs) && BackupReadable(e, fs)
    ensures Lookup(RestoreEntry(fs, e), e.original) == Lookup(RestoreEntry(gs, e), e.original)
    ensures forall p :: p != e.original ==> Lookup(RestoreEntry(fs, e), p) == Lookup(fs, p)
    ensures forall p :: p != e.original ==> Lookup(RestoreEntry(gs, e), p) == Lookup(gs, p)
  {
    if e.backup.Some? {
      assert Lookup(fs, e.backup.value) == Lookup(gs, e.backup.value);
    }
  }

  // Two disks with the same backups agree on the restored files afterwards.
  lemma {:induction false} RestoredAlike(fs: Files, gs: Files, entries: seq<FileBackup>)
    requires SameBackups(fs, gs) && forall e :: e in entries ==> Plain(e) && BackupReadable(e, fs)
    ensures SameBackups(fs, RestoreEntries(fs, entries)) && SameBackups(gs, RestoreEntries(gs, entries))
    ensures forall p :: p in Names(entries) ==> Lookup(RestoreEntries(fs, entries), p) == Lookup(RestoreEntries(gs, entries), p)
    ensures forall p :: p !in Names(entries) ==> Lookup(RestoreEntries(fs, entries), p) == Lookup(fs, p)
    ensures forall p :: p !in Names(entries) ==> Lookup(RestoreEntries(gs, entries), p) == Lookup(gs, p)
  {
    if entries != [] {
      var e, rest := entries[0], entries[1..];
      assert e in entries && forall x :: x in entries <==> x == e || x in rest;
      RestoredAlike(fs, gs, rest);
      var fs1, gs1 := RestoreEntries(fs, rest), RestoreEntries(gs, rest);
      assert e.backup.Some? ==> Lookup(fs1, e.backup.value) == Lookup(fs, e.backup.value);
      RestoredOnce(fs1, gs1, e);
      assert Names(entries) == {e.original} + Names(rest);
    }
  }

  // Every file besides the shard is what the newest manifest that tracks it
  // left there: its checkpointed image or, not checkpointed, the file it found.
  ghost predicate Standing(gs: Files, chain: seq<Link>) {
    forall i, e :: 0 <= i < |chain| && e in chain[i].manifest.files && e.original !in Originals(chain[..i]) ==> Stands(gs, chain[i].manifest, e)
  }

  predicate Stands(gs: Files, m: Manifest, e: FileBackup) {
    IsShardEntry(m, e) || EntryMatches(m.version, e, Lookup(gs, e.original), gs)
  }

  // The same manifest by manifest, those tracking `done` already passed.
  ghost predicate StandingFrom(gs: Files, chain: seq<Link>, done: set<Path>)
    decreases |chain|
  {
    chain != [] ==>
      && (forall e :: e in chain[0].manifest.files && e.original !in done ==> Stands(gs, chain[0].manifest, e))
      && StandingFrom(gs, chain[1..], done + Names(chain[0].manifest.files))
  }

  ghost predicate StandingPast(gs: Files, chain: seq<Link>, done: set<Path>) {
    forall i, e :: 0 <= i < |chain| && e in chain[i].manifest.files && e.original !in done + Originals(chain[..i]) ==>
      Stands(gs, chain[i].manifest, e)
  }

  lemma NamesFirst(chain: seq<Link>, i: nat)
    requires i < |chain|
    ensures Originals(chain[..i + 1]) == Names(chain[0].manifest.files) + Originals(chain[1..][..i])
  {
    var first, rest := chain[..i + 1], chain[1..][..i];
    assert forall j :: 0 <= j < i ==> rest[j] == first[j + 1];
    assert forall l :: l in first <==> l == chain[0] || l in rest;
    assert chain[0] in first;
  }

  lemma {:induction false} StandingUnrolled(gs: Files, chain: seq<Link>, done: set<Path>)
    ensures StandingFrom(gs, chain, done) <==> StandingPast(gs, chain, done)
    decreases |chain|
  {
    if chain != [] {
      var rest, more := chain[1..], done + Names(chain[0].manifest.files);
      StandingUnrolled(gs, rest, more);
      assert Originals(chain[..0]) == {};
      forall i | 0 <= i < |rest| ensures done + Originals(chain[..i + 1]) == more + Originals(rest[..i]) {
        NamesFirst(chain, i);
      }
      PastFirst(gs, chain, done, more);
    }
  }

  lemma PastFirst(gs: Files, chain: seq<Link>, done: set<Path>, more: set<Path>)
    requires chain != [] && Originals(chain[..0]) == {}
    requires forall i :: 0 <= i < |chain[1..]| ==> done + Originals(chain[..i + 1]) == more + Originals(chain[1..][..i])
    ensures StandingPast(gs, chain, done) <==>
              && (forall e :: e in chain[0].manifest.files && e.original !in done ==> Stands(gs, chain[0].manifest, e))
              && StandingPast(gs, chain[1..], more)
  {
    var rest := chain[1..];
    if StandingPast(gs, chain, done) {
      forall i, e | 0 <= i < |rest| && e in rest[i].manifest.files && e.original !in more + Originals(rest[..i])
        ensures Stands(gs, rest[i].manifest, e) {
        assert rest[i] == chain[i + 1];
      }
    }
    if StandingPast(gs, rest, more) {
      forall i, e | 1 <= i < |chain| && e in chain[i].manifest.files && e.original !in done + Originals(chain[..i])
        ensures Stands(gs, chain[i].manifest, e) {
        assert rest[i - 1] == chain[i] && done + Originals(chain[..i - 1 + 1]) == more + Originals(rest[..i - 1]);
      }
    }
  }

  lemma SameStands(fs: Files, gs: Files, m: Manifest, e: FileBackup)
    requires Plain(e) && SameBackups(fs, gs) && Lookup(fs, e.original) == Lookup(gs, e.original)
    ensures Stands(fs, m, e) <==> Stands(gs, m, e)
  {
    if e.backup.Some? {
      assert Lookup(fs, e.backup.value) == Lookup(gs, e.backup.value);
    }
  }

  // One manifest: files restored before are what they were in the safe rollback
  // `fs`; the others are still those of `gs0`.
  lemma RestoredAgain(fs: Files, gs: Files, gs0: Files, m: Manifest, done: set<Path>)
    requires (forall e :: e in m.files ==> Plain(e)) && Restored(m, fs)
    requires SameBackups(fs, gs) && SameBackups(gs, gs0)
    requires forall p :: p in done ==> Lookup(gs, p) == Lookup(fs, p)
    requires forall p :: p !in done ==> Lookup(gs, p) == Lookup(gs0, p)
    ensures Restored(m, gs) <==> forall e :: e in m.files && e.original !in done ==> Stands(gs0, m, e)
  {
    forall e | e in m.files
      ensures BackupReadable(e, gs)
      ensures Stands(gs, m, e) <==> (e.original !in done ==> Stands(gs0, m, e)) {
      if e.backup.Some? {
        assert Lookup(fs, e.backup.value) == Lookup(gs, e.backup.value);
      }
      if e.original in done {
        SameStands(fs, gs, m, e);
      } else {
        SameStands(gs, gs0, m, e);
      }
    }
  }

  lemma {:induction false} SafeFrom(fs: Files, gs: Files, gs0: Files, chain: seq<Link>, done: set<Path>)
    requires PlainChain(chain) && RollbackIsSafe(fs, chain) && SameBackups(fs, gs) && SameBackups(gs, gs0)
    requires forall p :: p in done ==> Lookup(gs, p) == Lookup(fs, p)
    requires forall p :: p !in done ==> Lookup(gs, p) == Lookup(gs0, p)
    ensures RollbackIsSafe(gs, chain) <==> StandingFrom(gs0, chain, done)
    decreases |chain|
  {
    if chain != [] {
      var m := chain[0].manifest;
      assert chain[0] in chain && forall l :: l in chain[1..] ==> l in chain;
      RestoredAgain(fs, gs, gs0, m, done);
      RestoredAlike(fs, gs, m.files);
      SafeFrom(RestoreEntries(fs, m.files), RestoreEntries(gs, m.files), gs0, chain[1..], done + Names(m.files));
    }
  }

  // A disk with the backups of a safe one is safe exactly if its files stand.
  lemma SafeAgain(fs: Files, gs: Files, chain: seq<Link>)
    requires PlainChain(chain) && RollbackIsSafe(fs, chain) && SameBackups(fs, gs)
    ensures RollbackIsSafe(gs, chain) <==> Standing(gs, chain)
  {
    SafeFrom(fs, gs, gs, chain, {});
    StandingUnrolled(gs, chain, {});
    forall i | 0 <= i <= |chain| ensures {} + Originals(chain[..i]) == Originals(chain[..i]) {
    }
  }

  // Rolled back, two disks that differ in tracked files only are the same.
  lemma {:induction false} RolledAlike(fs: Files, gs: Files, chain: seq<Link>)
    requires PlainChain(chain) && RollbackIsSafe(fs, chain) && SameBackups(fs, gs)
    requires forall p :: p !in Originals(chain) ==> Lookup(fs, p) == Lookup(gs, p)
    ensures RestoreChain(fs, chain) == RestoreChain(gs, chain)
    decreases |chain|
  {
    if chain == [] {
      forall p ensures Lookup(fs, p) == Lookup(gs, p) {
      }
      SameMaps(fs, gs);
    } else {
      var m := chain[0].manifest;
      assert chain[0] in chain && forall l :: l in chain[1..] ==> l in chain;
      RestoredAlike(fs, gs, m.files);
      NamesFirst(chain, |chain| - 1);
      assert chain[..|chain|] == chain && chain[1..][..|chain| - 1] == chain[1..];
      RolledAlike(RestoreEntries(fs, m.files), RestoreEntries(gs, m.files), chain[1..]);
    }
  }

  lemma SameMaps<K(!new), V(!new)>(a: map<K, V>, b: map<K, V>)
    requires forall k :: Lookup(a, k) == Lookup(b, k)
    ensures a == b
  {
    forall k ensures k in a <==> k in b {
      assert Lookup(a, k) == Lookup(b, k);
    }
    forall k | k in a ensures a[k] == b[k] {
      assert Lookup(a, k) == Lookup(b, k);
    }
  }

  // ---- The binding ----

  // The agent's binding is what the newest manifest to record one wrote or replaced.
  predicate BindingStands(current: Option<Binding>, chain: seq<Link>)
    decreases |chain|
  {
    chain != [] ==>
      match chain[0].manifest.change
      case None => BindingStands(current, chain[1..])
      case Some(change) => current == change.before || current == Some(change.after)
  }

  predicate Binds(chain: seq<Link>) {
    exists l :: l in chain && l.manifest.change.Some?
  }

  lemma {:induction false} BindingAgain(agent: Agent, was: Option<Binding>, now: Option<Binding>, chain: seq<Link>)
    requires BindingRun(agent, was, chain).ok
    ensures BindingRun(agent, now, chain).ok <==> BindingStands(now, chain)
    ensures Binds(chain) || now == was ==> OldestBefore(now, chain) == OldestBefore(was, chain)
    ensures !Binds(chain) ==> BindingRun(agent, was, chain).writes == []
    decreases |chain|
  {
    if chain != [] {
      var rest := chain[1..];
      assert forall l :: l in chain <==> l == chain[0] || l in rest;
      match chain[0].manifest.change
      case None => BindingAgain(agent, was, now, rest);
      case Some(change) =>
        assert chain[0] in chain;
        BindingAgain(agent, change.before, change.before, rest);
        if was == change.before {
          BindingAgain(agent, was, now, rest);
        }
    }
  }

  // ---- Marks change nothing about the rollback ----

  lemma {:induction false} SameRollback(before: seq<Link>, after: seq<Link>, bound: nat, gs: Files, agent: Agent, current: Option<Binding>)
    requires SameLog(before, after, bound)
    ensures RollbackIsSafe(gs, after) <==> RollbackIsSafe(gs, before)
    ensures RestoreChain(gs, after) == RestoreChain(gs, before)
    ensures BindingRun(agent, current, after) == BindingRun(agent, current, before)
    ensures OldestBefore(current, after) == OldestBefore(current, before)
    decreases |before|
  {
    if before != [] {
      SameTail(before, after, bound);
      var m := before[0].manifest;
      SameRollback(before[1..], after[1..], bound, RestoreEntries(gs, m.files), agent, current);
      if m.change.Some? {
        SameRollback(before[1..], after[1..], bound, RestoreEntries(gs, m.files), agent, m.change.value.before);
      }
    }
  }

  lemma SameTail(before: seq<Link>, after: seq<Link>, bound: nat)
    requires SameLog(before, after, bound) && before != []
    ensures SameLog(before[1..], after[1..], bound)
    ensures Ahead(before[0].path, before[0].manifest, after[0].manifest, bound) && after[0].path == before[0].path
  {
  }

  // ---- Handing over a second time ----

  lemma {:induction false} FewerTargets(before: seq<Link>, after: seq<Link>, bound: nat, byId: map<AccountId, Account>, h: Home)
    requires SameLog(before, after, bound)
    ensures TargetsAt(after, byId, h) <= TargetsAt(before, byId, h)
    decreases |before|
  {
    if before != [] {
      SameTail(before, after, bound);
      FewerTargets(before[1..], after[1..], bound, byId, h);
    }
  }

  lemma FewerHomes(before: seq<Link>, after: seq<Link>, bound: nat)
    requires SameLog(before, after, bound)
    ensures Homes(after) <= Homes(before)
  {
    forall h | h in Homes(after) ensures h in Homes(before) {
      var l :| l in after && Pending(l.manifest) && l.manifest.home == Some(h);
      var i :| 0 <= i < |after| && after[i] == l;
      assert before[i] in before && Pending(before[i].manifest);
    }
  }

  lemma {:induction false} AllGranted(d: Disk, chain: seq<Link>, byId: map<AccountId, Account>, bySource: map<Provider, Account>,
                                      required: bool, homes: seq<Home>, h: Home)
    requires GrantRun(d, chain, byId, bySource, required, homes).ok && h in homes
    ensures KeysFor(d, chain, byId, bySource, required, h).Ok?
  {
    if h != homes[0] {
      assert h in homes[1..];
      AllGranted(d, chain, byId, bySource, required, homes[1..], h);
    }
  }

  // The newest manifest loads the same accounts, marked or not.
  lemma LoadsAgain(d: Disk, e: Disk, m: Manifest, n: Manifest)
    requires e.files == d.files && e.rootAccounts == d.rootAccounts && n == m.(handoff := n.handoff, unlinked := n.unlinked)
    ensures LoadTransferred(e, n) == LoadTransferred(d, m) && (RequiresCredentials(n) <==> RequiresCredentials(m))
  {
    forall id ensures FindAccount(e, n, id) == FindAccount(d, m, id) {
    }
    assert HasCheckpointedTransferShard(n) <==> HasCheckpointedTransferShard(m);
    forall r ensures RouteRestorable(e, n, r) <==> RouteRestorable(d, m, r) {
    }
    CollectsAgain(d, e, m, n, m.imported);
  }

  lemma {:induction false} CollectsAgain(d: Disk, e: Disk, m: Manifest, n: Manifest, ids: seq<AccountId>)
    requires (forall id :: FindAccount(e, n, id) == FindAccount(d, m, id)) && (RequiresCredentials(n) <==> RequiresCredentials(m))
    ensures CollectAccounts(e, n, ids) == CollectAccounts(d, m, ids)
  {
    if ids != [] {
      CollectsAgain(d, e, m, n, ids[1..]);
    }
  }

  // `e` is the disk `d` with more keys at most.
  ghost predicate Richer(d: Disk, e: Disk) {
    && e.files == d.files && e.rootAccounts == d.rootAccounts
    && forall h :: AuthOf(d, h).Keys <= AuthOf(e, h).Keys
  }

  lemma KeysAgain(d: Disk, e: Disk, before: seq<Link>, after: seq<Link>, byId: map<AccountId, Account>,
                  bySource: map<Provider, Account>, required: bool, h: Home)
    requires Richer(d, e) && SameLog(before, after, 0) && KeysFor(d, before, byId, bySource, required, h).Ok?
    ensures KeysFor(e, after, byId, bySource, required, h).Ok?
  {
    FewerTargets(before, after, 0, byId, h);
    assert AuthOf(d, h).Keys <= AuthOf(e, h).Keys;
  }

  lemma GrantsAgain(d: Disk, e: Disk, before: seq<Link>, after: seq<Link>, accounts: seq<Account>)
    requires before != [] && after != [] && Richer(d, e) && SameLog(before, after, 0) && Grants(d, before, accounts).ok
    requires RequiresCredentials(after[0].manifest) <==> RequiresCredentials(before[0].manifest)
    ensures Grants(e, after, accounts).ok
  {
    FewerHomes(before, after, 0);
    AscendingMembers(Homes(before));
    AscendingMembers(Homes(after));
    var required := RequiresCredentials(before[0].manifest);
    forall h | h in Ascending(Homes(after)) ensures KeysFor(e, after, ById(accounts), BySource(accounts), required, h).Ok? {
      AllGranted(d, before, ById(accounts), BySource(accounts), required, Ascending(Homes(before)), h);
      KeysAgain(d, e, before, after, ById(accounts), BySource(accounts), required, h);
    }
    GrantsGoThrough(e, after, ById(accounts), BySource(accounts), required, Ascending(Homes(after)));
  }

  lemma NoneMissing(before: seq<Link>, after: seq<Link>, byId: map<AccountId, Account>)
    requires SameLog(before, after, 0) && forall l :: l in before ==> !LegacyMissing(l.manifest, byId)
    ensures forall l :: l in after ==> !LegacyMissing(l.manifest, byId)
  {
    forall l | l in after ensures !LegacyMissing(l.manifest, byId) {
      var i :| 0 <= i < |after| && after[i] == l;
      assert before[i] in before;
    }
  }

  // Without a home to hand anything to, the handoff goes through.
  lemma NobodyWaits(e: Disk, chain: seq<Link>)
    requires chain != [] && Homes(chain) == {}
    ensures HandoffRun(e, chain).ok
  {
    assert Ascending(Homes(chain)) == [];
    assert forall l :: l in chain && Pending(l.manifest) && l.manifest.home.Some? ==> l.manifest.home.value in Homes(chain);
    forall l | l in chain ensures !LegacyMissing(l.manifest, ById([])) {
    }
  }

  // What was handed over once can be handed over again.
  lemma HandsOverAgain(d: Disk, e: Disk, before: seq<Link>, after: seq<Link>)
    requires before != [] && after != [] && Richer(d, e) && SameLog(before, after, 0) && HandoffRun(d, before).ok
    ensures HandoffRun(e, after).ok
    ensures Homes(after) != {} ==> Loaded(d, before).Ok? && Loaded(e, after) == Loaded(d, before)
  {
    if Homes(after) == {} {
      NobodyWaits(e, after);
    } else {
      FewerHomes(before, after, 0);
      SameTail(before, after, 0);
      LoadsAgain(d, e, before[0].manifest, after[0].manifest);
      StillPending(before, after);
      assert Loaded(e, after) == Loaded(d, before);
      GrantsAgain(d, e, before, after, Loaded(d, before).value);
      NoneMissing(before, after, ById(Loaded(d, before).value));
    }
  }

  lemma StillPending(before: seq<Link>, after: seq<Link>)
    requires SameLog(before, after, 0) && Homes(after) != {}
    ensures exists l :: l in before && Pending(l.manifest)
  {
    var l :| l in after && Pending(l.manifest) && l.manifest.home.Some?;
    var i :| 0 <= i < |after| && after[i] == l;
    assert before[i] in before && Pending(before[i].manifest);
  }

  // ---- The keys after a second handoff ----

  // The keys a handoff gives home `h`.
  function Given(d: Disk, chain: seq<Link>, h: Home): map<Provider, Secret> {
    if (exists l :: l in chain && Pending(l.manifest)) && Loaded(d, chain).Ok? then HandedKeys(chain, Loaded(d, chain).value, h)
    else map[]
  }

  lemma HandoffGives(d: Disk, chain: seq<Link>, h: Home)
    requires chain != [] && HandoffRun(d, chain).ok
    ensures AuthOf(Replay(d, HandoffRun(d, chain).writes), h) == Given(d, chain, h) + AuthOf(d, h)
  {
    if exists l :: l in chain && Pending(l.manifest) {
      HandoffKeys(d, chain, h);
    } else {
      assert map[] + AuthOf(d, h) == AuthOf(d, h);
    }
  }

  lemma GivenLess(d: Disk, e: Disk, before: seq<Link>, after: seq<Link>, h: Home)
    requires before != [] && after != [] && Richer(d, e) && SameLog(before, after, 0) && HandoffRun(d, before).ok
    ensures Given(e, after, h).Keys <= Given(d, before, h).Keys
  {
    HandsOverAgain(d, e, before, after);
    if h !in Homes(after) {
      if Loaded(e, after).Ok? {
        NothingHanded(after, Loaded(e, after).value, h);
      }
    } else {
      StillPending(before, after);
      FewerTargets(before, after, 0, ById(Loaded(d, before).value), h);
    }
  }

  // Keys already given are given again without effect.
  lemma GivenTwice(d: Disk, e: Disk, before: seq<Link>, after: seq<Link>, h: Home)
    requires before != [] && after != [] && Richer(d, e) && SameLog(before, after, 0) && HandoffRun(d, before).ok
    requires AuthOf(e, h) == Given(d, before, h) + AuthOf(d, h)
    ensures Given(e, after, h) + AuthOf(e, h) == Given(d, before, h) + AuthOf(d, h)
  {
    GivenLess(d, e, before, after, h);
  }

  lemma GivenByGrants(d: Disk, chain: seq<Link>, h: Home)
    requires chain != [] && HandoffRun(d, chain).ok
    ensures AuthOf(Replay(d, GrantWrites(d, chain)), h) == Given(d, chain, h) + AuthOf(d, h)
  {
    HandoffGives(d, chain, h);
    HandoffSplits(d, chain);
    ReplayConcat(d, GrantWrites(d, chain), MarkHandoff(chain));
    MarksKeepRest(Replay(d, GrantWrites(d, chain)), chain);
  }

  // Each home is granted keys once at most.
  predicate OneGrantEach(ws: seq<Write>) {
    && (forall i :: 0 <= i < |ws| ==> ws[i].GrantKeys?)
    && (forall i, j :: 0 <= i < j < |ws| ==> ws[i].home != ws[j].home)
  }

  lemma {:induction false} GrantsSkip(e: Disk, ws: seq<Write>, h: Home)
    requires forall i :: 0 <= i < |ws| ==> ws[i].GrantKeys? && ws[i].home != h
    ensures AuthOf(Replay(e, ws), h) == AuthOf(e, h)
    decreases |ws|
  {
    if ws != [] {
      GrantsSkip(Step(e, ws[0]), ws[1..], h);
    }
  }

  // So a cut leaves it as it was, or as all the grants do.
  lemma {:induction false} GrantsPartly(e: Disk, ws: seq<Write>, k: nat, h: Home)
    requires OneGrantEach(ws) && k <= |ws|
    ensures AuthOf(Replay(e, ws[..k]), h) in {AuthOf(e, h), AuthOf(Replay(e, ws), h)}
    decreases |ws|
  {
    if k > 0 {
      assert ws[..k][1..] == ws[1..][..k - 1];
      if ws[0].home == h {
        GrantsSkip(Step(e, ws[0]), ws[1..], h);
        GrantsSkip(Step(e, ws[0]), ws[1..][..k - 1], h);
      } else {
        GrantsPartly(Step(e, ws[0]), ws[1..], k - 1, h);
      }
    }
  }

  lemma {:induction false} GrantsOnce(d: Disk, chain: seq<Link>, byId: map<AccountId, Account>, bySource: map<Provider, Account>,
                                      required: bool, homes: seq<Home>)
    requires forall i, j :: 0 <= i < j < |homes| ==> homes[i] != homes[j]
    ensures var ws := GrantRun(d, chain, byId, bySource, required, homes).writes;
            OneGrantEach(ws) && forall i :: 0 <= i < |ws| ==> ws[i].home in homes
  {
    if homes != [] {
      assert forall i :: 0 <= i < |homes[1..]| ==> homes[1..][i] == homes[i + 1];
      assert homes[0] !in homes[1..];
      GrantsOnce(d, chain, byId, bySource, required, homes[1..]);
    }
  }

  // A cut in the grants leaves each home as it was, or with all it is given.
  lemma PartlyGiven(d: Disk, chain: seq<Link>, k: nat, h: Home)
    requires chain != [] && HandoffRun(d, chain).ok && k <= |GrantWrites(d, chain)|
    ensures AuthOf(Replay(d, GrantWrites(d, chain)[..k]), h) in {AuthOf(d, h), Given(d, chain, h) + AuthOf(d, h)}
  {
    GivenByGrants(d, chain, h);
    if exists l :: l in chain && Pending(l.manifest) {
      var accounts := Loaded(d, chain).value;
      AscendingDistinct(Homes(chain));
      GrantsOnce(d, chain, ById(accounts), BySource(accounts), RequiresCredentials(chain[0].manifest), Ascending(Homes(chain)));
    }
    GrantsPartly(d, GrantWrites(d, chain), k, h);
  }

  // ---- What a cut leaves for the second run ----

  ghost predicate SameElsewhere(d: Disk, e: Disk, agent: Agent, chain: seq<Link>) {
    && SameBackups(d.files, e.files) && (forall p :: p !in Originals(chain) ==> Lookup(e.files, p) == Lookup(d.files, p))
    && e.rootAccounts == d.rootAccounts
    && (forall a :: a != agent ==> Lookup(e.bindings, a) == Lookup(d.bindings, a))
    && (!Binds(chain) ==> Lookup(e.bindings, agent) == Lookup(d.bindings, agent))
    && (forall p :: p !in Paths(chain) ==> Lookup(e.manifests, p) == Lookup(d.manifests, p))
  }

  ghost predicate Gave(d: Disk, e: Disk, chain: seq<Link>) {
    forall h :: AuthOf(e, h) == Given(d, chain, h) + AuthOf(d, h)
  }

  ghost predicate PartlyGave(d: Disk, e: Disk, chain: seq<Link>) {
    forall h :: AuthOf(e, h) in {AuthOf(d, h), Given(d, chain, h) + AuthOf(d, h)}
  }

  // The handoff is done, or files are untouched: then it is being recorded, or
  // keys are being granted.
  ghost predicate HandingOver(d: Disk, e: Disk, chain: seq<Link>, now: seq<Link>) {
    || (HandedOff(now) && Gave(d, e, chain))
    || (Richer(d, e) && SameLog(chain, now, 0) && Gave(d, e, chain))
    || (Richer(d, e) && now == chain && PartlyGave(d, e, chain))
  }

  // ---- The second run ----

  lemma SecondHandoff(d: Disk, e: Disk, chain: seq<Link>, now: seq<Link>)
    requires chain != [] && now != [] && HandoffRun(d, chain).ok && HandingOver(d, e, chain, now)
    ensures HandoffRun(e, now).ok
    ensures forall h :: AuthOf(Replay(e, HandoffRun(e, now).writes), h) == AuthOf(Replay(d, HandoffRun(d, chain).writes), h)
  {
    if HandedOff(now) && Gave(d, e, chain) {
    } else if Gave(d, e, chain) {
      HandsOverAgain(d, e, chain, now);
    } else {
      SameLogItself(chain);
      HandsOverAgain(d, e, chain, now);
    }
    forall h ensures AuthOf(Replay(e, HandoffRun(e, now).writes), h) == AuthOf(Replay(d, HandoffRun(d, chain).writes), h) {
      SecondKeys(d, e, chain, now, h);
    }
  }

  lemma SameLogItself(chain: seq<Link>)
    ensures SameLog(chain, chain, 0)
  {
  }

  lemma SecondKeys(d: Disk, e: Disk, chain: seq<Link>, now: seq<Link>, h: Home)
    requires chain != [] && now != [] && HandoffRun(d, chain).ok && HandingOver(d, e, chain, now) && HandoffRun(e, now).ok
    ensures AuthOf(Replay(e, HandoffRun(e, now).writes), h) == AuthOf(Replay(d, HandoffRun(d, chain).writes), h)
  {
    HandoffGives(d, chain, h);
    HandoffGives(e, now, h);
    SecondGift(d, e, chain, now, h);
  }

  lemma SecondGift(d: Disk, e: Disk, chain: seq<Link>, now: seq<Link>, h: Home)
    requires chain != [] && now != [] && HandoffRun(d, chain).ok && HandingOver(d, e, chain, now)
    ensures Given(e, now, h) + AuthOf(e, h) == Given(d, chain, h) + AuthOf(d, h)
  {
    if HandedOff(now) && Gave(d, e, chain) {
      GiftDone(e, now, h);
    } else if Gave(d, e, chain) {
      GivenTwice(d, e, chain, now, h);
    } else {
      GiftPartly(d, e, chain, h);
    }
  }

  lemma GiftDone(e: Disk, now: seq<Link>, h: Home)
    requires HandedOff(now)
    ensures Given(e, now, h) + AuthOf(e, h) == AuthOf(e, h)
  {
    assert Given(e, now, h) == map[];
  }

  lemma GiftPartly(d: Disk, e: Disk, chain: seq<Link>, h: Home)
    requires chain != [] && HandoffRun(d, chain).ok && Richer(d, e)
    requires AuthOf(e, h) in {AuthOf(d, h), Given(d, chain, h) + AuthOf(d, h)}
    ensures Given(e, chain, h) + AuthOf(e, h) == Given(d, chain, h) + AuthOf(d, h)
  {
    GivenSame(d, e, chain, h);
  }

  lemma GivenSame(d: Disk, e: Disk, chain: seq<Link>, h: Home)
    requires chain != [] && Richer(d, e)
    ensures Given(e, chain, h) == Given(d, chain, h)
  {
    LoadsAgain(d, e, chain[0].manifest, chain[0].manifest);
  }

  // Accepted exactly if files and binding stand.
  lemma SecondAccepted(d: Disk, e: Disk, agent: Agent, chain: seq<Link>, now: seq<Link>, bound: nat)
    requires Accepted(d, agent, chain) && PlainChain(chain) && SameElsewhere(d, e, agent, chain)
    requires SameLog(chain, now, bound) && now != [] && !now[0].manifest.unlinked
    ensures Accepted(e, agent, now) <==> Standing(e.files, chain) && BindingStands(Lookup(e.bindings, agent), chain)
  {
    SameRollback(chain, now, bound, e.files, agent, Lookup(e.bindings, agent));
    SafeAgain(d.files, e.files, chain);
    BindingAgain(agent, Lookup(d.bindings, agent), Lookup(e.bindings, agent), chain);
  }

  // The same state of the world, as far as anyone can read it.
  ghost predicate SameDisk(f: Disk, g: Disk) {
    && f.files == g.files && f.bindings == g.bindings && f.manifests == g.manifests && f.rootAccounts == g.rootAccounts
    && forall h :: AuthOf(f, h) == AuthOf(g, h)
  }

  lemma SecondFiles(d: Disk, e: Disk, agent: Agent, chain: seq<Link>, now: seq<Link>, bound: nat)
    requires Accepted(d, agent, chain) && PlainChain(chain) && SameElsewhere(d, e, agent, chain) && SameLog(chain, now, bound)
    ensures RestoreChain(e.files, now) == RestoreChain(d.files, chain)
    ensures OldestBefore(Lookup(e.bindings, agent), now) == OldestBefore(Lookup(d.bindings, agent), chain)
  {
    SameRollback(chain, now, bound, e.files, agent, Lookup(e.bindings, agent));
    RolledAlike(d.files, e.files, chain);
    BindingAgain(agent, Lookup(d.bindings, agent), Lookup(e.bindings, agent), chain);
  }

  lemma SamePaths(chain: seq<Link>, now: seq<Link>, bound: nat)
    requires SameLog(chain, now, bound)
    ensures Paths(now) == Paths(chain)
    ensures forall p, m :: Link(p, m) in now ==> exists l :: l in chain && l.path == p && Marked(l.manifest) == Marked(m)
  {
    forall p ensures p in Paths(now) <==> p in Paths(chain) {
      if p in Paths(now) {
        var i :| 0 <= i < |now| && now[i].path == p;
        assert chain[i] in chain;
      }
      if p in Paths(chain) {
        var i :| 0 <= i < |chain| && chain[i].path == p;
        assert now[i] in now;
      }
    }
    forall p, m | Link(p, m) in now ensures exists l :: l in chain && l.path == p && Marked(l.manifest) == Marked(m) {
      var i :| 0 <= i < |now| && now[i] == Link(p, m);
      assert chain[i] in chain;
    }
  }

  // What both runs ensure of the marks makes their manifests equal.
  lemma SecondManifests(d: Disk, e: Disk, f: Disk, g: Disk, chain: seq<Link>, now: seq<Link>, bound: nat)
    requires SameLog(chain, now, bound)
    requires forall p :: p !in Paths(chain) ==> Lookup(e.manifests, p) == Lookup(d.manifests, p)
    requires forall l :: l in chain ==> l.path in f.manifests && f.manifests[l.path] == Marked(l.manifest)
    requires forall p :: p !in Paths(chain) ==> Lookup(f.manifests, p) == Lookup(d.manifests, p)
    requires forall l :: l in now ==> l.path in g.manifests && g.manifests[l.path] == Marked(l.manifest)
    requires forall p :: p !in Paths(now) ==> Lookup(g.manifests, p) == Lookup(e.manifests, p)
    ensures g.manifests == f.manifests
  {
    SamePaths(chain, now, bound);
    forall p ensures Lookup(g.manifests, p) == Lookup(f.manifests, p) {
      if p in Paths(now) {
        var i :| 0 <= i < |now| && now[i].path == p;
        assert now[i] in now && chain[i] in chain;
      }
    }
    SameMaps(g.manifests, f.manifests);
  }

  // ---- Every cut leaves that ----

  ghost predicate MarksWithin(ws: seq<Write>, paths: set<Path>) {
    forall w :: w in ws && w.WriteManifest? ==> w.at in paths
  }

  lemma {:induction false} MarksFrame(d: Disk, ws: seq<Write>, paths: set<Path>)
    requires MarksWithin(ws, paths)
    ensures forall p :: p !in paths ==> Lookup(Replay(d, ws).manifests, p) == Lookup(d.manifests, p)
    decreases |ws|
  {
    if ws != [] {
      assert ws[0] in ws && forall w :: w in ws[1..] ==> w in ws;
      MarksFrame(Step(d, ws[0]), ws[1..], paths);
    }
  }

  lemma {:induction false} HandoffWithin(chain: seq<Link>, paths: set<Path>)
    requires Paths(chain) <= paths
    ensures MarksWithin(MarkHandoff(chain), paths)
  {
    if chain != [] {
      assert chain[0] in chain && forall l :: l in chain[1..] ==> l in chain;
      assert chain[0].path in Paths(chain) && Paths(chain[1..]) <= Paths(chain);
      HandoffWithin(chain[1..], paths);
    }
  }

  lemma {:induction false} UnlinkWithin(chain: seq<Link>, paths: set<Path>)
    requires Paths(chain) <= paths
    ensures MarksWithin(UnlinkMarks(chain), paths)
  {
    if chain != [] {
      assert chain[0] in chain && forall l :: l in chain[1..] ==> l in chain;
      assert chain[0].path in Paths(chain) && Paths(chain[1..]) <= Paths(chain);
      UnlinkWithin(chain[1..], paths);
    }
  }

  lemma CutMarks(d: Disk, agent: Agent, chain: seq<Link>, k: nat)
    requires UnlinkChain(d, agent, chain).ok && EntriesApart(chain) && k <= |UnlinkChain(d, agent, chain).writes|
    ensures var e := Replay(d, UnlinkChain(d, agent, chain).writes[..k]);
            forall p :: p !in Paths(chain) ==> Lookup(e.manifests, p) == Lookup(d.manifests, p)
  {
    HandoffSplits(d, chain);
    RunRollsBack(d, agent, chain);
    HandoffWithin(chain, Paths(chain));
    UnlinkWithin(chain, Paths(chain));
    var ws := UnlinkChain(d, agent, chain).writes;
    assert ws == (GrantWrites(d, chain) + MarkHandoff(chain)) + (RollbackWrites(d, agent, chain) + UnlinkMarks(chain));
    assert forall w :: w in ws[..k] ==> w in ws;
    MarksFrame(d, ws[..k], Paths(chain));
  }

  // A chain that never changed the binding is rolled back without touching it.
  lemma UnboundFrame(d: Disk, agent: Agent, chain: seq<Link>, part: nat)
    requires EntriesApart(chain) && Accepted(d, agent, chain) && !Binds(chain) && part <= |RollbackWrites(d, agent, chain)|
    ensures Lookup(Replay(d, RollbackWrites(d, agent, chain)[..part]).bindings, agent) == Lookup(d.bindings, agent)
  {
    var other, ws := agent + "'", RollbackWrites(d, agent, chain);
    BindingAgain(agent, Lookup(d.bindings, agent), Lookup(d.bindings, agent), chain);
    ChainRollback(chain, other, Originals(chain));
    assert ws == ChainWrites(chain);
    assert forall w :: w in ws[..part] ==> w in ws;
    RollbackFrame(d, ws[..part], other, Originals(chain));
  }

  lemma OverElsewhere(d: Disk, agent: Agent, chain: seq<Link>, e: Disk, part: nat, bound: nat)
    requires EntriesApart(chain) && Accepted(d, agent, chain)
    requires HandedOver(d, Replay(d, GrantWrites(d, chain)).auths, RollbackWrites(d, agent, chain), chain, e, part, bound)
    requires forall p :: p !in Paths(chain) ==> Lookup(e.manifests, p) == Lookup(d.manifests, p)
    ensures SameElsewhere(d, e, agent, chain)
  {
    var ws := RollbackWrites(d, agent, chain)[..part];
    RunRollsBack(d, agent, chain);
    assert forall w :: w in ws ==> w in RollbackWrites(d, agent, chain);
    RollbackFrame(d, ws, agent, Originals(chain));
    RollbackApart(d, d, ws, agent, Originals(chain));
    if !Binds(chain) {
      UnboundFrame(d, agent, chain, part);
    }
  }

  lemma OverHandsOver(d: Disk, chain: seq<Link>, rollback: seq<Write>, e: Disk, part: nat, bound: nat, now: seq<Link>)
    requires chain != [] && HandoffRun(d, chain).ok && SameLog(chain, now, bound)
    requires HandedOver(d, Replay(d, GrantWrites(d, chain)).auths, rollback, chain, e, part, bound) && e.rootAccounts == d.rootAccounts
    requires forall i :: 0 <= i < |now| ==> now[i].path in e.manifests && now[i].manifest == e.manifests[now[i].path]
    ensures HandingOver(d, e, chain, now)
  {
    forall h ensures AuthOf(e, h) == Given(d, chain, h) + AuthOf(d, h) {
      GivenByGrants(d, chain, h);
    }
    if Recorded(e.manifests, chain) {
      forall l | l in now ensures l.manifest.handoff {
        var i :| 0 <= i < |now| && now[i] == l;
        assert chain[i] in chain;
      }
    } else {
      assert rollback[..part] == [];
    }
  }

  lemma EarlyElsewhere(d: Disk, agent: Agent, chain: seq<Link>, k: nat)
    requires chain != [] && HandoffRun(d, chain).ok && k <= |GrantWrites(d, chain)|
    ensures var e := Replay(d, GrantWrites(d, chain)[..k]);
            && SameElsewhere(d, e, agent, chain) && HandingOver(d, e, chain, chain) && e.manifests == d.manifests
  {
    var e := Replay(d, GrantWrites(d, chain)[..k]);
    HandoffSplits(d, chain);
    GrantsCut(d, GrantWrites(d, chain), k);
    forall h ensures AuthOf(e, h) in {AuthOf(d, h), Given(d, chain, h) + AuthOf(d, h)} {
      PartlyGiven(d, chain, k, h);
    }
  }

  // ---- The result ----

  // The disk an unlink of `tip` leaves after `k` of its writes.
  function CutAt(d: Disk, agent: Agent, root: Option<string>, tip: Path, k: nat): Disk
    requires k <= |UnlinkRun(d, agent, root, tip).writes|
  {
    Replay(d, UnlinkRun(d, agent, root, tip).writes[..k])
  }

  // What a second run meets.
  ghost predicate Again(d: Disk, e: Disk, agent: Agent, chain: seq<Link>, now: seq<Link>, bound: nat) {
    && SameElsewhere(d, e, agent, chain) && HandingOver(d, e, chain, now)
    && SameLog(chain, now, bound) && now != [] && !now[0].manifest.unlinked
    && forall i, j :: 0 <= i < j < |now| ==> now[i].path != now[j].path
  }

  lemma LogNow(agent: Agent, ms: map<Path, Manifest>, now: map<Path, Manifest>, tip: Path, bound: nat)
    requires LogShape(agent, ms) && IsLatest(ms, tip) && Advanced(ms, now, bound) && bound <= tip.stamp
    ensures LogShape(agent, now) && IsLatest(now, tip)
    ensures SameLog(Log(agent, ms, tip), Log(agent, now, tip), bound)
    ensures forall l :: l in Log(agent, now, tip) ==> l.path in now && l.manifest == now[l.path]
    ensures !Log(agent, now, tip)[0].manifest.unlinked
  {
    ShapeAdvanced(agent, ms, now, bound);
    assert Ahead(tip, ms[tip], now[tip], bound);
    LatestAdvanced(ms, now, tip, bound);
    LogAdvanced(agent, ms, now, tip, bound);
    LogEntries(agent, now, tip);
  }

  lemma MeetsEarly(d: Disk, agent: Agent, tip: Path, e: Disk, k: nat)
    requires LogShape(agent, d.manifests) && IsLatest(d.manifests, tip) && HandoffRun(d, Log(agent, d.manifests, tip)).ok
    requires k <= |GrantWrites(d, Log(agent, d.manifests, tip))| && e == Replay(d, GrantWrites(d, Log(agent, d.manifests, tip))[..k])
    ensures LogShape(agent, e.manifests) && IsLatest(e.manifests, tip)
    ensures Again(d, e, agent, Log(agent, d.manifests, tip), Log(agent, e.manifests, tip), 0)
  {
    var chain := Log(agent, d.manifests, tip);
    EarlyElsewhere(d, agent, chain, k);
    SameLogItself(chain);
    LogNames(agent, d.manifests, tip);
  }

  lemma MeetsLate(d: Disk, agent: Agent, tip: Path, e: Disk, part: nat, bound: nat)
    requires LogShape(agent, d.manifests) && IsLatest(d.manifests, tip) && bound <= tip.stamp
    requires UnlinkChain(d, agent, Log(agent, d.manifests, tip)).ok
    requires var chain := Log(agent, d.manifests, tip);
             HandedOver(d, Replay(d, GrantWrites(d, chain)).auths, RollbackWrites(d, agent, chain), chain, e, part, bound)
    requires forall p :: p !in Paths(Log(agent, d.manifests, tip)) ==> Lookup(e.manifests, p) == Lookup(d.manifests, p)
    ensures LogShape(agent, e.manifests) && IsLatest(e.manifests, tip)
    ensures Again(d, e, agent, Log(agent, d.manifests, tip), Log(agent, e.manifests, tip), bound)
  {
    var chain := Log(agent, d.manifests, tip);
    LogUnlinkable(agent, d.manifests, tip);
    OverElsewhere(d, agent, chain, e, part, bound);
    LogNow(agent, d.manifests, e.manifests, tip, bound);
    LogNames(agent, e.manifests, tip);
    var now := Log(agent, e.manifests, tip);
    forall i | 0 <= i < |now| ensures now[i].path in e.manifests && now[i].manifest == e.manifests[now[i].path] {
      assert now[i] in now;
    }
    OverHandsOver(d, chain, RollbackWrites(d, agent, chain), e, part, bound, now);
  }

  lemma CutMeets(d: Disk, agent: Agent, tip: Path, k: nat) returns (bound: nat)
    requires LogShape(agent, d.manifests) && IsLatest(d.manifests, tip)
    requires var run := UnlinkChain(d, agent, Log(agent, d.manifests, tip)); run.ok && k < |run.writes|
    ensures var chain := Log(agent, d.manifests, tip);
            var e := Replay(d, UnlinkChain(d, agent, chain).writes[..k]);
            && LogShape(agent, e.manifests) && IsLatest(e.manifests, tip)
            && Again(d, e, agent, chain, Log(agent, e.manifests, tip), bound)
  {
    var chain := Log(agent, d.manifests, tip);
    var e := Replay(d, UnlinkChain(d, agent, chain).writes[..k]);
    LogUnlinkable(agent, d.manifests, tip);
    var part, b := CutReaches(d, agent, chain, k);
    bound := b;
    if k < |GrantWrites(d, chain)| {
      MeetsEarly(d, agent, tip, e, k);
    } else {
      CutMarks(d, agent, chain, k);
      MeetsLate(d, agent, tip, e, part, bound);
    }
  }

  lemma SecondRun(d: Disk, e: Disk, agent: Agent, chain: seq<Link>, now: seq<Link>, bound: nat)
    requires UnlinkChain(d, agent, chain).ok && PlainChain(chain) && Again(d, e, agent, chain, now, bound)
    ensures var again := UnlinkChain(e, agent, now);
            && (again.ok <==> Standing(e.files, chain) && BindingStands(Lookup(e.bindings, agent), chain))
            && (!again.ok ==> again.writes == [])
  {
    SecondAccepted(d, e, agent, chain, now, bound);
    SecondHandoff(d, e, chain, now);
  }

  lemma SecondBindings(d: Disk, e: Disk, f: Disk, g: Disk, agent: Agent)
    requires Lookup(g.bindings, agent) == Lookup(f.bindings, agent)
    requires forall a :: a != agent ==>
               Lookup(e.bindings, a) == Lookup(d.bindings, a) == Lookup(f.bindings, a) && Lookup(g.bindings, a) == Lookup(e.bindings, a)
    ensures g.bindings == f.bindings
  {
    forall a ensures Lookup(g.bindings, a) == Lookup(f.bindings, a) {
    }
    SameMaps(g.bindings, f.bindings);
  }

  lemma SecondOutcome(d: Disk, e: Disk, agent: Agent, chain: seq<Link>, now: seq<Link>, bound: nat)
    requires UnlinkChain(d, agent, chain).ok && PlainChain(chain) && Again(d, e, agent, chain, now, bound)
    requires UnlinkChain(e, agent, now).ok && forall i, j :: 0 <= i < j < |chain| ==> chain[i].path != chain[j].path
    ensures SameDisk(Replay(e, UnlinkChain(e, agent, now).writes), Replay(d, UnlinkChain(d, agent, chain).writes))
  {
    UnlinkOutcome(d, agent, chain);
    UnlinkOutcome(e, agent, now);
    var f, g := Replay(d, UnlinkChain(d, agent, chain).writes), Replay(e, UnlinkChain(e, agent, now).writes);
    SecondFiles(d, e, agent, chain, now, bound);
    SecondManifests(d, e, f, g, chain, now, bound);
    SecondBindings(d, e, f, g, agent);
    forall h ensures AuthOf(g, h) == AuthOf(f, h) {
      SecondKeys(d, e, chain, now, h);
    }
  }

  lemma PlainLog(agent: Agent, ms: map<Path, Manifest>, p: Path)
    requires LogShape(agent, ms) && p in ms
    ensures PlainChain(Log(agent, ms, p))
  {
    LogEntries(agent, ms, p);
    forall l, e | l in Log(agent, ms, p) && e in l.manifest.files ensures Plain(e) {
      assert Written(agent, l.path, ms[l.path]);
      assert OwnBackup(e, l.path.stamp);
    }
  }

  // An unlink that was cut anywhere before its end and is run again is
  // accepted exactly if, on the disk it finds, every file besides the shard is
  // still what the newest manifest tracking it left there, and the binding what
  // the newest manifest wrote or replaced. Then it ends in the disk the first
  // run would have left; otherwise it writes nothing.
  lemma RetryOutcome(d: Disk, agent: Agent, root: Option<string>, tip: Path, k: nat)
    requires LogShape(agent, d.manifests) && UnlinkRun(d, agent, root, tip).ok && k < |UnlinkRun(d, agent, root, tip).writes|
    ensures tip in d.manifests
    ensures var chain, e := Log(agent, d.manifests, tip), CutAt(d, agent, root, tip, k);
            var again := UnlinkRun(e, agent, root, tip);
            && (again.ok <==> Standing(e.files, chain) && BindingStands(Lookup(e.bindings, agent), chain))
            && (again.ok ==> SameDisk(Replay(e, again.writes), Replay(d, UnlinkRun(d, agent, root, tip).writes)))
            && (!again.ok ==> again.writes == [])
  {
    UnlinksLatest(d, agent, root, tip);
    TipRun(d, agent, root, tip);
    var chain, e := Log(agent, d.manifests, tip), CutAt(d, agent, root, tip, k);
    var bound := CutMeets(d, agent, tip, k);
    TipRun(e, agent, root, tip);
    PlainLog(agent, d.manifests, tip);
    LogNames(agent, d.manifests, tip);
    SecondRun(d, e, agent, chain, Log(agent, e.manifests, tip), bound);
    if UnlinkChain(e, agent, Log(agent, e.manifests, tip)).ok {
      SecondOutcome(d, e, agent, chain, Log(agent, e.manifests, tip), bound);
    }
  }
}
