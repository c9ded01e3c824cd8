// What an unlink leaves wherever it is cut: keys are handed over first, then
// files and bindings go back, and the marks come last.
module UnlinkCuts {
  import opened Wrappers
  import opened MigrationDisk
  import opened ManifestChain
  import opened ManifestLog
  import opened FileRollback
  import opened BindingRollback
  import opened CredentialHandoff
  import opened Unlink
  import opened LogMarks
  import opened CutUnlink

  // ---- The writes of a rollback ----

  // The paths some manifest of the chain tracks.
  function Originals(chain: seq<Link>): set<Path> {
    set l, e | l in chain && e in l.manifest.files :: e.original
  }

  // A tracked file is removed or restored from its backup, or the agent is rebound.
  predicate IsRollback(w: Write, agent: Agent, tracked: set<Path>) {
    match w
    case RemoveFile(p) => p.File? && p in tracked
    case CopyFile(from, to) => to.File? && to in tracked && from.BackupOf? && from.original == to
    case SetBinding(a, _) => a == agent
    case _ => false
  }

  ghost predicate Rollback(ws: seq<Write>, agent: Agent, tracked: set<Path>) {
    forall w :: w in ws ==> IsRollback(w, agent, tracked)
  }

  predicate EntryRollback(e: FileBackup) {
    e.original.File? && (e.backup.Some? ==> e.backup.value.BackupOf? && e.backup.value.original == e.original)
  }

  ghost predicate EntriesApart(chain: seq<Link>) {
    forall l, e :: l in chain && e in l.manifest.files ==> EntryRollback(e)
  }

  lemma {:induction false} EntriesRollback(entries: seq<FileBackup>, agent: Agent, tracked: set<Path>)
    requires forall e :: e in entries ==> EntryRollback(e) && e.original in tracked
    ensures Rollback(EntriesWrites(entries), agent, tracked)
  {
    if entries != [] {
      assert entries[0] in entries && forall e :: e in entries[1..] ==> e in entries;
      EntriesRollback(entries[1..], agent, tracked);
    }
  }

  lemma {:induction false} ChainRollback(chain: seq<Link>, agent: Agent, tracked: set<Path>)
    requires EntriesApart(chain) && Originals(chain) <= tracked
    ensures Rollback(ChainWrites(chain), agent, tracked)
    decreases |chain|
  {
    if chain != [] {
      assert chain[0] in chain && forall l :: l in chain[1..] ==> l in chain;
      assert Originals(chain[1..]) <= Originals(chain);
      forall e | e in chain[0].manifest.files ensures EntryRollback(e) && e.original in tracked {
        assert e.original in Originals(chain);
      }
      EntriesRollback(chain[0].manifest.files, agent, tracked);
      ChainRollback(chain[1..], agent, tracked);
    }
  }

  lemma {:induction false} BindingRollbacks(agent: Agent, current: Option<Binding>, chain: seq<Link>, tracked: set<Path>)
    ensures Rollback(BindingRun(agent, current, chain).writes, agent, tracked)
    decreases |chain|
  {
    if chain != [] {
      BindingRollbacks(agent, current, chain[1..], tracked);
      if chain[0].manifest.change.Some? {
        BindingRollbacks(agent, chain[0].manifest.change.value.before, chain[1..], tracked);
      }
    }
  }

  lemma RunRollsBack(d: Disk, agent: Agent, chain: seq<Link>)
    requires EntriesApart(chain)
    ensures Rollback(RollbackWrites(d, agent, chain), agent, Originals(chain))
  {
    ChainRollback(chain, agent, Originals(chain));
    BindingRollbacks(agent, Lookup(d.bindings, agent), chain, Originals(chain));
  }

  lemma StepApart(d: Disk, e: Disk, w: Write, agent: Agent, tracked: set<Path>)
    requires IsRollback(w, agent, tracked) && e == d.(auths := e.auths, manifests := e.manifests)
    ensures Step(d, w) == d.(files := Step(d, w).files, bindings := Step(d, w).bindings)
    ensures Step(e, w) == Step(d, w).(auths := e.auths, manifests := e.manifests)
  {
  }

  // A rollback neither reads nor writes keys and manifests ...
  lemma {:induction false} RollbackApart(d: Disk, e: Disk, ws: seq<Write>, agent: Agent, tracked: set<Path>)
    requires Rollback(ws, agent, tracked) && e == d.(auths := e.auths, manifests := e.manifests)
    ensures Replay(d, ws) == d.(files := Replay(d, ws).files, bindings := Replay(d, ws).bindings)
    ensures Replay(e, ws) == Replay(d, ws).(auths := e.auths, manifests := e.manifests)
    decreases |ws|
  {
    if ws != [] {
      assert ws[0] in ws && forall w :: w in ws[1..] ==> w in ws;
      StepApart(d, e, ws[0], agent, tracked);
      RollbackApart(Step(d, ws[0]), Step(e, ws[0]), ws[1..], agent, tracked);
    }
  }

  // ... and only touches tracked files and the agent's own binding.
  lemma {:induction false} RollbackFrame(d: Disk, ws: seq<Write>, agent: Agent, tracked: set<Path>)
    requires Rollback(ws, agent, tracked)
    ensures forall p :: p !in tracked || !p.File? ==> Lookup(Replay(d, ws).files, p) == Lookup(d.files, p)
    ensures forall a :: a != agent ==> Lookup(Replay(d, ws).bindings, a) == Lookup(d.bindings, a)
    decreases |ws|
  {
    if ws != [] {
      assert ws[0] in ws && forall w :: w in ws[1..] ==> w in ws;
      RollbackFrame(Step(d, ws[0]), ws[1..], agent, tracked);
    }
  }

  // ---- The handoff ----

  // The grants a handoff begins with.
  function GrantWrites(d: Disk, chain: seq<Link>): seq<Write>
    requires chain != []
  {
    if (forall l :: l in chain ==> l.manifest.handoff) || Loaded(d, chain).Err? then []
    else Grants(d, chain, Loaded(d, chain).value).writes
  }

  lemma {:induction false} NothingToMark(chain: seq<Link>)
    requires forall l :: l in chain ==> l.manifest.handoff
    ensures MarkHandoff(chain) == []
  {
    if chain != [] {
      assert chain[0] in chain && forall l :: l in chain[1..] ==> l in chain;
      NothingToMark(chain[1..]);
    }
  }

  lemma HandoffSplits(d: Disk, chain: seq<Link>)
    requires chain != []
    ensures forall w :: w in GrantWrites(d, chain) ==> IsGrant(w)
    ensures HandoffRun(d, chain).ok ==> HandoffRun(d, chain).writes == GrantWrites(d, chain) + MarkHandoff(chain)
    ensures !HandoffRun(d, chain).ok ==> forall w :: w in HandoffRun(d, chain).writes ==> IsGrant(w)
  {
    if forall l :: l in chain ==> l.manifest.handoff {
      NothingToMark(chain);
    } else if Loaded(d, chain).Ok? {
      var accounts := Loaded(d, chain).value;
      GrantsOnly(d, chain, ById(accounts), BySource(accounts), RequiresCredentials(chain[0].manifest), Ascending(Homes(chain)));
    }
  }

  // Every manifest of the chain is recorded as handed off.
  ghost predicate Recorded(ms: map<Path, Manifest>, chain: seq<Link>) {
    forall l :: l in chain ==> l.path in ms && ms[l.path].handoff
  }

  lemma {:induction false} AllRecorded(d: Disk, ms: map<Path, Manifest>, chain: seq<Link>)
    requires Advanced(ms, d.manifests, 0) && Descends(ms, chain)
    ensures Recorded(Replay(d, MarkHandoff(chain)).manifests, chain)
    decreases |chain|
  {
    if chain != [] {
      var l, rest := chain[0], chain[1..];
      if Pending(l.manifest) {
        var w := [WriteManifest(l.path, l.manifest.(handoff := true))];
        ReplayConcat(d, w, MarkHandoff(rest));
        HandoffMark(d, ms, l);
        ReplayOne(d, w[0]);
        AllRecorded(Replay(d, w), ms, rest);
        MarkStays(Replay(d, w), rest, l.path);
      } else {
        assert MarkHandoff(chain) == MarkHandoff(rest);
        AllRecorded(d, ms, rest);
        assert Ahead(l.path, ms[l.path], d.manifests[l.path], 0);
        MarkStays(d, rest, l.path);
      }
      assert forall x :: x in chain <==> x == l || x in rest;
    }
  }

  lemma {:induction false} MarkStays(d: Disk, chain: seq<Link>, p: Path)
    requires p in d.manifests && d.manifests[p].handoff
    ensures p in Replay(d, MarkHandoff(chain)).manifests && Replay(d, MarkHandoff(chain)).manifests[p].handoff
    decreases |chain|
  {
    if chain != [] {
      var w := if Pending(chain[0].manifest) then [WriteManifest(chain[0].path, chain[0].manifest.(handoff := true))] else [];
      ReplayConcat(d, w, MarkHandoff(chain[1..]));
      if w != [] {
        ReplayOne(d, w[0]);
      }
      MarkStays(Replay(d, w), chain[1..], p);
    }
  }

  // ---- Every cut ----

  // The keys `auths` are handed over; `part` of the rollback has followed, and
  // then the manifests below `bound` were marked.
  ghost predicate HandedOver(d: Disk, auths: map<Home, map<Provider, Secret>>, rollback: seq<Write>, chain: seq<Link>,
                             e: Disk, part: nat, bound: nat) {
    && part <= |rollback|
    && e == Replay(d, rollback[..part]).(auths := auths, manifests := e.manifests)
    && Advanced(d.manifests, e.manifests, bound)
    && (Recorded(e.manifests, chain) || (part == 0 && bound == 0))
    && (bound > 0 ==> part == |rollback|)
  }

  lemma AdvancedNow(ms: map<Path, Manifest>)
    ensures Advanced(ms, ms, 0)
  {
    forall p | p in ms ensures Ahead(p, ms[p], ms[p], 0) {
    }
  }

  lemma GrantsCut(d: Disk, ws: seq<Write>, k: nat)
    requires k <= |ws| && forall w :: w in ws ==> IsGrant(w)
    ensures OnlyKeysAdded(d, Replay(d, ws[..k]))
  {
    assert forall w :: w in ws[..k] ==> w in ws;
    GrantsAddKeys(d, ws[..k]);
  }

  // While the handoff is being recorded.
  lemma RecordingCut(d: Disk, rollback: seq<Write>, grants: seq<Write>, chain: seq<Link>, k: nat)
    requires Descends(d.manifests, chain) && k <= |MarkHandoff(chain)| && forall w :: w in grants ==> IsGrant(w)
    ensures HandedOver(d, Replay(d, grants).auths, rollback, chain, Replay(Replay(d, grants), MarkHandoff(chain)[..k]), 0, 0)
  {
    GrantsAddKeys(d, grants);
    AdvancedNow(d.manifests);
    HandoffMarksCut(Replay(d, grants), d.manifests, chain, k);
    assert rollback[..0] == [];
  }

  lemma HandoffDone(d: Disk, rollback: seq<Write>, grants: seq<Write>, chain: seq<Link>)
    requires Descends(d.manifests, chain) && forall w :: w in grants ==> IsGrant(w)
    ensures var e := Replay(Replay(d, grants), MarkHandoff(chain));
            HandedOver(d, Replay(d, grants).auths, rollback, chain, e, 0, 0) && Recorded(e.manifests, chain)
  {
    var marks := MarkHandoff(chain);
    assert marks[..|marks|] == marks;
    RecordingCut(d, rollback, grants, chain, |marks|);
    GrantsAddKeys(d, grants);
    AdvancedNow(d.manifests);
    AllRecorded(Replay(d, grants), d.manifests, chain);
  }

  // While files and bindings go back.
  lemma RollbackCut(d: Disk, auths: map<Home, map<Provider, Secret>>, rollback: seq<Write>, chain: seq<Link>,
                    e: Disk, part: nat, agent: Agent, tracked: set<Path>)
    requires Rollback(rollback, agent, tracked) && part <= |rollback|
    requires HandedOver(d, auths, rollback, chain, e, 0, 0) && Recorded(e.manifests, chain)
    ensures HandedOver(d, auths, rollback, chain, Replay(e, rollback[..part]), part, 0)
    ensures Recorded(Replay(e, rollback[..part]).manifests, chain)
  {
    assert rollback[..0] == [];
    assert forall w :: w in rollback[..part] ==> w in rollback;
    RollbackApart(d, e, rollback[..part], agent, tracked);
  }

  // While the manifests are marked.
  lemma MarkingCut(d: Disk, auths: map<Home, map<Provider, Secret>>, rollback: seq<Write>, chain: seq<Link>,
                   e: Disk, k: nat) returns (bound: nat)
    requires chain != [] && Descends(d.manifests, chain) && ActiveOrder(d.manifests) && k <= |UnlinkMarks(chain)|
    requires HandedOver(d, auths, rollback, chain, e, |rollback|, 0) && Recorded(e.manifests, chain)
    ensures HandedOver(d, auths, rollback, chain, Replay(e, UnlinkMarks(chain)[..k]), |rollback|, bound)
    ensures chain[0].path.ManifestAt?
    ensures if k < |UnlinkMarks(chain)| then bound <= chain[0].path.stamp else bound == chain[0].path.stamp + 1
  {
    bound := UnlinkMarksCut(e, d.manifests, chain, k);
    MarksStillRecorded(e, chain, k);
  }

  lemma {:induction false} UnlinkMarksOnly(chain: seq<Link>)
    ensures forall w :: w in UnlinkMarks(chain) ==> w.WriteManifest? && w.manifest.handoff
  {
    if chain != [] {
      UnlinkMarksOnly(chain[1..]);
    }
  }

  lemma {:induction false} MarkWritesRecorded(d: Disk, ws: seq<Write>, chain: seq<Link>)
    requires Recorded(d.manifests, chain) && forall w :: w in ws ==> w.WriteManifest? && w.manifest.handoff
    ensures Recorded(Replay(d, ws).manifests, chain)
    decreases |ws|
  {
    if ws != [] {
      assert ws[0] in ws && forall w :: w in ws[1..] ==> w in ws;
      MarkWritesRecorded(Step(d, ws[0]), ws[1..], chain);
    }
  }

  lemma MarksStillRecorded(e: Disk, chain: seq<Link>, k: nat)
    requires Recorded(e.manifests, chain) && k <= |UnlinkMarks(chain)|
    ensures Recorded(Replay(e, UnlinkMarks(chain)[..k]).manifests, chain)
  {
    UnlinkMarksOnly(chain);
    MarkWritesRecorded(e, UnlinkMarks(chain)[..k], chain);
  }

  // The log an unlink works on.
  ghost predicate Unlinkable(ms: map<Path, Manifest>, chain: seq<Link>) {
    chain != [] && Descends(ms, chain) && ActiveOrder(ms) && EntriesApart(chain)
  }

  lemma AfterRollback(d: Disk, agent: Agent, auths: map<Home, map<Provider, Secret>>, rollback: seq<Write>, chain: seq<Link>,
                      e: Disk, k: nat) returns (bound: nat)
    requires Unlinkable(d.manifests, chain) && Rollback(rollback, agent, Originals(chain)) && k <= |UnlinkMarks(chain)|
    requires HandedOver(d, auths, rollback, chain, e, 0, 0) && Recorded(e.manifests, chain)
    ensures var f := Replay(Replay(e, rollback), UnlinkMarks(chain)[..k]);
            HandedOver(d, auths, rollback, chain, f, |rollback|, bound) && Recorded(f.manifests, chain)
    ensures chain[0].path.ManifestAt?
    ensures if k < |UnlinkMarks(chain)| then bound <= chain[0].path.stamp else bound == chain[0].path.stamp + 1
  {
    assert rollback[..|rollback|] == rollback;
    RollbackCut(d, auths, rollback, chain, e, |rollback|, agent, Originals(chain));
    bound := MarkingCut(d, auths, rollback, chain, Replay(e, rollback), k);
    MarksStillRecorded(Replay(e, rollback), chain, k);
  }

  lemma AfterHandoff(d: Disk, agent: Agent, grants: seq<Write>, rollback: seq<Write>, chain: seq<Link>, k: nat)
    returns (part: nat, bound: nat)
    requires Unlinkable(d.manifests, chain) && forall w :: w in grants ==> IsGrant(w)
    requires Rollback(rollback, agent, Originals(chain)) && k <= |rollback + UnlinkMarks(chain)|
    ensures var e := Replay(Replay(Replay(d, grants), MarkHandoff(chain)), (rollback + UnlinkMarks(chain))[..k]);
            HandedOver(d, Replay(d, grants).auths, rollback, chain, e, part, bound) && Recorded(e.manifests, chain)
    ensures chain[0].path.ManifestAt?
    ensures if k < |rollback + UnlinkMarks(chain)| then bound <= chain[0].path.stamp else bound == chain[0].path.stamp + 1
    ensures part == if k <= |rollback| then k else |rollback|
  {
    HandoffDone(d, rollback, grants, chain);
    var e := Replay(Replay(d, grants), MarkHandoff(chain));
    var auths := Replay(d, grants).auths;
    CutOfConcat(e, rollback, UnlinkMarks(chain), k);
    part, bound := k, 0;
    if k < |rollback| {
      assert Stored(d.manifests, chain[0]);
      RollbackCut(d, auths, rollback, chain, e, k, agent, Originals(chain));
    } else {
      part := |rollback|;
      bound := AfterRollback(d, agent, auths, rollback, chain, e, k - part);
    }
  }

  // A complete unlink, cut after `k` of its writes, is still granting keys or
  // has handed all of them over.
  lemma CutReaches(d: Disk, agent: Agent, chain: seq<Link>, k: nat) returns (part: nat, bound: nat)
    requires UnlinkChain(d, agent, chain).ok && Unlinkable(d.manifests, chain)
    requires k <= |UnlinkChain(d, agent, chain).writes|
    ensures var e := Replay(d, UnlinkChain(d, agent, chain).writes[..k]);
            var grants := GrantWrites(d, chain);
            if k < |grants| then e == Replay(d, grants[..k]) && OnlyKeysAdded(d, e) && bound == 0
            else HandedOver(d, Replay(d, grants).auths, RollbackWrites(d, agent, chain), chain, e, part, bound)
    ensures chain[0].path.ManifestAt?
    ensures if k < |UnlinkChain(d, agent, chain).writes| then bound <= chain[0].path.stamp else bound == chain[0].path.stamp + 1
    ensures k >= |UnlinkChain(d, agent, chain).writes| - |UnlinkMarks(chain)| ==>
              k >= |GrantWrites(d, chain)| && part == |RollbackWrites(d, agent, chain)|
  {
    var grants, rollback := GrantWrites(d, chain), RollbackWrites(d, agent, chain);
    HandoffSplits(d, chain);
    RunRollsBack(d, agent, chain);
    part, bound := PartsCut(d, agent, grants, rollback, chain, k);
  }

  lemma PartsCut(d: Disk, agent: Agent, grants: seq<Write>, rollback: seq<Write>, chain: seq<Link>, k: nat)
    returns (part: nat, bound: nat)
    requires Unlinkable(d.manifests, chain) && forall w :: w in grants ==> IsGrant(w)
    requires Rollback(rollback, agent, Originals(chain))
    requires k <= |(grants + MarkHandoff(chain)) + (rollback + UnlinkMarks(chain))|
    ensures var e := Replay(d, ((grants + MarkHandoff(chain)) + (rollback + UnlinkMarks(chain)))[..k]);
            if k < |grants| then e == Replay(d, grants[..k]) && OnlyKeysAdded(d, e) && bound == 0
            else HandedOver(d, Replay(d, grants).auths, rollback, chain, e, part, bound)
    ensures chain[0].path.ManifestAt?
    ensures if k < |(grants + MarkHandoff(chain)) + (rollback + UnlinkMarks(chain))| then bound <= chain[0].path.stamp
            else bound == chain[0].path.stamp + 1
    ensures k >= |grants| + |MarkHandoff(chain)| + |rollback| ==> k >= |grants| && part == |rollback|
  {
    var marks, rest := MarkHandoff(chain), rollback + UnlinkMarks(chain);
    CutOfConcat(d, grants + marks, rest, k);
    ReplayConcat(d, grants, marks);
    assert Stored(d.manifests, chain[0]) && |UnlinkMarks(chain)| > 0;
    if k < |grants| {
      part, bound := 0, 0;
      CutOfConcat(d, grants, marks, k);
      GrantsCut(d, grants, k);
    } else if k < |grants + marks| {
      part, bound := 0, 0;
      CutOfConcat(d, grants, marks, k);
      RecordingCut(d, rollback, grants, chain, k - |grants|);
    } else {
      part, bound := AfterHandoff(d, agent, grants, rollback, chain, k - |grants + marks|);
    }
  }

  // ---- What the log looks like then ----

  // The newest active manifest after marks were added.
  function LatestNow(now: map<Path, Manifest>, tip: Path): Option<Path> {
    if tip in now && !now[tip].unlinked then Some(tip) else None
  }

  lemma LatestAdvanced(ms: map<Path, Manifest>, now: map<Path, Manifest>, tip: Path, bound: nat)
    requires Advanced(ms, now, bound) && IsLatest(ms, tip)
    ensures LatestIs(now, LatestNow(now, tip))
  {
    forall q | Active(now, q) ensures Active(ms, q) && q.stamp >= bound {
      assert Ahead(q, ms[q], now[q], bound);
    }
    assert Ahead(tip, ms[tip], now[tip], bound);
  }

  // `after` is `before` with marks added, link by link.
  ghost predicate SameLog(before: seq<Link>, after: seq<Link>, bound: nat) {
    && |before| == |after|
    && forall i :: 0 <= i < |before| ==>
         before[i].path == after[i].path && Ahead(before[i].path, before[i].manifest, after[i].manifest, bound)
  }

  lemma {:induction false} LogAdvanced(agent: Agent, ms: map<Path, Manifest>, now: map<Path, Manifest>, p: Path, bound: nat)
    requires LogShape(agent, ms) && LogShape(agent, now) && Advanced(ms, now, bound) && p in ms
    ensures SameLog(Log(agent, ms, p), Log(agent, now, p), bound)
    decreases p.stamp
  {
    assert Written(agent, p, ms[p]) && Ahead(p, ms[p], now[p], bound);
    match ms[p].previous
    case None =>
      LogEnds(agent, ms, p);
      LogEnds(agent, now, p);
    case Some(q) =>
      LogSteps(agent, ms, p, q);
      LogSteps(agent, now, p, q);
      LogAdvanced(agent, ms, now, q, bound);
      LogGrows(Link(p, ms[p]), Link(p, now[p]), Log(agent, ms, q), Log(agent, now, q), bound);
  }

  lemma LogEnds(agent: Agent, ms: map<Path, Manifest>, p: Path)
    requires LogShape(agent, ms) && p in ms && ms[p].previous == None
    ensures Log(agent, ms, p) == [Link(p, ms[p])]
  {
  }

  lemma LogGrows(l: Link, n: Link, before: seq<Link>, after: seq<Link>, bound: nat)
    requires SameLog(before, after, bound) && l.path == n.path && Ahead(l.path, l.manifest, n.manifest, bound)
    ensures SameLog([l] + before, [n] + after, bound)
  {
    var x, y := [l] + before, [n] + after;
    forall i | 0 <= i < |x| ensures x[i].path == y[i].path && Ahead(x[i].path, x[i].manifest, y[i].manifest, bound) {
      if i > 0 {
        assert x[i] == before[i - 1] && y[i] == after[i - 1];
      }
    }
  }

  lemma LogSteps(agent: Agent, ms: map<Path, Manifest>, p: Path, q: Path)
    requires LogShape(agent, ms) && p in ms && ms[p].previous == Some(q) && p.ManifestAt?
    ensures q in ms && Log(agent, ms, p) == [Link(p, ms[p])] + Log(agent, ms, q)
  {
  }

  lemma LogUnlinkable(agent: Agent, ms: map<Path, Manifest>, p: Path)
    requires LogShape(agent, ms) && p in ms
    ensures Unlinkable(ms, Log(agent, ms, p))
  {
    LogDescends(agent, ms, p);
    LogEntries(agent, ms, p);
    forall l, e | l in Log(agent, ms, p) && e in l.manifest.files ensures EntryRollback(e) {
      assert Written(agent, l.path, ms[l.path]);
    }
  }

  // No backup copy in the log is itself a tracked file.
  lemma LogBackupsApart(agent: Agent, ms: map<Path, Manifest>, p: Path)
    requires LogShape(agent, ms) && p in ms
    ensures BackupsApart(Log(agent, ms, p))
  {
    LogUnlinkable(agent, ms, p);
    EntriesBackups(Log(agent, ms, p));
  }

  lemma EntriesBackups(chain: seq<Link>)
    requires EntriesApart(chain)
    ensures BackupsApart(chain)
  {
    forall l, e, k, f | l in chain && e in l.manifest.files && k in chain && f in k.manifest.files && e.backup.Some?
      ensures e.backup.value != f.original {
      assert EntryRollback(e) && EntryRollback(f);
    }
  }

  // Only the newest active manifest can be unlinked.
  lemma OnlyTipUnlinks(d: Disk, agent: Agent, root: Option<string>, p: Path, latest: Option<Path>)
    requires LogShape(agent, d.manifests) && LatestIs(d.manifests, latest) && latest != Some(p)
    ensures UnlinkRun(d, agent, root, p) == Run([], false)
  {
    if p in d.manifests {
      LogIsChain(agent, d.manifests, root, p);
      if !d.manifests[p].unlinked {
        assert Written(agent, p, d.manifests[p]) && Active(d.manifests, p);
        var q := latest.value;
        LogIsChain(agent, d.manifests, root, q);
        ActiveInLog(agent, d.manifests, q, p);
        assert Written(agent, q, d.manifests[q]);
        assert Succeeds(d.manifests, agent, root, p, q);
      }
    }
  }

  lemma UnlinksLatest(d: Disk, agent: Agent, root: Option<string>, p: Path)
    requires LogShape(agent, d.manifests) && UnlinkRun(d, agent, root, p).ok
    ensures IsLatest(d.manifests, p)
  {
    var latest := SomeLatest(d.manifests);
    if latest != Some(p) {
      OnlyTipUnlinks(d, agent, root, p, latest);
    }
  }

  lemma SomeLatest(ms: map<Path, Manifest>) returns (latest: Option<Path>)
    ensures LatestIs(ms, latest)
  {
    latest := LatestAmong(ms, ms.Keys);
  }

  lemma {:induction false} LatestAmong(ms: map<Path, Manifest>, ps: set<Path>) returns (latest: Option<Path>)
    requires ps <= ms.Keys
    ensures match latest
            case Some(p) => p in ps && Active(ms, p) && forall q :: q in ps && Active(ms, q) ==> q.stamp <= p.stamp
            case None => forall q :: q in ps ==> !Active(ms, q)
    decreases |ps|
  {
    latest := None;
    if ps != {} {
      var p :| p in ps;
      latest := LatestAmong(ms, ps - {p});
      if Active(ms, p) && (latest.None? || latest.value.stamp < p.stamp) {
        latest := Some(p);
      }
      assert forall q :: q in ps ==> q == p || q in ps - {p};
    }
  }

  lemma TipRun(d: Disk, agent: Agent, root: Option<string>, p: Path)
    requires LogShape(agent, d.manifests) && IsLatest(d.manifests, p)
    ensures UnlinkRun(d, agent, root, p) == UnlinkChain(d, agent, Log(agent, d.manifests, p))
  {
    LogIsChain(agent, d.manifests, root, p);
    TipHasNoSuccessor(agent, d.manifests, root, p);
  }
}
