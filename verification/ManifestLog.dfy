// The shape of the manifest log of one agent: which manifests are active, and
// how they hang together.
module ManifestLog {
  import opened Wrappers
  import opened MigrationDisk
  import opened ManifestChain

  predicate Active(ms: map<Path, Manifest>, p: Path) {
    p in ms && p.ManifestAt? && !ms[p].unlinked
  }

  // The greatest active manifest in name order.
  ghost predicate IsLatest(ms: map<Path, Manifest>, p: Path) {
    Active(ms, p) && forall q :: Active(ms, q) ==> q.stamp <= p.stamp
  }

  ghost predicate NoneActive(ms: map<Path, Manifest>) {
    forall q :: !Active(ms, q)
  }

  ghost predicate LatestIs(ms: map<Path, Manifest>, r: Option<Path>) {
    match r case Some(p) => IsLatest(ms, p) case None => NoneActive(ms)
  }

  // `listing` is the sorted directory listing; it is searched from the end.
  method LatestActive(ms: map<Path, Manifest>, listing: seq<nat>) returns (r: Option<Path>)
    requires forall i, j :: 0 <= i < j < |listing| ==> listing[i] < listing[j]
    requires forall n: nat :: ManifestAt(n) in ms <==> n in listing
    ensures LatestIs(ms, r)
  {
    var i := |listing|;
    while i > 0
      invariant 0 <= i <= |listing|
      invariant forall j :: i <= j < |listing| ==> !Active(ms, ManifestAt(listing[j]))
    {
      i := i - 1;
      var p := ManifestAt(listing[i]);
      if !ms[p].unlinked {
        forall q | Active(ms, q) ensures q.stamp <= p.stamp {
          assert ManifestAt(q.stamp) in ms;
          var j :| 0 <= j < |listing| && listing[j] == q.stamp;
        }
        return Some(p);
      }
    }
    forall q | q in ms && q.ManifestAt? ensures !Active(ms, q) {
      assert ManifestAt(q.stamp) in ms;
    }
    r := None;
  }

  // Invariant of the log under increasing names. `older` unlinked manifests
  // come first; each active manifest leads to the next lower active one.
  ghost predicate LogShape(agent: Agent, ms: map<Path, Manifest>) {
    && (forall p :: p in ms ==> Written(agent, p, ms[p]))
    && LeadsBack(ms) && ActiveOrder(ms)
  }

  ghost predicate LeadsBack(ms: map<Path, Manifest>) {
    forall p :: p in ms && p.ManifestAt? && ms[p].previous.Some? ==>
      ms[p].previous.value in ms && ms[p].previous.value.ManifestAt? && ms[p].previous.value.stamp < p.stamp
  }

  ghost predicate ActiveOrder(ms: map<Path, Manifest>) {
    && (forall p, q :: Active(ms, p) && q in ms && q.ManifestAt? && ms[q].unlinked ==> q.stamp < p.stamp)
    && (forall p, q :: Active(ms, p) && Active(ms, q) && q.stamp < p.stamp ==>
          ms[p].previous.Some? && ms[p].previous.value.ManifestAt? && q.stamp <= ms[p].previous.value.stamp)
  }

  // What every manifest written by a current link or sync looks like.
  predicate Written(agent: Agent, p: Path, m: Manifest) {
    && p.ManifestAt?
    && m.agent == agent && m.version == CURRENT_VERSION
    && (m.previous.Some? ==> m.previous.value.ManifestAt?)
    && !HasRelativePath(m) && (m.shard.Some? ==> m.shard.value == SHARD)
    && (m.home.None? ==> m.handoff) && (m.home.Some? ==> m.routes != []) && (m.shard.None? ==> m.imported == [])
    && (forall e :: e in m.files ==> OwnBackup(e, p.stamp))
  }

  // The entry of an ordinary file: a backup of its own, or none if the file was created.
  predicate OwnBackup(e: FileBackup, stamp: nat) {
    && e.original.File?
    && (e.backup.Some? ==> e.backup.value == BackupOf(e.original, stamp))
    && (e.created <==> e.backup.None?)
  }

  // The log from `p` down to its root.
  function Log(agent: Agent, ms: map<Path, Manifest>, p: Path): seq<Link>
    requires LogShape(agent, ms) && p in ms
    decreases p.stamp
  {
    [Link(p, ms[p])] + (match ms[p].previous case None => [] case Some(q) => Log(agent, ms, q))
  }

  lemma {:induction false} LogIsChain(agent: Agent, ms: map<Path, Manifest>, root: Option<string>, p: Path)
    requires LogShape(agent, ms) && p in ms
    ensures ManifestChainOf(ms, agent, root, p) == Ok(Log(agent, ms, p))
  {
    LogWalk(agent, ms, root, p, [], {});
    assert [] + Log(agent, ms, p) == Log(agent, ms, p);
  }

  lemma WrittenVisit(agent: Agent, ms: map<Path, Manifest>, root: Option<string>, p: Path, seen: set<Path>)
    requires p in ms && Written(agent, p, ms[p]) && p !in seen
    ensures Visit(ms, agent, root, seen, None, p) == Ok(Link(p, ms[p]))
    ensures NowRelative(ms, None, p) == None
  {
  }

  lemma {:induction false} LogWalk(agent: Agent, ms: map<Path, Manifest>, root: Option<string>, p: Path, walked: seq<Link>, seen: set<Path>)
    requires LogShape(agent, ms) && p in ms
    requires forall q :: q in seen ==> q.ManifestAt? && p.stamp < q.stamp
    ensures ChainFrom(ms, agent, root, walked, seen, None, Some(p)) == Ok(walked + Log(agent, ms, p))
    decreases p.stamp
  {
    var m := ms[p];
    var l := Link(p, m);
    WrittenVisit(agent, ms, root, p, seen);
    if m.previous.Some? {
      LogWalk(agent, ms, root, m.previous.value, walked + [l], seen + {p});
      assert walked + ([l] + Log(agent, ms, m.previous.value)) == (walked + [l]) + Log(agent, ms, m.previous.value);
    } else {
      assert walked + [l] == walked + Log(agent, ms, p);
    }
  }

  lemma {:induction false} LogEntries(agent: Agent, ms: map<Path, Manifest>, p: Path)
    requires LogShape(agent, ms) && p in ms
    ensures forall l :: l in Log(agent, ms, p) ==> l.path in ms && l.manifest == ms[l.path] && l.path.stamp <= p.stamp
    ensures forall l :: l in Log(agent, ms, p)[1..] ==> l.path.stamp < p.stamp
    decreases p.stamp
  {
    match ms[p].previous
    case None =>
    case Some(q) => LogEntries(agent, ms, q);
  }

  // Every active manifest at or below an active one is an ancestor of it.
  lemma {:induction false} ActiveInLog(agent: Agent, ms: map<Path, Manifest>, p: Path, q: Path)
    requires LogShape(agent, ms) && Active(ms, p) && Active(ms, q) && q.stamp <= p.stamp
    ensures q in Paths(Log(agent, ms, p))
    ensures q != p ==> q in Paths(Log(agent, ms, p)[1..])
    decreases p.stamp
  {
    var log := Log(agent, ms, p);
    if q == p {
      assert log[0].path == p;
      assert log[0] in log;
    } else {
      assert q.stamp < p.stamp;
      var next := ms[p].previous.value;
      assert log[1..] == Log(agent, ms, next);
      assert !ms[next].unlinked;
      ActiveInLog(agent, ms, next, q);
      assert forall l :: l in log[1..] ==> l in log;
    }
  }

  // The unlinked manifests are closed under `previous_manifest`.
  lemma UnlinkedIsClosed(agent: Agent, ms: map<Path, Manifest>, p: Path)
    requires LogShape(agent, ms) && p in ms && ms[p].unlinked && ms[p].previous.Some?
    ensures ms[p].previous.value in ms && ms[ms[p].previous.value].unlinked
  {
    var q := ms[p].previous.value;
    assert Written(agent, q, ms[q]);
  }

  // Starting at the answer of `latest_active`, the log consists of all the
  // active manifests followed only by unlinked ones.
  lemma {:induction false} ActiveFormOneChain(agent: Agent, ms: map<Path, Manifest>, tip: Path) returns (n: nat)
    requires LogShape(agent, ms) && IsLatest(ms, tip)
    ensures 0 < n <= |Log(agent, ms, tip)|
    ensures forall i :: 0 <= i < |Log(agent, ms, tip)| ==> (!Log(agent, ms, tip)[i].manifest.unlinked <==> i < n)
    ensures forall q :: Active(ms, q) <==> exists i :: 0 <= i < n && Log(agent, ms, tip)[i].path == q
  {
    n := ActivePrefix(agent, ms, tip);
    var log := Log(agent, ms, tip);
    LogEntries(agent, ms, tip);
    forall q ensures Active(ms, q) <==> exists i :: 0 <= i < n && log[i].path == q {
      if Active(ms, q) {
        ActiveInLog(agent, ms, tip, q);
        var i :| 0 <= i < |log| && log[i].path == q;
        assert log[i] in log;
      }
      if i :| 0 <= i < n && log[i].path == q {
        assert log[i] in log;
        assert Written(agent, q, ms[q]);
      }
    }
  }

  lemma {:induction false} ActivePrefix(agent: Agent, ms: map<Path, Manifest>, p: Path) returns (n: nat)
    requires LogShape(agent, ms) && p in ms
    ensures n <= |Log(agent, ms, p)|
    ensures forall i :: 0 <= i < |Log(agent, ms, p)| ==> (!Log(agent, ms, p)[i].manifest.unlinked <==> i < n)
    ensures !ms[p].unlinked ==> n > 0
    decreases p.stamp
  {
    var log := Log(agent, ms, p);
    match ms[p].previous
    case None => n := if ms[p].unlinked then 0 else 1;
    case Some(q) =>
      var rest := ActivePrefix(agent, ms, q);
      assert forall i :: 1 <= i < |log| ==> log[i] == Log(agent, ms, q)[i - 1];
      if ms[p].unlinked {
        UnlinkedIsClosed(agent, ms, p);
        n := 0;
        assert Log(agent, ms, q)[0].manifest.unlinked;
      } else {
        n := rest + 1;
      }
  }
}
