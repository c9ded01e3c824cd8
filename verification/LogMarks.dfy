// The manifest log keeps its shape wherever an unlink is cut, also while it
// marks manifests.
module LogMarks {
  import opened Wrappers
  import opened MigrationDisk
  import opened ManifestChain
  import opened ManifestLog
  import opened CredentialHandoff
  import opened Unlink
  import opened CutUnlink

  // `n` is `m` with marks added; the unlinked mark exactly below `bound`.
  predicate Ahead(p: Path, m: Manifest, n: Manifest, bound: nat) {
    && n == m.(handoff := n.handoff, unlinked := n.unlinked)
    && (m.handoff ==> n.handoff)
    && (n.unlinked <==> m.unlinked || (p.ManifestAt? && p.stamp < bound))
  }

  // The same manifests with marks added, unlinked marks from the lowest name up.
  ghost predicate Advanced(ms: map<Path, Manifest>, now: map<Path, Manifest>, bound: nat) {
    && ms.Keys == now.Keys
    && forall p :: p in ms ==> Ahead(p, ms[p], now[p], bound)
  }

  lemma AdvancedWritten(agent: Agent, p: Path, m: Manifest, n: Manifest, bound: nat)
    requires Written(agent, p, m) && Ahead(p, m, n, bound)
    ensures Written(agent, p, n)
  {
    assert RestorePaths(n) == RestorePaths(m);
  }

  lemma AdvancedLeadsBack(ms: map<Path, Manifest>, now: map<Path, Manifest>, bound: nat)
    requires LeadsBack(ms) && Advanced(ms, now, bound)
    ensures LeadsBack(now)
  {
    forall p | p in now && p.ManifestAt? && now[p].previous.Some?
      ensures now[p].previous.value in now && now[p].previous.value.ManifestAt? && now[p].previous.value.stamp < p.stamp {
      assert Ahead(p, ms[p], now[p], bound);
    }
  }

  lemma AdvancedOrder(ms: map<Path, Manifest>, now: map<Path, Manifest>, bound: nat)
    requires ActiveOrder(ms) && Advanced(ms, now, bound)
    ensures ActiveOrder(now)
  {
    forall p | p in now ensures Ahead(p, ms[p], now[p], bound) {
    }
    forall p | Active(now, p) ensures Active(ms, p) && p.stamp >= bound && now[p].previous == ms[p].previous {
    }
  }

  // Marks added from the oldest manifest upwards keep the shape.
  lemma ShapeAdvanced(agent: Agent, ms: map<Path, Manifest>, now: map<Path, Manifest>, bound: nat)
    requires LogShape(agent, ms) && Advanced(ms, now, bound)
    ensures LogShape(agent, now)
  {
    forall p | p in now ensures Written(agent, p, now[p]) {
      AdvancedWritten(agent, p, ms[p], now[p], bound);
    }
    AdvancedLeadsBack(ms, now, bound);
    AdvancedOrder(ms, now, bound);
  }

  // ---- Cuts of the handoff marks ----

  predicate Stored(ms: map<Path, Manifest>, l: Link) {
    l.path in ms && l.path.ManifestAt? && l.manifest == ms[l.path]
  }

  // A chain of stored manifests with falling names, down to one without predecessor.
  predicate Descends(ms: map<Path, Manifest>, chain: seq<Link>) {
    chain != [] ==> Stored(ms, chain[0]) && LeadsOn(chain[0], chain[1..]) && Descends(ms, chain[1..])
  }

  predicate LeadsOn(l: Link, rest: seq<Link>) {
    if rest == [] then l.manifest.previous == None
    else
      && l.manifest.previous == Some(rest[0].path) && l.path.ManifestAt? && rest[0].path.ManifestAt?
      && rest[0].path.stamp < l.path.stamp
  }

  lemma HandoffMark(d: Disk, ms: map<Path, Manifest>, l: Link)
    requires Advanced(ms, d.manifests, 0) && Stored(ms, l)
    ensures var e := Replay(d, [WriteManifest(l.path, l.manifest.(handoff := true))]);
            e == d.(manifests := e.manifests) && Advanced(ms, e.manifests, 0)
  {
    ReplayOne(d, WriteManifest(l.path, l.manifest.(handoff := true)));
  }

  lemma {:induction false} HandoffMarksCut(d: Disk, ms: map<Path, Manifest>, chain: seq<Link>, k: nat)
    requires k <= |MarkHandoff(chain)| && Advanced(ms, d.manifests, 0)
    requires Descends(ms, chain)
    ensures var e := Replay(d, MarkHandoff(chain)[..k]); e == d.(manifests := e.manifests) && Advanced(ms, e.manifests, 0)
    decreases |chain|
  {
    if k > 0 {
      var l, rest := chain[0], chain[1..];
      if Pending(l.manifest) {
        var w := [WriteManifest(l.path, l.manifest.(handoff := true))];
        CutOfConcat(d, w, MarkHandoff(rest), k);
        HandoffMark(d, ms, l);
        HandoffMarksCut(Replay(d, w), ms, rest, k - 1);
      } else {
        assert MarkHandoff(chain) == MarkHandoff(rest);
        HandoffMarksCut(d, ms, rest, k);
      }
    }
  }

  // ---- Cuts of the unlink marks ----

  lemma UnlinkMark(d: Disk, ms: map<Path, Manifest>, l: Link, bound: nat)
    requires ActiveOrder(ms) && Advanced(ms, d.manifests, bound) && Stored(ms, l) && bound <= l.path.stamp
    requires l.manifest.previous.Some? ==> l.manifest.previous.value.ManifestAt? && l.manifest.previous.value.stamp < bound
    ensures var e := Replay(d, [WriteManifest(l.path, Marked(l.manifest))]);
            e == d.(manifests := e.manifests) && Advanced(ms, e.manifests, l.path.stamp + 1)
  {
    ReplayOne(d, WriteManifest(l.path, Marked(l.manifest)));
    var next := d.manifests[l.path := Marked(l.manifest)];
    forall q | q in ms ensures Ahead(q, ms[q], next[q], l.path.stamp + 1) {
      assert Ahead(q, ms[q], d.manifests[q], bound);
      if q.ManifestAt? && bound <= q.stamp < l.path.stamp {
        assert !Active(ms, q);
      }
      assert q.ManifestAt? && q.stamp == l.path.stamp ==> q == l.path;
    }
  }

  // The mark of the newest manifest, once those below it are marked.
  lemma LastMark(d: Disk, ms: map<Path, Manifest>, l: Link, rest: seq<Link>, bound: nat)
    requires ActiveOrder(ms) && Advanced(ms, d.manifests, bound) && Stored(ms, l) && LeadsOn(l, rest)
    requires bound == if rest == [] then 0 else rest[0].path.stamp + 1
    ensures var e := Replay(d, [WriteManifest(l.path, Marked(l.manifest))]);
            e == d.(manifests := e.manifests) && Advanced(ms, e.manifests, l.path.stamp + 1)
  {
    UnlinkMark(d, ms, l, bound);
  }

  lemma {:induction false} UnlinkMarksDone(d: Disk, ms: map<Path, Manifest>, chain: seq<Link>)
    requires ActiveOrder(ms) && chain != [] && Descends(ms, chain) && Advanced(ms, d.manifests, 0)
    ensures chain[0].path.ManifestAt?
    ensures var e := Replay(d, UnlinkMarks(chain));
            e == d.(manifests := e.manifests) && Advanced(ms, e.manifests, chain[0].path.stamp + 1)
    decreases |chain|
  {
    var l, rest := chain[0], chain[1..];
    assert Stored(ms, l) && LeadsOn(l, rest);
    if rest != [] {
      UnlinkMarksDone(d, ms, rest);
    }
    ReplayConcat(d, UnlinkMarks(rest), [WriteManifest(l.path, Marked(l.manifest))]);
    LastMark(Replay(d, UnlinkMarks(rest)), ms, l, rest, if rest == [] then 0 else rest[0].path.stamp + 1);
  }

  lemma {:induction false} UnlinkMarksCut(d: Disk, ms: map<Path, Manifest>, chain: seq<Link>, k: nat) returns (bound: nat)
    requires ActiveOrder(ms) && chain != [] && Descends(ms, chain) && k <= |UnlinkMarks(chain)| && Advanced(ms, d.manifests, 0)
    ensures var e := Replay(d, UnlinkMarks(chain)[..k]);
            e == d.(manifests := e.manifests) && Advanced(ms, e.manifests, bound)
    ensures chain[0].path.ManifestAt?
    ensures if k < |UnlinkMarks(chain)| then bound <= chain[0].path.stamp else bound == chain[0].path.stamp + 1
    decreases |chain|
  {
    var older := UnlinkMarks(chain[1..]);
    if k == |UnlinkMarks(chain)| {
      assert UnlinkMarks(chain)[..k] == UnlinkMarks(chain);
      UnlinkMarksDone(d, ms, chain);
      bound := chain[0].path.stamp + 1;
    } else {
      assert UnlinkMarks(chain)[..k] == older[..k];
      assert LeadsOn(chain[0], chain[1..]);
      bound := 0;
      if k > 0 {
        bound := UnlinkMarksCut(d, ms, chain[1..], k);
      }
    }
  }

  lemma {:induction false} LogDescends(agent: Agent, ms: map<Path, Manifest>, p: Path)
    requires LogShape(agent, ms) && p in ms
    ensures Descends(ms, Log(agent, ms, p))
    decreases p.stamp
  {
    assert Written(agent, p, ms[p]);
    match ms[p].previous
    case None =>
    case Some(q) =>
      LogDescends(agent, ms, q);
      assert Log(agent, ms, p)[1..] == Log(agent, ms, q);
  }
}
