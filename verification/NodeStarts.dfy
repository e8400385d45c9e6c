/** When the node may be started. It looks for a marker in the live directory only; a marker whose removal is
    not synced yet can still come back, and then the node's changes strand the recovery. */
module NodeStarts {
  import opened Volumes
  import opened Recoveries
  import opened Protocol
  import opened Swapping
  import opened Manifests
  import opened Paths
  import opened Journals
  import opened Tool
  import opened Safety
  import opened Runs

  /** Right after a power loss what is seen is what there is. */
  lemma StartAfterLoss(env: Env, v: Vol, w: Vol, cuts: string -> nat)
    requires Lost(v, w, cuts) && !Marked(RootOf(env), w.Live(env.data))
    ensures Unmarked(w, RootOf(env))
  {
    LossRoot(v, w, cuts, RootOf(env));
  }

  // ---------------------------------------------------------------------------------------------
  // A run of the node that replaces one file

  /** The node replaces file `i` by an empty one. */
  function Replaced(env: Env, v: Vol, i: nat, x: Ino): Vol
    requires i < |env.files|
  {
    var node := Node(0, 0, Bytes([]));
    WithFile(v, Parent(TargetAt(env, i)), NewFile(TargetAt(env, i), x, node, node))
  }

  lemma ReplacedRoot(env: Env, v: Vol, i: nat, x: Ino)
    requires EnvOk(env) && i < |env.files| && x !in v.nodes
    ensures var w := Replaced(env, v, i, x);
            Parent(TargetAt(env, i)) != env.data && w.Dir(env.data) == v.Dir(env.data) && Preserves(v, w)
  {
    ParentBelow(env.data + "/", env.files[i]);
  }

  /** Someone has put an empty new file at target `i`, and left the root and the finished files alone. */
  ghost predicate Took(env: Env, v: Vol, w: Vol, i: nat, x: Ino)
    requires i < |env.files|
  {
    var t := TargetAt(env, i); var l := w.Live(Parent(t));
    && Preserves(v, w) && w.Dir(env.data) == v.Dir(env.data) && x !in v.nodes
    && x in w.nodes && w.nodes[x].content == Bytes([]) && t in l && l[t] == x
  }

  lemma ReplacedTook(env: Env, v: Vol, i: nat, x: Ino)
    requires EnvOk(env) && i < |env.files| && x !in v.nodes
    ensures Took(env, v, Replaced(env, v, i, x), i, x)
  {
    var d := Parent(TargetAt(env, i));
    ReplacedRoot(env, v, i, x);
    assert Replaced(env, v, i, x).Live(d) == v.Live(d)[TargetAt(env, i) := x];
  }

  lemma ReplacingIsARun(env: Env, v: Vol, i: nat, x: Ino)
    requires EnvOk(env) && !Marked(RootOf(env), v.Live(env.data))
    requires i < |env.files| && x !in v.nodes
    ensures NodeMay(env, v, Replaced(env, v, i, x))
  {
    var w, root := Replaced(env, v, i, x), RootOf(env);
    ReplacedRoot(env, v, i, x);
    forall k | 0 <= k <= |w.Dir(root.dir).queue|
      ensures SameMarks(root, v, v.Dir(root.dir).View(k), w, w.Dir(root.dir).View(k))
    {
    }
  }

  // ---------------------------------------------------------------------------------------------
  // No recovery fits a replaced file

  /** The journal records the inode of the original and no other. */
  lemma NotRecorded(env: Env, p: Pend, j: Journal, i: nat, x: Ino)
    requires Wrote(env, p, j) && i < |env.files| && p.slots[i].original != Some(x)
    ensures j.changes[i].original.Some? ==> j.changes[i].original.value.inode != x
  {
    assert SlotFor(env, p, p.slots[i], j.changes[i], j.manifest.files[env.files[i]]);
  }

  /** An empty file that the journal does not record is neither the copy nor the original. */
  lemma NoPhaseFits(env: Env, w: Vol, q: Pend, j: Journal, i: nat, x: Ino, l: map<string, Ino>)
    requires Wrote(env, q, j) && Fixed(w, q.fixed) && i < |env.files|
    requires x in w.nodes && w.nodes[x].content == Bytes([]) && TargetAt(env, i) in l && l[TargetAt(env, i)] == x
    requires j.changes[i].original.Some? ==> j.changes[i].original.value.inode != x
    ensures !InSome(q.slots[i], l, AnyPhase())
  {
    assert SlotFor(env, q, q.slots[i], j.changes[i], j.manifest.files[env.files[i]]);
    assert j.changes[i] == ChangeFor(env.data, env.files[i], j.token, j.changes[i].original);
    assert RecordOk(j.manifest.files[env.files[i]]);
    assert q.slots[i].copy != x && q.slots[i].original != Some(x);
  }

  lemma SameDocument(root: Root<string>, v: Vol, w: Vol, l: map<string, Ino>, a: Content, b: Content)
    requires Marked(root, l) && Agree(v, l, root.Marks(), a) && Agree(w, l, root.Marks(), b) && Preserves(v, w)
    ensures a == b
  {
    var m :| m in root.Marks() && m in l;
  }

  lemma NotAlways(v: Vol, s: Slot<string>, phs: set<Phase>)
    requires !InSome(s, v.Live(s.names.dir), phs)
    ensures !Always(v, s, phs)
  {
    var d := v.Dir(s.names.dir);
    assert d.Live() == d.View(|d.queue|);
  }

  lemma StillNotRecorded(env: Env, v: Vol, w: Vol, p: Pend, j: Journal, q: Pend, jq: Journal, i: nat, x: Ino,
                         l: map<string, Ino>)
    requires Wrote(env, p, j) && Wrote(env, q, jq) && i < |env.files| && p.slots[i].original != Some(x)
    requires Preserves(v, w)
    requires Marked(RootOf(env), l) && Agree(v, l, RootOf(env).Marks(), p.doc)
    requires Agree(w, l, RootOf(env).Marks(), q.doc)
    ensures jq.changes[i].original.Some? ==> jq.changes[i].original.value.inode != x
  {
    SameDocument(RootOf(env), v, w, l, p.doc, q.doc);
    DocumentDetermines(j, jq);
    NotRecorded(env, p, j, i, x);
  }

  lemma TookFits(env: Env, v: Vol, w: Vol, p: Pend, j: Journal, i: nat, x: Ino, k: nat, q: Pend, jq: Journal)
    requires Active(v, RootOf(env), p) && Wrote(env, p, j) && Wrote(env, q, jq) && i < |env.files|
    requires Took(env, v, w, i, x) && p.slots[i].original != Some(x)
    requires k <= |v.Dir(env.data).queue| && Marked(RootOf(env), v.Dir(env.data).View(k))
    ensures MarkersAgree(w, RootOf(env), q.doc) && Fixed(w, q.fixed) ==> !Always(w, q.slots[i], AnyPhase())
  {
    var root, l := RootOf(env), v.Dir(env.data).View(k);
    if MarkersAgree(w, root, q.doc) && Fixed(w, q.fixed) {
      assert Agree(v, l, root.Marks(), p.doc) && Agree(w, l, root.Marks(), q.doc);
      StillNotRecorded(env, v, w, p, j, q, jq, i, x, l);
      NoPhaseFits(env, w, q, jq, i, x, w.Live(Parent(TargetAt(env, i))));
      SlotDir(env, q, jq, i);
      NotAlways(w, q.slots[i], AnyPhase());
    }
  }

  lemma SlotDir(env: Env, q: Pend, j: Journal, i: nat)
    requires Wrote(env, q, j) && i < |env.files|
    ensures q.slots[i].names.dir == Parent(TargetAt(env, i))
  {
    assert SlotFor(env, q, q.slots[i], j.changes[i], j.manifest.files[env.files[i]]);
  }

  lemma NotActive(w: Vol, root: Root<string>, q: Pend, i: nat)
    requires i < |q.slots|
    requires MarkersAgree(w, root, q.doc) && Fixed(w, q.fixed) ==> !Always(w, q.slots[i], AnyPhase())
    ensures !Active(w, root, q)
  {
  }

  /** So if a marker can come back, this run of the node breaks the invariant. */
  lemma ReplacedUnsound(env: Env, s: State, p: Pend, j: Journal, i: nat, x: Ino)
    requires EnvOk(env) && Active(s.vol, RootOf(env), p) && Wrote(env, p, j) && !Unmarked(s.vol, RootOf(env))
    requires i < |env.files| && x !in s.vol.nodes && p.slots[i].original != Some(x)
    ensures !Sound(env, s.(vol := Replaced(env, s.vol, i, x)))
  {
    var w := Replaced(env, s.vol, i, x);
    ReplacedTook(env, s.vol, i, x);
    var k :| 0 <= k <= |s.vol.Dir(env.data).queue| && Marked(RootOf(env), s.vol.Dir(env.data).View(k));
    forall o ensures !GoodWith(SiteOf(env, Any(env)), s.used, w, o) {
      if o.Some? && Own(env, o.value) {
        var jq :| Wrote(env, o.value, jq);
        TookFits(env, s.vol, w, p, j, i, x, k, o.value, jq);
        NotActive(w, RootOf(env), o.value, i);
      }
    }
  }

  // ---------------------------------------------------------------------------------------------
  // What is left when the marker comes back

  /** A marker is there that `resume` refuses. */
  ghost predicate Stranded(env: Env, v: Vol) {
    Marked(RootOf(env), v.Live(env.data)) && MakePlan(env, v).Declined?
  }

  /** No resume and no restore ever gets past it. */
  lemma StrandedForGood(env: Env, v: Vol, r: ResumeArgs, a: RestoreArgs, cut: nat)
    requires Stranded(env, v)
    ensures Resume(env, v, r, cut) == v && Restore(env, v, a, cut) == v
  {
    RestoreWaits(env, v, a, cut);
  }

  lemma FileRefused(env: Env, w: Vol, j: Journal, i: nat, x: Ino)
    requires HasRecords(env, j) && i < |env.files|
    requires j.changes[i] == ChangeFor(env.data, env.files[i], j.token, j.changes[i].original)
    requires j.manifest.files[env.files[i]].size > 0 && x in w.nodes && w.nodes[x].content == Bytes([])
    requires var l := w.Live(Parent(TargetAt(env, i))); TargetAt(env, i) in l && l[TargetAt(env, i)] == x
    requires j.changes[i].original.Some? ==> j.changes[i].original.value.inode != x
    ensures PhaseAt(env, w, j, i).None?
  {
    assert !Verified(env, w, x, j.manifest.files[env.files[i]]);
  }

  lemma PlanRefused(env: Env, w: Vol, p: Pend, j: Journal, i: nat)
    requires Wrote(env, p, j) && Agree(w, w.Live(env.data), RootOf(env).Marks(), p.doc)
    requires Marked(RootOf(env), w.Live(env.data)) && i < |env.files| && HasRecords(env, j)
    requires PhaseAt(env, w, j, i).None?
    ensures MakePlan(env, w).Declined?
  {
    var doc := if env.printed(Encode(j)) <= MAX_METADATA then Some(Encode(j)) else None;
    PresentReads(env, w, p, j);
    PlanReads(env, w, doc);
    WroteReadsBack(env, p, j);
    if doc.Some? && RecoveryEntries(env.data, env.files, Encode(j)).Some? { BadPlan(env, w, Encode(j), j, i); }
  }

  lemma StillAgree(v: Vol, r: Vol, w: Vol, l: map<string, Ino>, marks: set<string>, doc: Content)
    requires Agree(v, l, marks, doc) && Preserves(v, r) && w.nodes == r.nodes && w.dirty == {}
    ensures Agree(w, l, marks, doc)
  {
  }

  lemma RecordNotEmpty(env: Env, p: Pend, j: Journal, i: nat)
    requires Wrote(env, p, j) && i < |env.files|
    ensures HasRecords(env, j) && j.manifest.files[env.files[i]].size > 0
    ensures j.changes[i] == ChangeFor(env.data, env.files[i], j.token, j.changes[i].original)
  {
    assert RecordOk(j.manifest.files[env.files[i]]);
  }

  lemma TookStranded(env: Env, v: Vol, r: Vol, p: Pend, j: Journal, i: nat, x: Ino, l: map<string, Ino>, w: Vol)
    requires Wrote(env, p, j) && i < |env.files| && Took(env, v, r, i, x) && p.slots[i].original != Some(x)
    requires Marked(RootOf(env), l) && Agree(v, l, RootOf(env).Marks(), p.doc)
    requires w.nodes == r.nodes && w.dirty == {} && w.Live(env.data) == l
    requires w.Live(Parent(TargetAt(env, i))) == r.Live(Parent(TargetAt(env, i)))
    ensures Stranded(env, w)
  {
    StillAgree(v, r, w, l, RootOf(env).Marks(), p.doc);
    NotRecorded(env, p, j, i, x);
    RecordNotEmpty(env, p, j, i);
    FileRefused(env, w, j, i, x);
    PlanRefused(env, w, p, j, i);
  }

  lemma LossStrands(env: Env, v: Vol, r: Vol, p: Pend, j: Journal, i: nat, x: Ino) returns (w: Vol, cuts: string -> nat)
    requires EnvOk(env) && Active(v, RootOf(env), p) && Wrote(env, p, j) && !Unmarked(v, RootOf(env))
    requires i < |env.files| && Took(env, v, r, i, x) && p.slots[i].original != Some(x)
    ensures Lost(r, w, cuts) && Stranded(env, w)
  {
    ParentBelow(env.data + "/", env.files[i]);
    var k :| 0 <= k <= |v.Dir(env.data).queue| && Marked(RootOf(env), v.Dir(env.data).View(k));
    w, cuts := LossAt(r, env.data, k);
    OneListing(w, env.data, v.Dir(env.data).View(k));
    OneListing(w, Parent(TargetAt(env, i)), r.Live(Parent(TargetAt(env, i))));
    assert Agree(v, v.Dir(env.data).View(k), RootOf(env).Marks(), p.doc);
    TookStranded(env, v, r, p, j, i, x, v.Dir(env.data).View(k), w);
  }

  lemma OneListing(v: Vol, d: string, l: map<string, Ino>)
    requires v.Dir(d) == Directory(l, [])
    ensures v.Live(d) == l
  {
  }

  lemma PendingHere(env: Env, s: State) returns (p: Pend, j: Journal)
    requires Sound(env, s) && !Unmarked(s.vol, RootOf(env))
    ensures Active(s.vol, RootOf(env), p) && Wrote(env, p, j)
  {
    var o :| GoodWith(SiteOf(env, Any(env)), s.used, s.vol, o);
    p := o.value;
    j :| Wrote(env, p, j);
  }

  /** If a marker can come back, the node can be started, and a power loss after its run can leave a marker
      that nothing gets past. */
  lemma NodeStartStrands(env: Env, s: State, i: nat) returns (t: State, u: State, cuts: string -> nat)
    requires EnvOk(env) && Sound(env, s) && !HasMarker(env, s) && !Unmarked(s.vol, RootOf(env)) && i < |env.files|
    ensures Step(env, s, NodeRun, t) && !Sound(env, t)
    ensures Step(env, t, PowerLoss(cuts), u) && Stranded(env, u.vol)
  {
    var p, j := PendingHere(env, s);
    var original := p.slots[i].original;
    var x := Bound(s.vol.nodes.Keys + if original.Some? then {original.value} else {});
    t := s.(vol := Replaced(env, s.vol, i, x));
    ReplacingIsARun(env, s.vol, i, x);
    ReplacedUnsound(env, s, p, j, i, x);
    ReplacedTook(env, s.vol, i, x);
    var w;
    w, cuts := LossStrands(env, s.vol, t.vol, p, j, i, x);
    u := t.(vol := w);
  }

  /** The invariant survives every run of the node exactly if no marker can come back when it starts. */
  lemma NodeStartIff(env: Env, s: State)
    requires EnvOk(env) && Sound(env, s) && !HasMarker(env, s) && env.files != []
    ensures (forall t :: Step(env, s, NodeRun, t) ==> Sound(env, t)) <==> Unmarked(s.vol, RootOf(env))
  {
    if Unmarked(s.vol, RootOf(env)) {
      forall t | Step(env, s, NodeRun, t) ensures Sound(env, t) { StepSound(env, s, NodeRun, t); }
    } else {
      var t, u, cuts := NodeStartStrands(env, s, 0);
    }
  }

  // ---------------------------------------------------------------------------------------------
  // How it comes to that

  lemma UnmarkEnds(ops: seq<Op<string, Content>>, root: Root<string>)
    ensures var all := ops + UnmarkOps(root);
            |all| >= 2 && all[|all| - 2] == Unlink(root.dir, root.m1) && all[|all| - 1] == SyncDir(root.dir)
  {
  }

  lemma ResumeEnds(root: Root<string>, live: map<string, Ino>, f0: NewFile<string, Content>,
                   f1: NewFile<string, Content>,
                   tracks: seq<(Names<string>, bool)>, phases: seq<Phase>)
    requires |tracks| == |phases|
    ensures var ops := ResumeOps(root, live, f0, f1, tracks, phases, true);
            |ops| >= 2 && ops[|ops| - 2] == Unlink(root.dir, root.m1) && ops[|ops| - 1] == SyncDir(root.dir)
  {
    var first, swaps := RemarkOps(root, live, f0, f1), SwapsFrom<string, Content>(tracks, phases, 0);
    UnmarkEnds(first + swaps, root);
    Regrouped(first, swaps, UnmarkOps<string, Content>(root));
  }

  lemma PlannedEnds(env: Env, v: Vol, a: ResumeArgs)
    requires MakePlan(env, v).Planned? && a.apply && a.anchored && a.inspected
    ensures var ops := PlannedOps(env, v, a);
            |ops| >= 2 && ops[|ops| - 2] == Unlink(env.data, env.m1) && ops[|ops| - 1] == SyncDir(env.data)
  {
    var p, root := MakePlan(env, v), RootOf(env);
    ResumeEnds(root, v.Live(env.data), MarkerFile(env, root.m0, a.t0, p.doc), MarkerFile(env, root.m1, a.t1, p.doc),
               TracksOf(p.journal), p.phases);
  }

  lemma UnsyncedEnd(env: Env, v: Vol, ops: seq<Op<string, Content>>, p: Pend)
    requires Runnable(ops, v) && |ops| >= 2 && ops[|ops| - 2] == Unlink(env.data, env.m1)
    requires ops[|ops| - 1] == SyncDir(env.data)
    requires Completed(SiteOf(env, Any(env)), Exec(ops, v), p)
    ensures var u := Exec(Cut(ops, |ops| - 1), v); !Marked(RootOf(env), u.Live(env.data)) && !Unmarked(u, RootOf(env))
  {
    var u := Exec(ops[..|ops| - 1], v);
    RemovedUnsynced(ops, v, env.data, env.m1);
    UnmarkedLive(Exec(ops, v), RootOf(env));
    assert Marked(RootOf(env), u.Dir(env.data).View(|u.Dir(env.data).queue| - 1));
  }

  /** A resume that is cut short right before its last sync leaves no marker to be seen, and one that can
      come back. */
  lemma CutBeforeLastSync(env: Env, s: State, a: ResumeArgs, ops: seq<Op<string, Content>>)
    requires EnvOk(env) && Sound(env, s) && MakePlan(env, s.vol).Planned? && ops == PlannedOps(env, s.vol, a)
    requires TempsOk(env, s.used, s.vol, a.t0, a.t1) && a.apply && a.anchored && a.inspected
    ensures |ops| > 0 && Hides(env, s.vol, ops, |ops| - 1)
  {
    PlannedIsMarked(env, s.vol);
    PlannedEnds(env, s.vol, a);
    SoundIsRunnable(env, s, a);
    var p := UncutCompletes(env, s, a);
    UnsyncedEnd(env, s.vol, ops, p);
  }

  /** After so many of the operations no marker is to be seen, and one can come back. */
  ghost predicate Hides(env: Env, v: Vol, ops: seq<Op<string, Content>>, n: nat) {
    var u := Exec(Cut(ops, n), v);
    !Marked(RootOf(env), u.Live(env.data)) && !Unmarked(u, RootOf(env))
  }

  ghost predicate Hidden(env: Env, v: Vol, a: ResumeArgs, cut: nat, u: Vol) {
    u == Resume(env, v, a, cut) && !Marked(RootOf(env), u.Live(env.data)) && !Unmarked(u, RootOf(env))
  }

  lemma HidesIs(env: Env, v: Vol, a: ResumeArgs, ops: seq<Op<string, Content>>, cut: nat) returns (u: Vol)
    requires ops == PlannedOps(env, v, a) && Hides(env, v, ops, cut)
    ensures Hidden(env, v, a, cut, u)
  {
    u := Exec(Cut(ops, cut), v);
  }

  lemma LastCut(env: Env, s: State, a: ResumeArgs, ops: seq<Op<string, Content>>) returns (cut: nat, u: Vol)
    requires EnvOk(env) && Sound(env, s) && MakePlan(env, s.vol).Planned? && ops == PlannedOps(env, s.vol, a)
    requires TempsOk(env, s.used, s.vol, a.t0, a.t1) && a.apply && a.anchored && a.inspected
    ensures Hidden(env, s.vol, a, cut, u)
  {
    CutBeforeLastSync(env, s, a, ops);
    cut := |ops| - 1;
    u := HidesIs(env, s.vol, a, ops, cut);
  }

  lemma CutResume(env: Env, s: State, a: ResumeArgs) returns (cut: nat, t: State)
    requires EnvOk(env) && Sound(env, s) && MakePlan(env, s.vol).Planned?
    requires TempsOk(env, s.used, s.vol, a.t0, a.t1) && a.apply && a.anchored && a.inspected
    ensures Step(env, s, ResumeRun(a, cut), t) && Sound(env, t) && !HasMarker(env, t) && !Unmarked(t.vol, RootOf(env))
  {
    var u;
    cut, u := LastCut(env, s, a, PlannedOps(env, s.vol, a));
    t := State(u, s.used);
    ResumeGood(env, Any(env), s.used, s.vol, a, cut);
  }

  lemma PlannedIsMarked(env: Env, v: Vol)
    requires MakePlan(env, v).Planned?
    ensures Marked(RootOf(env), v.Live(env.data))
  {
  }

  lemma UncutCompletes(env: Env, s: State, a: ResumeArgs) returns (p: Pend)
    requires EnvOk(env) && Sound(env, s) && MakePlan(env, s.vol).Planned? && Marked(RootOf(env), s.vol.Live(env.data))
    requires TempsOk(env, s.used, s.vol, a.t0, a.t1) && a.apply && a.anchored && a.inspected
    ensures Completed(SiteOf(env, Any(env)), Exec(PlannedOps(env, s.vol, a), s.vol), p)
  {
    var j, phases;
    p, j, phases := ResumeNeverMisreads(env, s);
    ResumeOpsSafe(env, Any(env), s.used, s.vol, p, j, a);
  }

  /** From any pending recovery that a resume accepts: the resume is cut short before its last sync, the node
      starts, the power fails, and the marker is back for good. */
  lemma StrandedHistory(env: Env, s: State, a: ResumeArgs) returns (states: seq<State>, cut: nat, cuts: string -> nat)
    requires EnvOk(env) && Sound(env, s) && MakePlan(env, s.vol).Planned? && env.files != []
    requires TempsOk(env, s.used, s.vol, a.t0, a.t1) && a.apply && a.anchored && a.inspected
    ensures History(env, states, [ResumeRun(a, cut), NodeRun, PowerLoss(cuts)]) && states[0] == s
    ensures Stranded(env, states[3].vol)
  {
    var s1, s2, s3;
    cut, s1 := CutResume(env, s, a);
    s2, s3, cuts := NodeStartStrands(env, s1, 0);
    states := [s, s1, s2, s3];
    ThreeSteps(env, s, s1, s2, s3, ResumeRun(a, cut), NodeRun, PowerLoss(cuts));
  }

  lemma Chain<S, E>(step: (S, E, S) -> bool, s: seq<S>, e: seq<E>)
    requires |s| == 4 && |e| == 3 && step(s[0], e[0], s[1]) && step(s[1], e[1], s[2]) && step(s[2], e[2], s[3])
    ensures forall i :: 0 <= i < |e| ==> step(s[i], e[i], s[i + 1])
  {
    forall i | 0 <= i < |e| ensures step(s[i], e[i], s[i + 1]) {
      assert i == 0 || i == 1 || i == 2;
    }
  }

  lemma ThreeSteps(env: Env, s0: State, s1: State, s2: State, s3: State, e0: Event, e1: Event, e2: Event)
    requires Step(env, s0, e0, s1) && Step(env, s1, e1, s2) && Step(env, s2, e2, s3)
    ensures History(env, [s0, s1, s2, s3], [e0, e1, e2])
  {
    Chain((s, e, t) => Step(env, s, e, t), [s0, s1, s2, s3], [e0, e1, e2]);
  }
}
