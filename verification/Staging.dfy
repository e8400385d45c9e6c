/** Staging the copies and publishing the markers: the first half of a recovery. */
module Staging {
  import opened Volumes
  import opened Recoveries
  import opened Protocol
  import opened Swapping

  // ---------------------------------------------------------------------------------------------
  // Beginning a recovery: stage every copy, then publish both markers

  function StageFrom<P(==), C>(dirs: seq<P>, files: seq<NewFile<P, C>>, i: nat): seq<Op<P, C>>
    requires |dirs| == |files| && i <= |files|
    decreases |files| - i
  {
    if i == |files| then [] else NewFileOps(dirs[i], files[i]) + StageFrom(dirs, files, i + 1)
  }

  function Dirs<P(==)>(slots: seq<Slot<P>>): (r: seq<P>)
    ensures |r| == |slots| && forall i :: 0 <= i < |slots| ==> r[i] == slots[i].names.dir
  {
    seq(|slots|, i requires 0 <= i < |slots| => slots[i].names.dir)
  }

  /** The file to stage in slot `i` is its copy, under a name nobody has. */
  ghost predicate FreshSlot<P, C>(site: Site<P, C>, used: set<P>, p: Pending<P, C>, spot: Spot<P>, s: Slot<P>,
                                  f: NewFile<P, C>) {
    && s.names.dir == spot.dir && s.names.target == spot.path
    && Foreign(site, used, s.names.staged) && Foreign(site, used, s.names.backup)
    && f.path == s.names.staged && f.ino == s.copy && Known(p, s) && p.fixed[s.copy] == f.full
  }

  ghost predicate Fresh<P, C>(site: Site<P, C>, used: set<P>, p: Pending<P, C>, files: seq<NewFile<P, C>>) {
    && |files| == |p.slots| == |site.spots| && SiteOk(site) && Separate(site.root, p.slots)
    && (forall i :: 0 <= i < |p.slots| ==> FreshSlot(site, used, p, site.spots[i], p.slots[i], files[i]))
    && (forall i, j :: 0 <= i < j < |files| ==> files[i].ino != files[j].ino)
    && Sourced(p)
  }

  ghost predicate Sourced<P, C>(p: Pending<P, C>) {
    forall x :: x in p.fixed ==> exists i :: 0 <= i < |p.slots| && Source(p.slots[i], x)
  }

  ghost predicate Source<P>(s: Slot<P>, x: Ino) {
    x == s.copy || s.original == Some(x)
  }

  ghost predicate CleanAs<P, C>(v: Volume<P, C>, x: Ino, node: Node<C>) {
    x in v.nodes && v.nodes[x] == node && x !in v.dirty
  }

  /** Slot `s` is still to be staged. */
  ghost predicate Untouched<P, C>(v: Volume<P, C>, s: Slot<P>) {
    var l := v.Live(s.names.dir);
    Holds(l, s.names.target, s.original) && Holds(l, s.names.staged, None) && Holds(l, s.names.backup, None)
        && s.copy !in v.nodes
  }

  /** The first `i` slots are staged for good, the others untouched, and the files the recovery relies on finished. */
  ghost predicate StagedTo<P, C>(v: Volume<P, C>, p: Pending<P, C>, i: nat) {
    i <= |p.slots| && forall j :: 0 <= j < |p.slots| ==> SlotAt(v, p, p.slots[j], j < i)
  }

  ghost predicate SlotAt<P, C>(v: Volume<P, C>, p: Pending<P, C>, s: Slot<P>, staged: bool) {
    && Known(p, s)
    && (if staged then Always(v, s, {Ready}) && CleanAs(v, s.copy, p.fixed[s.copy]) else Untouched(v, s))
    && (s.original.Some? && s.original.value in p.fixed ==> CleanAs(v, s.original.value, p.fixed[s.original.value]))
  }

  /** Staging one slot leaves the others as they are. */
  lemma StageOther<P, C>(v: Volume<P, C>, s: Slot<P>, f: NewFile<P, C>, t: Slot<P>)
    requires f.path == s.names.staged && s.names.All() !! t.names.All()
    ensures var w := WithFile(v, s.names.dir, f);
            && (Always(v, t, {Ready}) ==> Always(w, t, {Ready}))
            && (Untouched(v, t) && t.copy != f.ino ==> Untouched(w, t))
  {
    var d := s.names.dir;
    var w := WithFile(v, d, f);
    assert f.path in s.names.All();
    if t.names.dir != d {
      assert w.Dir(t.names.dir) == v.Dir(t.names.dir);
    } else {
      assert w.Live(d) == v.Live(d)[f.path := f.ino];
      if Always(v, t, {Ready}) {
        AlwaysLive(v, t, {Ready});
        assert In(t, v.Live(d), Ready);
        OneView(w, t);
      }
    }
  }

  lemma StageOwn<P, C>(v: Volume<P, C>, s: Slot<P>, f: NewFile<P, C>)
    requires f.path == s.names.staged && f.ino == s.copy && Untouched(v, s)
    requires s.names.target != s.names.staged && s.names.staged != s.names.backup
    ensures Always(WithFile(v, s.names.dir, f), s, {Ready})
  {
    var w := WithFile(v, s.names.dir, f);
    assert w.Live(s.names.dir) == v.Live(s.names.dir)[f.path := f.ino];
    OneView(w, s);
  }

  lemma OneView<P, C>(v: Volume<P, C>, s: Slot<P>)
    requires v.Dir(s.names.dir).queue == [] && In(s, v.Live(s.names.dir), Ready)
    ensures Always(v, s, {Ready})
  {
    assert InSome(s, v.Live(s.names.dir), {Ready});
  }

  lemma StageSlot<P, C>(v: Volume<P, C>, p: Pending<P, C>, s: Slot<P>, f: NewFile<P, C>, t: Slot<P>, staged: bool)
    requires SlotAt(v, p, s, false) && SlotAt(v, p, t, staged)
    requires f.path == s.names.staged && s.names.All() !! t.names.All() && (!staged ==> t.copy != f.ino)
    requires f.ino == s.copy
    ensures SlotAt(WithFile(v, s.names.dir, f), p, t, staged)
  {
    StageOther(v, s, f, t);
  }

  lemma StageOwnSlot<P, C>(v: Volume<P, C>, p: Pending<P, C>, s: Slot<P>, f: NewFile<P, C>)
    requires SlotAt(v, p, s, false) && f.path == s.names.staged && f.ino == s.copy && p.fixed[s.copy] == f.full
    requires s.names.target != s.names.staged && s.names.staged != s.names.backup
    ensures SlotAt(WithFile(v, s.names.dir, f), p, s, true)
  {
    StageOwn(v, s, f);
  }

  lemma StageStep<P, C>(site: Site<P, C>, used: set<P>, v: Volume<P, C>, p: Pending<P, C>, files: seq<NewFile<P, C>>,
                        i: nat)
    requires Fresh(site, used, p, files) && StagedTo(v, p, i) && i < |files|
    ensures StagedTo(WithFile(v, p.slots[i].names.dir, files[i]), p, i + 1)
  {
    var s, f := p.slots[i], files[i];
    var w := WithFile(v, s.names.dir, f);
    assert SlotAt(v, p, s, false) && FreshSlot(site, used, p, site.spots[i], s, f);
    forall j | 0 <= j < |p.slots|
      ensures SlotAt(w, p, p.slots[j], j < i + 1)
    {
      assert FreshSlot(site, used, p, site.spots[j], p.slots[j], files[j]);
      if j == i {
        StageOwnSlot(v, p, s, f);
      } else {
        assert s.names.All() !! p.slots[j].names.All();
        StageSlot(v, p, s, f, p.slots[j], j < i);
      }
    }
  }

  lemma FreshAddable<P, C>(site: Site<P, C>, used: set<P>, v: Volume<P, C>, p: Pending<P, C>, spot: Spot<P>,
                           s: Slot<P>, f: NewFile<P, C>)
    requires FreshSlot(site, used, p, spot, s, f) && SlotAt(v, p, s, false)
    ensures Addable(site, used, v, s.names.dir, f)
  {
  }

  ghost predicate AddedOne<P, C>(v: Volume<P, C>, w: Volume<P, C>, ino: Ino) {
    forall x :: x in w.nodes ==> x in v.nodes || x == ino
  }

  lemma StageOne<P(!new), C(!new)>(site: Site<P, C>, used: set<P>, v: Volume<P, C>, o: Option<Pending<P, C>>, d: P,
                                   f: NewFile<P, C>)
    requires GoodWith(site, used, v, o) && Addable(site, used, v, d, f) && d != site.root.dir
    ensures var ops := NewFileOps(d, f); var w := WithFile(v, d, f);
            && SafeRun(site, used, ops, v) && Exec(ops, v) == w && GoodWith(site, used, w, o)
            && w.Dir(site.root.dir) == v.Dir(site.root.dir) && AddedOne(v, w, f.ino)
  {
    NewFileSafe(site, used, v, o, d, f);
  }

  /** The operations are safe, and then everything is staged and the root is as it was. */
  ghost predicate Stages<P(!new), C(!new)>(site: Site<P, C>, used: set<P>, v: Volume<P, C>, o: Option<Pending<P, C>>,
                                           p: Pending<P, C>, files: seq<NewFile<P, C>>, ops: seq<Op<P, C>>) {
    var w := Exec(ops, v);
    && SafeRun(site, used, ops, v) && GoodWith(site, used, w, o) && StagedTo(w, p, |p.slots|)
    && w.Dir(site.root.dir) == v.Dir(site.root.dir) && OnlyAdded(v, w, files)
  }

  lemma StageNext<P(!new), C(!new)>(site: Site<P, C>, used: set<P>, v: Volume<P, C>, o: Option<Pending<P, C>>,
                                    p: Pending<P, C>, files: seq<NewFile<P, C>>, i: nat)
    requires GoodWith(site, used, v, o) && Fresh(site, used, p, files) && StagedTo(v, p, i) && i < |p.slots|
    ensures var d, f := p.slots[i].names.dir, files[i]; var w := WithFile(v, d, f);
            && SafeRun(site, used, NewFileOps(d, f), v) && Exec(NewFileOps(d, f), v) == w
            && GoodWith(site, used, w, o) && StagedTo(w, p, i + 1)
            && w.Dir(site.root.dir) == v.Dir(site.root.dir) && AddedOne(v, w, f.ino)
  {
    FreshAddable(site, used, v, p, site.spots[i], p.slots[i], files[i]);
    StageStep(site, used, v, p, files, i);
    StageOne(site, used, v, o, p.slots[i].names.dir, files[i]);
  }

  lemma {:induction false} StageSafe<P(!new), C(!new)>(site: Site<P, C>, used: set<P>, v: Volume<P, C>,
                                                       o: Option<Pending<P, C>>, p: Pending<P, C>,
                                                       files: seq<NewFile<P, C>>, i: nat)
    requires GoodWith(site, used, v, o) && Fresh(site, used, p, files) && StagedTo(v, p, i)
    ensures Stages(site, used, v, o, p, files, StageFrom(Dirs(p.slots), files, i))
    decreases |p.slots| - i
  {
    if i < |p.slots| {
      var d := p.slots[i].names.dir;
      StageNext(site, used, v, o, p, files, i);
      StageSafe(site, used, WithFile(v, d, files[i]), o, p, files, i + 1);
      StageThen(site, used, v, o, p, d, files, i, StageFrom(Dirs(p.slots), files, i + 1));
    } else {
      StageDone(site, used, v, o, p, files);
    }
  }

  lemma StageDone<P(!new), C(!new)>(site: Site<P, C>, used: set<P>, v: Volume<P, C>, o: Option<Pending<P, C>>,
                                    p: Pending<P, C>, files: seq<NewFile<P, C>>)
    requires GoodWith(site, used, v, o) && StagedTo(v, p, |p.slots|)
    ensures Stages(site, used, v, o, p, files, [])
  {
    assert OnlyAdded(v, v, files);
  }

  lemma StageThen<P(!new), C(!new)>(site: Site<P, C>, used: set<P>, v: Volume<P, C>, o: Option<Pending<P, C>>,
                                    p: Pending<P, C>, d: P, files: seq<NewFile<P, C>>, i: nat, rest: seq<Op<P, C>>)
    requires i < |files|
    requires var first, w := NewFileOps(d, files[i]), WithFile(v, d, files[i]);
             && SafeRun(site, used, first, v) && Exec(first, v) == w && Stages(site, used, w, o, p, files, rest)
             && w.Dir(site.root.dir) == v.Dir(site.root.dir) && AddedOne(v, w, files[i].ino)
    ensures Stages(site, used, v, o, p, files, NewFileOps(d, files[i]) + rest)
  {
    var w := WithFile(v, d, files[i]);
    SafeConcat(site, used, NewFileOps(d, files[i]), rest, v);
    AddedStep(v, w, Exec(rest, w), files, i);
  }

  lemma AddedStep<P, C>(v: Volume<P, C>, w: Volume<P, C>, u: Volume<P, C>, files: seq<NewFile<P, C>>, i: nat)
    requires i < |files| && AddedOne(v, w, files[i].ino) && OnlyAdded(w, u, files)
    ensures OnlyAdded(v, u, files)
  {
  }

  /** The only new inodes are those of the staged files. */
  ghost predicate OnlyAdded<P, C>(v: Volume<P, C>, w: Volume<P, C>, files: seq<NewFile<P, C>>) {
    forall x :: x in w.nodes ==> x in v.nodes || exists j :: 0 <= j < |files| && files[j].ino == x
  }

  /** The private names of a recovery. */
  ghost function Private<P>(slots: seq<Slot<P>>): set<P> {
    (set i | 0 <= i < |slots| :: slots[i].names.staged) + (set i | 0 <= i < |slots| :: slots[i].names.backup)
  }

  lemma GoodMore<P, C>(site: Site<P, C>, used: set<P>, more: set<P>, v: Volume<P, C>, o: Option<Pending<P, C>>)
    requires GoodWith(site, used, v, o) && used <= more
    ensures GoodWith(site, more, v, o)
  {
  }

  lemma {:induction false} SafeMore<P(!new), C(!new)>(site: Site<P, C>, used: set<P>, more: set<P>,
                                                      ops: seq<Op<P, C>>, v: Volume<P, C>)
    requires SafeRun(site, used, ops, v) && used <= more
    ensures SafeRun(site, more, ops, v)
  {
    var o :| GoodWith(site, used, v, o);
    GoodMore(site, used, more, v, o);
    if ops != [] { SafeMore(site, used, more, ops[1..], Apply(ops[0], v)); }
  }

  function BeginOps<P(==), C>(root: Root<P>, dirs: seq<P>, files: seq<NewFile<P, C>>, f0: NewFile<P, C>,
                              f1: NewFile<P, C>): seq<Op<P, C>>
    requires |dirs| == |files|
  {
    StageFrom(dirs, files, 0) + (PublishOps(root, root.m0, f0) + PublishOps(root, root.m1, f1))
  }

  lemma StagedSource<P, C>(v: Volume<P, C>, p: Pending<P, C>, x: Ino)
    requires Sourced(p) && StagedTo(v, p, |p.slots|) && x in p.fixed
    ensures CleanAs(v, x, p.fixed[x])
  {
    var i :| 0 <= i < |p.slots| && Source(p.slots[i], x);
    assert SlotAt(v, p, p.slots[i], true);
  }

  lemma StagedSlots<P, C>(v: Volume<P, C>, p: Pending<P, C>)
    requires StagedTo(v, p, |p.slots|)
    ensures AllAlways(v, p.slots, {Ready}) && forall i :: 0 <= i < |p.slots| ==> Known(p, p.slots[i])
  {
    forall i | 0 <= i < |p.slots| ensures Always(v, p.slots[i], {Ready}) && Known(p, p.slots[i]) {
      assert SlotAt(v, p, p.slots[i], true);
    }
  }

  lemma StagedFixed<P, C>(v: Volume<P, C>, p: Pending<P, C>)
    requires Sourced(p) && StagedTo(v, p, |p.slots|)
    ensures Fixed(v, p.fixed)
  {
    forall x | x in p.fixed ensures CleanAs(v, x, p.fixed[x]) { StagedSource(v, p, x); }
  }

  lemma FreshMine<P, C>(site: Site<P, C>, used: set<P>, p: Pending<P, C>, files: seq<NewFile<P, C>>)
    requires Fresh(site, used, p, files) && site.ours(Some(p))
    ensures Mine(site, used + Private(p.slots), p)
  {
    forall i | 0 <= i < |p.slots|
      ensures var n := p.slots[i].names;
              n.dir == site.spots[i].dir && n.target == site.spots[i].path && n.staged in Private(p.slots)
                  && n.backup in Private(p.slots)
    {
      assert FreshSlot(site, used, p, site.spots[i], p.slots[i], files[i]);
    }
  }

  /** Both markers are in place and nothing has been swapped. */
  ghost predicate Begun<P, C>(site: Site<P, C>, used: set<P>, v: Volume<P, C>, p: Pending<P, C>) {
    Underway(site, used, v, p) && BothLive(v, site.root) && AllAlways(v, p.slots, {Ready})
  }

  /** Everything that comes before the first marker. */
  function PrepareOps<P(==), C>(root: Root<P>, dirs: seq<P>, files: seq<NewFile<P, C>>,
                                f0: NewFile<P, C>): seq<Op<P, C>>
    requires |dirs| == |files|
  {
    StageFrom(dirs, files, 0) + NewFileOps(root.dir, f0)
  }

  /** From the rename that makes the first marker to the second marker. */
  function MarkOps<P(==), C>(root: Root<P>, f0: NewFile<P, C>, f1: NewFile<P, C>): seq<Op<P, C>> {
    ([Rename(root.dir, f0.path, root.m0)] + [SyncDir(root.dir)]) + PublishOps(root, root.m1, f1)
  }

  lemma BeginSplits<P, C>(root: Root<P>, dirs: seq<P>, files: seq<NewFile<P, C>>, f0: NewFile<P, C>, f1: NewFile<P, C>)
    requires |dirs| == |files|
    ensures BeginOps(root, dirs, files, f0, f1) == PrepareOps(root, dirs, files, f0) + MarkOps(root, f0, f1)
  {
    Regroup(StageFrom(dirs, files, 0), NewFileOps(root.dir, f0),
            [Rename(root.dir, f0.path, root.m0)] + [SyncDir(root.dir)],
            PublishOps(root, root.m1, f1));
  }

  lemma Regroup<T>(a: seq<T>, b: seq<T>, c: seq<T>, d: seq<T>)
    ensures a + ((b + c) + d) == (a + b) + (c + d)
  {
  }

  /** Everything is staged, nothing can bring a marker back, and the first marker's file waits under its
      temporary name. */
  ghost predicate Poised<P, C>(site: Site<P, C>, used: set<P>, v: Volume<P, C>, p: Pending<P, C>, f0: NewFile<P, C>,
                               f1: NewFile<P, C>) {
    var l := v.Live(site.root.dir);
    && SiteOk(site) && Kept(site, used, v, p) && AllAlways(v, p.slots, {Ready})
    && v.Dir(site.root.dir).queue == [] && !Marked(site.root, l)
    && f0.path in l && l[f0.path] == f0.ino && CleanAs(v, f0.ino, f0.full) && f0.path !in site.root.Marks()
    && Addable(site, used, v, site.root.dir, f1)
    && f0.path != f1.path && f0.full.content == f1.full.content == p.doc
  }

  /** The first marker's file, on top of a finished staging; whatever recovery was over before is forgotten
      with the sync of the root. */
  lemma PoisedSafe<P(!new), C(!new)>(site: Site<P, C>, used: set<P>, v: Volume<P, C>, o: Option<Pending<P, C>>,
                                     p: Pending<P, C>, f0: NewFile<P, C>, f1: NewFile<P, C>)
    requires GoodWith(site, used, v, o) && SiteOk(site) && !Marked(site.root, v.Live(site.root.dir))
    requires Prepared(site, used, v, p) && Usable(site, used, v, f0, f1) && f0.full.content == f1.full.content == p.doc
    ensures var ops := NewFileOps(site.root.dir, f0);
            SafeRun(site, used, ops, v) && Poised(site, used, Exec(ops, v), p, f0, f1)
  {
    var d := site.root.dir;
    NewFileSafe(site, used, v, o, d, f0);
    var w := WithFile(v, d, f0);
    assert w.Live(d) == v.Live(d)[f0.path := f0.ino];
    PreparedRoot(site, used, v, w, p);
    EmptyQueue(w, site.root);
    PreparedActive(site, used, w, p);
  }

  /** Staging is safe, and then the first marker is all that is missing. */
  lemma PrepareSafe<P(!new), C(!new)>(site: Site<P, C>, used: set<P>, v: Volume<P, C>, o: Option<Pending<P, C>>,
                                      p: Pending<P, C>, files: seq<NewFile<P, C>>, f0: NewFile<P, C>,
                                      f1: NewFile<P, C>)
    requires GoodWith(site, used, v, o) && !Marked(site.root, v.Live(site.root.dir))
    requires Fresh(site, used, p, files) && StagedTo(v, p, 0) && site.ours(Some(p))
    requires Usable(site, used + Private(p.slots), v, f0, f1) && f0.full.content == f1.full.content == p.doc
    requires forall i :: 0 <= i < |files| ==> files[i].ino != f0.ino && files[i].ino != f1.ino
    ensures var ops := PrepareOps(site.root, Dirs(p.slots), files, f0); var all := used + Private(p.slots);
            SafeRun(site, all, ops, v) && Poised(site, all, Exec(ops, v), p, f0, f1)
  {
    var all := used + Private(p.slots);
    var stage := StageFrom(Dirs(p.slots), files, 0);
    StageSafe(site, used, v, o, p, files, 0);
    SafeMore(site, used, all, stage, v);
    var w := Exec(stage, v);
    GoodMore(site, used, all, w, o);
    StagedFixed(w, p);
    StagedSlots(w, p);
    FreshMine(site, used, p, files);
    assert Prepared(site, all, w, p);
    PoisedSafe(site, all, w, o, p, f0, f1);
    SafeConcat(site, all, stage, NewFileOps(site.root.dir, f0), v);
  }

  // ---------------------------------------------------------------------------------------------
  // Whatever was there before

  /** What happens elsewhere does not depend on a directory, and leaves it. */
  lemma {:induction false} DirAside<P, C>(ops: seq<Op<P, C>>, v: Volume<P, C>, d: P, dir: Directory<P>)
    requires Elsewhere(ops, d)
    ensures Exec(ops, v.WithDir(d, dir)) == Exec(ops, v).WithDir(d, dir) && Exec(ops, v).Dir(d) == v.Dir(d)
  {
    if ops != [] {
      var op, w := ops[0], v.WithDir(d, dir);
      assert w.Dir(op.dir) == v.Dir(op.dir);
      assert Apply(op, w) == Apply(op, v).WithDir(d, dir);
      DirAside(ops[1..], Apply(op, v), d, dir);
    }
  }

  ghost predicate Elsewhere<P, C>(ops: seq<Op<P, C>>, d: P) {
    forall k :: 0 <= k < |ops| ==> ops[k].dir != d
  }

  lemma ElsewhereConcat<P, C>(a: seq<Op<P, C>>, b: seq<Op<P, C>>, d: P)
    requires Elsewhere(a, d) && Elsewhere(b, d)
    ensures Elsewhere(a + b, d)
  {
  }

  lemma {:induction false} StageAside<P, C>(dirs: seq<P>, files: seq<NewFile<P, C>>, i: nat, d: P)
    requires |dirs| == |files| && i <= |files| && d !in dirs
    ensures Elsewhere(StageFrom(dirs, files, i), d)
    decreases |files| - i
  {
    if i < |files| {
      StageAside(dirs, files, i + 1, d);
      ElsewhereConcat(NewFileOps(dirs[i], files[i]), StageFrom(dirs, files, i + 1), d);
    }
  }

  /** A new file in a directory leaves the same whether the directory was synced before or not. */
  lemma NewFileAnyway<P, C>(v: Volume<P, C>, d: P, f: NewFile<P, C>)
    requires f.path !in v.Live(d) && f.ino !in v.nodes
    ensures Exec(NewFileOps(d, f), v.WithDir(d, v.Dir(d).Synced())) == Exec(NewFileOps(d, f), v)
  {
    var u := v.WithDir(d, v.Dir(d).Synced());
    WithFileAnyway(v, d, f, u);
    NewFileExec(v, d, f);
    NewFileExec(u, d, f);
  }

  lemma WithFileAnyway<P, C>(v: Volume<P, C>, d: P, f: NewFile<P, C>, u: Volume<P, C>)
    requires u == v.WithDir(d, v.Dir(d).Synced())
    ensures u.Live(d) == v.Live(d) && WithFile(u, d, f) == WithFile(v, d, f)
  {
    SyncedViews(v.Dir(d), 0);
    assert WithFile(u, d, f).dirs == WithFile(v, d, f).dirs;
  }

  lemma NewFileExec<P, C>(v: Volume<P, C>, d: P, f: NewFile<P, C>)
    requires f.path !in v.Live(d) && f.ino !in v.nodes
    ensures Exec(NewFileOps(d, f), v) == WithFile(v, d, f)
  {
    var op0, op1, op2, op3: Op<P, C> := Create(d, f.path, f.ino, f.blank), Write(d, f.path, f.full),
        SyncFile(d, f.path), SyncDir(d);
    ExecCons(op0, [op1] + ([op2] + [op3]), v);
    ExecCons(op1, [op2] + [op3], Apply(op0, v));
    ExecCons(op2, [op3], Apply(op1, Apply(op0, v)));
    ExecOne(op3, Apply(op2, Apply(op1, Apply(op0, v))));
    NewFileResult(v, d, f);
  }

  lemma PrepareAnyway<P, C>(root: Root<P>, dirs: seq<P>, files: seq<NewFile<P, C>>, f0: NewFile<P, C>, v: Volume<P, C>,
                            w: Volume<P, C>)
    requires |dirs| == |files| && root.dir !in dirs && w == Exec(StageFrom(dirs, files, 0), v)
    requires f0.path !in v.Live(root.dir) && f0.ino !in w.nodes
    ensures var ops := PrepareOps(root, dirs, files, f0); var d := root.dir;
            Exec(ops, v.WithDir(d, v.Dir(d).Synced())) == Exec(ops, v)
  {
    var stage, d, dir := StageFrom(dirs, files, 0), root.dir, v.Dir(root.dir).Synced();
    StageAside(dirs, files, 0, d);
    DirAside(stage, v, d, dir);
    NewFileAnyway(w, d, f0);
    ExecConcat(stage, NewFileOps(d, f0), v);
    ExecConcat(stage, NewFileOps(d, f0), v.WithDir(d, dir));
  }

  /** A volume that shows no marker, with its root synced: whatever recovery was over before is forgotten. */
  lemma SyncedGood<P, C>(site: Site<P, C>, used: set<P>, v: Volume<P, C>, u: Volume<P, C>)
    requires !Marked(site.root, v.Live(site.root.dir)) && site.ours(None)
    requires u == v.WithDir(site.root.dir, v.Dir(site.root.dir).Synced())
    ensures u.Live(site.root.dir) == v.Live(site.root.dir) && GoodWith(site, used, u, None)
  {
    SyncedViews(v.Dir(site.root.dir), 0);
    EmptyQueue(u, site.root);
  }

  lemma StagedToSynced<P, C>(root: Root<P>, v: Volume<P, C>, u: Volume<P, C>, p: Pending<P, C>)
    requires StagedTo(v, p, 0) && Separate(root, p.slots) && u == v.WithDir(root.dir, v.Dir(root.dir).Synced())
    ensures StagedTo(u, p, 0)
  {
    forall j | 0 <= j < |p.slots| ensures SlotAt(u, p, p.slots[j], false) {
      assert SlotAt(v, p, p.slots[j], false);
      assert u.Dir(p.slots[j].names.dir) == v.Dir(p.slots[j].names.dir);
    }
  }

  /** Which recoveries are of interest does not matter to staging. */
  lemma FreshAnyway<P, C>(site: Site<P, C>, any: Site<P, C>, used: set<P>, p: Pending<P, C>, files: seq<NewFile<P, C>>)
    requires Fresh(site, used, p, files) && any == site.(ours := any.ours)
    ensures Fresh(any, used, p, files)
  {
    forall i | 0 <= i < |p.slots| ensures FreshSlot(any, used, p, any.spots[i], p.slots[i], files[i]) {
      assert FreshSlot(site, used, p, site.spots[i], p.slots[i], files[i]);
    }
  }

  lemma StagedNodes<P(!new), C(!new)>(site: Site<P, C>, used: set<P>, u: Volume<P, C>, p: Pending<P, C>,
                                      files: seq<NewFile<P, C>>, x: Ino)
    requires GoodWith(site, used, u, None) && Fresh(site, used, p, files) && StagedTo(u, p, 0)
    requires x !in u.nodes && forall i :: 0 <= i < |files| ==> files[i].ino != x
    ensures x !in Exec(StageFrom(Dirs(p.slots), files, 0), u).nodes
  {
    StageSafe(site, used, u, None, p, files, 0);
  }

  lemma RootNotStaged<P>(root: Root<P>, slots: seq<Slot<P>>)
    requires Separate(root, slots)
    ensures root.dir !in Dirs(slots)
  {
  }

  lemma PoisedAnyway<P, C>(site: Site<P, C>, any: Site<P, C>, used: set<P>, v: Volume<P, C>, p: Pending<P, C>,
                           f0: NewFile<P, C>, f1: NewFile<P, C>)
    requires Poised(any, used, v, p, f0, f1) && any == site.(ours := any.ours) && site.ours(Some(p))
    ensures Poised(site, used, v, p, f0, f1)
  {
    assert Foreign(site, used, f1.path);
  }

  lemma UsableSynced<P, C>(site: Site<P, C>, any: Site<P, C>, used: set<P>, v: Volume<P, C>, u: Volume<P, C>,
                           f0: NewFile<P, C>, f1: NewFile<P, C>)
    requires Usable(site, used, v, f0, f1) && any == site.(ours := any.ours)
    requires u.Live(site.root.dir) == v.Live(site.root.dir) && u.nodes == v.nodes
    ensures Usable(any, used, u, f0, f1)
  {
    assert Foreign(any, used, f0.path) && Foreign(any, used, f1.path);
  }

  lemma StageSynced<P(!new), C(!new)>(site: Site<P, C>, used: set<P>, v: Volume<P, C>, u: Volume<P, C>,
                                      p: Pending<P, C>, files: seq<NewFile<P, C>>, f0: NewFile<P, C>)
    requires GoodWith(site, used, u, None) && Fresh(site, used, p, files) && StagedTo(u, p, 0)
    requires u == v.WithDir(site.root.dir, v.Dir(site.root.dir).Synced())
    requires f0.path !in v.Live(site.root.dir) && f0.ino !in v.nodes
    requires forall i :: 0 <= i < |files| ==> files[i].ino != f0.ino
    ensures var ops := PrepareOps(site.root, Dirs(p.slots), files, f0); Exec(ops, u) == Exec(ops, v)
  {
    var d, dirs, stage := site.root.dir, Dirs(p.slots), StageFrom(Dirs(p.slots), files, 0);
    StagedNodes(site, used, u, p, files, f0.ino);
    RootNotStaged(site.root, p.slots);
    StageAside(dirs, files, 0, d);
    DirAside(stage, v, d, v.Dir(d).Synced());
    PrepareAnyway(site.root, dirs, files, f0, v, Exec(stage, v));
  }

  /** Whatever there was before, also a marker whose removal is not synced: once everything is prepared, only
      this recovery is ahead. */
  lemma PreparePoised<P(!new), C(!new)>(site: Site<P, C>, used: set<P>, v: Volume<P, C>, p: Pending<P, C>,
                                        files: seq<NewFile<P, C>>, f0: NewFile<P, C>, f1: NewFile<P, C>)
    requires !Marked(site.root, v.Live(site.root.dir))
    requires Fresh(site, used, p, files) && StagedTo(v, p, 0) && site.ours(Some(p))
    requires Usable(site, used + Private(p.slots), v, f0, f1) && f0.full.content == f1.full.content == p.doc
    requires forall i :: 0 <= i < |files| ==> files[i].ino != f0.ino && files[i].ino != f1.ino
    ensures var ops := PrepareOps(site.root, Dirs(p.slots), files, f0);
            Poised(site, used + Private(p.slots), Exec(ops, v), p, f0, f1)
  {
    var d, all := site.root.dir, used + Private(p.slots);
    var any, u := site.(ours := _ => true), v.WithDir(d, v.Dir(d).Synced());
    SyncedGood(any, used, v, u);
    StagedToSynced(site.root, v, u, p);
    FreshAnyway(site, any, used, p, files);
    UsableSynced(site, any, all, v, u, f0, f1);
    PrepareSafe(any, used, u, None, p, files, f0, f1);
    StageSynced(any, used, v, u, p, files, f0);
    PoisedAnyway(site, any, all, Exec(PrepareOps(site.root, Dirs(p.slots), files, f0), v), p, f0, f1);
  }

  /** From there both markers follow safely, and nothing but this recovery is pending at any operation. */
  lemma MarkSafe<P(!new), C(!new)>(site: Site<P, C>, used: set<P>, v: Volume<P, C>, p: Pending<P, C>, f0: NewFile<P, C>,
                                   f1: NewFile<P, C>)
    requires Poised(site, used, v, p, f0, f1)
    ensures var ops := MarkOps(site.root, f0, f1); SafeRun(site, used, ops, v) && Begun(site, used, Exec(ops, v), p)
  {
    var root := site.root;
    var l := v.Live(root.dir);
    var w := v.WithDir(root.dir, Directory((l - {f0.path})[root.m0 := l[f0.path]], []));
    LinkMarkerSafe(site, used, v, p, root.m0, f0.path);
    ReadyStays(site, v, w, p);
    assert w.Live(root.dir) == (l - {f0.path})[root.m0 := l[f0.path]];
    PublishSafe(site, used, w, p, root.m1, f1);
    ReadyStays(site, w, Published(w, root, root.m1, f1), p);
    SafeConcat(site, used, [Rename(root.dir, f0.path, root.m0)] + [SyncDir(root.dir)], PublishOps(root, root.m1, f1),
               v);
  }

  /** A restore is safe up to and including the second marker, and then everything is ready. */
  lemma BeginSafe<P(!new), C(!new)>(site: Site<P, C>, used: set<P>, v: Volume<P, C>, o: Option<Pending<P, C>>,
                                    p: Pending<P, C>, files: seq<NewFile<P, C>>, f0: NewFile<P, C>,
                                    f1: NewFile<P, C>)
    requires GoodWith(site, used, v, o) && !Marked(site.root, v.Live(site.root.dir))
    requires Fresh(site, used, p, files) && StagedTo(v, p, 0) && site.ours(Some(p))
    requires Usable(site, used + Private(p.slots), v, f0, f1) && f0.full.content == f1.full.content == p.doc
    requires forall i :: 0 <= i < |files| ==> files[i].ino != f0.ino && files[i].ino != f1.ino
    ensures var ops := BeginOps(site.root, Dirs(p.slots), files, f0, f1); var all := used + Private(p.slots);
            SafeRun(site, all, ops, v) && Begun(site, all, Exec(ops, v), p)
  {
    var all := used + Private(p.slots);
    var prepare, mark := PrepareOps(site.root, Dirs(p.slots), files, f0), MarkOps(site.root, f0, f1);
    PrepareSafe(site, used, v, o, p, files, f0, f1);
    MarkSafe(site, all, Exec(prepare, v), p, f0, f1);
    SafeConcat(site, all, prepare, mark, v);
    BeginSplits(site.root, Dirs(p.slots), files, f0, f1);
  }

  lemma ReadyStays<P, C>(site: Site<P, C>, v: Volume<P, C>, w: Volume<P, C>, p: Pending<P, C>)
    requires AllAlways(v, p.slots, {Ready}) && Separate(site.root, p.slots) && forall d :: d != site.root.dir ==>
               w.Dir(d) == v.Dir(d)
    ensures AllAlways(w, p.slots, {Ready})
  {
    forall i | 0 <= i < |p.slots| ensures Always(w, p.slots[i], {Ready}) {
      assert Always(v, p.slots[i], {Ready});
      assert w.Dir(p.slots[i].names.dir) == v.Dir(p.slots[i].names.dir);
    }
  }
}
