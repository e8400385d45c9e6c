/** Swapping the files and removing the markers: the second half of a recovery, and all of a resume. */
module Swapping {
  import opened Volumes
  import opened Recoveries
  import opened Protocol

  // ---------------------------------------------------------------------------------------------
  // Swapping one file

  function SwapOps<P(==), C>(n: Names<P>, hadOriginal: bool, ph: Phase): seq<Op<P, C>> {
    (if ph.Ready? && hadOriginal then [Rename(n.dir, n.target, n.backup)] + [SyncDir(n.dir)] else [])
    + ((if ph.Installed? then [] else [Rename(n.dir, n.staged, n.target)])
       + ([SyncFile(n.dir, n.target)] + [SyncDir(n.dir)]))
  }

  /** A recovery in full swing. */
  ghost predicate Underway<P, C>(site: Site<P, C>, used: set<P>, v: Volume<P, C>, p: Pending<P, C>) {
    SiteOk(site) && Kept(site, used, v, p) && Guarded(v, site.root)
  }

  /** Slot `j` looks the same to programs and to power losses. */
  ghost predicate Undisturbed<P, C>(v: Volume<P, C>, w: Volume<P, C>, s: Slot<P>) {
    && (forall ph :: In(s, v.Live(s.names.dir), ph) ==> In(s, w.Live(s.names.dir), ph))
    && (Always(v, s, {Installed}) ==> Always(w, s, {Installed}))
  }

  ghost predicate OthersUndisturbed<P, C>(v: Volume<P, C>, w: Volume<P, C>, slots: seq<Slot<P>>, i: nat) {
    forall j :: 0 <= j < |slots| && j != i ==> Undisturbed(v, w, slots[j])
  }

  lemma MoveOthers<P, C>(v: Volume<P, C>, root: Root<P>, slots: seq<Slot<P>>, i: nat, op: DirOp<P>)
    requires Separate(root, slots) && i < |slots| && op.Move? && op.from in slots[i].names.All()
    requires op.to in slots[i].names.All()
    ensures forall j :: 0 <= j < |slots| && j != i ==> !Touches(op, slots[j].names.All())
    ensures var d := slots[i].names.dir; OthersUndisturbed(v, v.WithDir(d, v.Dir(d).Queued(op)), slots, i)
  {
    var d := slots[i].names.dir;
    var w := v.WithDir(d, v.Dir(d).Queued(op));
    QueuedViews(v.Dir(d), op, |v.Dir(d).queue| + 1);
    forall j | 0 <= j < |slots| && j != i
      ensures !Touches(op, slots[j].names.All()) && Undisturbed(v, w, slots[j])
    {
      var s := slots[j];
      assert s.names.All() !! slots[i].names.All();
      forall ph | In(s, v.Live(s.names.dir), ph) ensures In(s, w.Live(s.names.dir), ph) {
        if s.names.dir == d {
          ChangeElsewhere(s, v.Live(d), op, ph);
        } else {
          assert w.Dir(s.names.dir) == v.Dir(s.names.dir);
        }
      }
      if Always(v, s, {Installed}) {
        AlwaysLive(v, s, {Installed});
        if s.names.dir == d { ChangeElsewhereSome(s, v.Live(d), op, {Installed}); }
        AlwaysQueued(v, d, op, s, {Installed});
      }
    }
  }

  lemma SyncOthers<P, C>(v: Volume<P, C>, d: P, s: Slot<P>)
    ensures Undisturbed(v, v.WithDir(d, v.Dir(d).Synced()), s)
  {
    var w := v.WithDir(d, v.Dir(d).Synced());
    SyncedViews(v.Dir(d), 0);
    if s.names.dir != d { assert w.Dir(s.names.dir) == v.Dir(s.names.dir); }
    if Always(v, s, {Installed}) {
      AlwaysLive(v, s, {Installed});
      AlwaysSynced(v, d, s, {Installed});
    }
  }

  /** A rename inside slot `i` that leads to phase `to`. */
  lemma MoveSafe<P(!new), C(!new)>(site: Site<P, C>, used: set<P>, v: Volume<P, C>, p: Pending<P, C>, i: nat, from: P,
                                   dest: P, to: Phase)
    requires Underway(site, used, v, p) && i < |p.slots|
    requires var s := p.slots[i]; var l := v.Live(s.names.dir);
             && from in s.names.All() && dest in s.names.All() && from in l && dest !in l
             && In(s, Change(l, Move(from, dest)), to)
    ensures var n := p.slots[i].names; var op: Op<P, C> := Rename(n.dir, from, dest); var w := Apply(op, v);
            && Harmless(op, v) && Underway(site, used, w, p) && OthersUndisturbed(v, w, p.slots, i)
            && In(p.slots[i], w.Live(n.dir), to) && w.Dir(site.root.dir) == v.Dir(site.root.dir) && w.nodes == v.nodes
               && w.dirty == v.dirty
  {
    var s := p.slots[i];
    var d := s.names.dir;
    var op := Move(from, dest);
    MoveOthers(v, site.root, p.slots, i, op);
    assert InSome(s, Change(v.Live(d), op), AnyPhase());
    SlotMoves(v, site.root, p, i, op);
    QueuedViews(v.Dir(d), op, |v.Dir(d).queue| + 1);
  }

  lemma SyncSafe<P(!new), C(!new)>(site: Site<P, C>, used: set<P>, v: Volume<P, C>, p: Pending<P, C>, i: nat)
    requires Underway(site, used, v, p) && i < |p.slots|
    ensures var s := p.slots[i]; var op: Op<P, C> := SyncDir(s.names.dir); var w := Apply(op, v);
            && Underway(site, used, w, p) && OthersUndisturbed(v, w, p.slots, i)
            && w.Live(s.names.dir) == v.Live(s.names.dir) && w.Dir(site.root.dir) == v.Dir(site.root.dir)
            && (In(s, v.Live(s.names.dir), Installed) ==> Always(w, s, {Installed}))
            && w.nodes == v.nodes && w.dirty == v.dirty
  {
    var s := p.slots[i];
    var d := s.names.dir;
    SyncActive(v, site.root, p, d);
    SyncedViews(v.Dir(d), 0);
    forall j | 0 <= j < |p.slots| && j != i ensures Undisturbed(v, v.WithDir(d, v.Dir(d).Synced()), p.slots[j]) {
      SyncOthers(v, d, p.slots[j]);
    }
    if In(s, v.Live(d), Installed) {
      assert InSome(s, v.Live(d), {Installed});
      AlwaysSynced(v, d, s, {Installed});
    }
  }

  lemma SyncFileSafe<P(!new), C(!new)>(site: Site<P, C>, used: set<P>, v: Volume<P, C>, p: Pending<P, C>, i: nat)
    requires Underway(site, used, v, p) && i < |p.slots| && In(p.slots[i], v.Live(p.slots[i].names.dir), Installed)
    ensures var n := p.slots[i].names; var op: Op<P, C> := SyncFile(n.dir, n.target); var w := Apply(op, v);
            Harmless(op, v) && w == v
  {
    var n := p.slots[i].names;
    assert Known(p, p.slots[i]);
    assert v.dirty - {v.Live(n.dir)[n.target]} == v.dirty;
  }

  /** From any phase, the missing renames of one file end with it installed for good. */
  lemma SwapTail<P(!new), C(!new)>(site: Site<P, C>, used: set<P>, v: Volume<P, C>, p: Pending<P, C>, i: nat)
    requires Underway(site, used, v, p) && i < |p.slots| && In(p.slots[i], v.Live(p.slots[i].names.dir), Installed)
    ensures var n := p.slots[i].names; var ops: seq<Op<P, C>> := [SyncFile(n.dir, n.target)] + [SyncDir(n.dir)];
            SafeRun(site, used, ops, v) && Swapped(site, used, v, Exec(ops, v), p, i)
  {
    var n := p.slots[i].names;
    var op0, op1: Op<P, C> := SyncFile(n.dir, n.target), SyncDir(n.dir);
    SyncFileSafe(site, used, v, p, i);
    SyncSafe(site, used, v, p, i);
    var w := Apply(op1, v);
    assert GoodWith(site, used, v, Some(p)) && GoodWith(site, used, w, Some(p));
    assert SafeRun(site, used, [], w);
    SafeCons(site, used, op1, [], v, Some(p));
    assert [op1] + [] == [op1];
    SafeCons(site, used, op0, [op1], v, Some(p));
  }

  /** Slot `i` is installed for good, everything else is as it was. */
  ghost predicate Swapped<P, C>(site: Site<P, C>, used: set<P>, v: Volume<P, C>, w: Volume<P, C>, p: Pending<P, C>,
                                i: nat)
    requires i < |p.slots|
  {
    && Underway(site, used, w, p) && Always(w, p.slots[i], {Installed}) && OthersUndisturbed(v, w, p.slots, i)
    && w.Dir(site.root.dir) == v.Dir(site.root.dir) && w.nodes == v.nodes && w.dirty == v.dirty
  }

  lemma SwapInstall<P(!new), C(!new)>(site: Site<P, C>, used: set<P>, v: Volume<P, C>, p: Pending<P, C>, i: nat,
                                      ph: Phase)
    requires Underway(site, used, v, p) && i < |p.slots| && In(p.slots[i], v.Live(p.slots[i].names.dir), ph)
    requires ph.Ready? ==> p.slots[i].original.None?
    ensures var n := p.slots[i].names;
            var ops: seq<Op<P, C>> :=
                (if ph.Installed? then [] else [Rename(n.dir, n.staged, n.target)])
                    + ([SyncFile(n.dir, n.target)] + [SyncDir(n.dir)]);
            SafeRun(site, used, ops, v) && Swapped(site, used, v, Exec(ops, v), p, i)
  {
    var n := p.slots[i].names;
    var tail: seq<Op<P, C>> := [SyncFile(n.dir, n.target)] + [SyncDir(n.dir)];
    if ph.Installed? {
      SwapTail(site, used, v, p, i);
      assert [] + tail == tail;
    } else {
      InstallMove(p.slots[i], v.Live(n.dir));
      MoveSafe(site, used, v, p, i, n.staged, n.target, Installed);
      var op: Op<P, C> := Rename(n.dir, n.staged, n.target);
      var w := Apply(op, v);
      SwapTail(site, used, w, p, i);
      assert GoodWith(site, used, v, Some(p));
      SafeCons(site, used, op, tail, v, Some(p));
    }
  }

  /** One file is swapped from whatever phase it is in. */
  lemma SwapSafe<P(!new), C(!new)>(site: Site<P, C>, used: set<P>, v: Volume<P, C>, p: Pending<P, C>, i: nat, ph: Phase)
    requires Underway(site, used, v, p) && i < |p.slots| && In(p.slots[i], v.Live(p.slots[i].names.dir), ph)
    ensures var ops: seq<Op<P, C>> := SwapOps(p.slots[i].names, p.slots[i].original.Some?, ph);
            SafeRun(site, used, ops, v) && Swapped(site, used, v, Exec(ops, v), p, i)
  {
    var s := p.slots[i];
    var n := s.names;
    if ph.Ready? && s.original.Some? {
      SaveMove(s, v.Live(n.dir));
      MoveSafe(site, used, v, p, i, n.target, n.backup, Saved);
      var op0, op1: Op<P, C> := Rename(n.dir, n.target, n.backup), SyncDir(n.dir);
      var v1 := Apply(op0, v);
      SyncSafe(site, used, v1, p, i);
      var v2 := Apply(op1, v1);
      SwapInstall(site, used, v2, p, i, Saved);
      assert GoodWith(site, used, v, Some(p)) && GoodWith(site, used, v1, Some(p)) && GoodWith(site, used, v2, Some(p));
      assert SafeRun(site, used, [], v2);
      SafeCons(site, used, op1, [], v1, Some(p));
      assert [op1] + [] == [op1];
      SafeCons(site, used, op0, [op1], v, Some(p));
      var tail: seq<Op<P, C>> := [Rename(n.dir, n.staged, n.target)] + ([SyncFile(n.dir, n.target)] + [SyncDir(n.dir)]);
      SafeConcat(site, used, [op0] + [op1], tail, v);
    } else {
      SwapInstall(site, used, v, p, i, ph);
      var tail: seq<Op<P, C>> :=
          (if ph.Installed? then [] else [Rename(n.dir, n.staged, n.target)])
              + ([SyncFile(n.dir, n.target)] + [SyncDir(n.dir)]);
      assert [] + tail == tail;
    }
  }

  // ---------------------------------------------------------------------------------------------
  // Swapping all files, and removing the markers

  function SwapsFrom<P(==), C>(slots: seq<(Names<P>, bool)>, phases: seq<Phase>, i: nat): seq<Op<P, C>>
    requires |slots| == |phases| && i <= |slots|
    decreases |slots| - i
  {
    if i == |slots| then [] else SwapOps(slots[i].0, slots[i].1, phases[i]) + SwapsFrom(slots, phases, i + 1)
  }

  /** What the operations need to know of the slots: the names, and whether there was an original. */
  function Tracks<P(==)>(slots: seq<Slot<P>>): (r: seq<(Names<P>, bool)>)
    ensures |r| == |slots| && forall i :: 0 <= i < |slots| ==> r[i] == (slots[i].names, slots[i].original.Some?)
  {
    seq(|slots|, i requires 0 <= i < |slots| => (slots[i].names, slots[i].original.Some?))
  }

  ghost predicate Seen<P, C>(v: Volume<P, C>, slots: seq<Slot<P>>, phases: seq<Phase>, i: nat) {
    && |phases| == |slots| && i <= |slots|
    && (forall j :: 0 <= j < i ==> Always(v, slots[j], {Installed}))
    && (forall j :: i <= j < |slots| ==> In(slots[j], v.Live(slots[j].names.dir), phases[j]))
  }

  lemma {:induction false} SwapAllSafe<P(!new), C(!new)>(site: Site<P, C>, used: set<P>, v: Volume<P, C>,
                                                         p: Pending<P, C>, phases: seq<Phase>, i: nat)
    requires Underway(site, used, v, p) && Seen(v, p.slots, phases, i)
    ensures var ops: seq<Op<P, C>> := SwapsFrom(Tracks(p.slots), phases, i); var w := Exec(ops, v);
            && SafeRun(site, used, ops, v)
            && Underway(site, used, w, p) && AllAlways(w, p.slots, {Installed})
            && w.Dir(site.root.dir) == v.Dir(site.root.dir) && w.nodes == v.nodes && w.dirty == v.dirty
    decreases |p.slots| - i
  {
    if i == |p.slots| {
      assert GoodWith(site, used, v, Some(p));
    } else {
      SwapSafe(site, used, v, p, i, phases[i]);
      var first: seq<Op<P, C>> := SwapOps(p.slots[i].names, p.slots[i].original.Some?, phases[i]);
      var rest: seq<Op<P, C>> := SwapsFrom(Tracks(p.slots), phases, i + 1);
      var w := Exec(first, v);
      SeenNext(site, used, v, w, p, phases, i);
      SwapAllSafe(site, used, w, p, phases, i + 1);
      SafeConcat(site, used, first, rest, v);
    }
  }

  lemma SeenNext<P(!new), C(!new)>(site: Site<P, C>, used: set<P>, v: Volume<P, C>, w: Volume<P, C>, p: Pending<P, C>,
                                   phases: seq<Phase>, i: nat)
    requires Seen(v, p.slots, phases, i) && i < |p.slots| && Swapped(site, used, v, w, p, i)
    ensures Seen(w, p.slots, phases, i + 1)
  {
    forall j | 0 <= j < |p.slots| && j != i ensures Undisturbed(v, w, p.slots[j]) {}
  }

  function UnmarkOps<P(==), C>(root: Root<P>): seq<Op<P, C>> {
    [Unlink(root.dir, root.m0)] + ([SyncDir(root.dir)] + ([Unlink(root.dir, root.m1)] + [SyncDir(root.dir)]))
  }

  /** The recovery is over, and no power loss can undo any of it: every target is the checkpoint copy,
      every original is the backup, nothing is staged, no marker is left. */
  ghost predicate Completed<P, C>(site: Site<P, C>, v: Volume<P, C>, p: Pending<P, C>) {
    Fixed(v, p.fixed) && AllAlways(v, p.slots, {Installed}) && Unmarked(v, site.root)
  }

  lemma UnmarkOne<P(!new), C(!new)>(site: Site<P, C>, used: set<P>, v: Volume<P, C>, p: Pending<P, C>, m: P,
                                    rest: seq<Op<P, C>>)
    requires SiteOk(site) && Kept(site, used, v, p) && AllAlways(v, p.slots, {Installed})
    requires m in site.root.Marks() && m in v.Live(site.root.dir)
    ensures var d := site.root.dir; var w := v.WithDir(d, Directory(v.Live(d) - {m}, []));
            && Kept(site, used, w, p) && AllAlways(w, p.slots, {Installed})
            && (SafeRun(site, used, rest, w) ==>
                  var ops := [Unlink(d, m)] + ([SyncDir(d)] + rest);
                  SafeRun(site, used, ops, v) && Exec(ops, v) == Exec(rest, w))
  {
    var d := site.root.dir;
    var op0, op1: Op<P, C> := Unlink(d, m), SyncDir(d);
    UnlinkActive(v, site.root, p, m);
    var v1 := Apply(op0, v);
    SyncActive(v1, site.root, p, d);
    SlotsSynced(v1, d, p.slots, {Installed});
    var w := Apply(op1, v1);
    assert w.dirs == v.WithDir(d, Directory(v.Live(d) - {m}, [])).dirs;
    assert GoodWith(site, used, v, Some(p)) && GoodWith(site, used, v1, Some(p));
    if SafeRun(site, used, rest, w) {
      SafeCons(site, used, op1, rest, v1, Some(p));
      SafeCons(site, used, op0, [op1] + rest, v, Some(p));
    }
  }

  lemma UnmarkSafe<P(!new), C(!new)>(site: Site<P, C>, used: set<P>, v: Volume<P, C>, p: Pending<P, C>)
    requires SiteOk(site) && Kept(site, used, v, p) && AllAlways(v, p.slots, {Installed}) && BothLive(v, site.root)
    ensures var ops: seq<Op<P, C>> := UnmarkOps(site.root); var w := Exec(ops, v);
            SafeRun(site, used, ops, v) && Completed(site, w, p) && w.nodes == v.nodes
  {
    var d := site.root.dir;
    var w1 := v.WithDir(d, Directory(v.Live(d) - {site.root.m0}, []));
    var second: seq<Op<P, C>> := [Unlink(d, site.root.m1)] + [SyncDir(d)];
    UnmarkOne(site, used, v, p, site.root.m0, second);
    assert w1.Live(d) == v.Live(d) - {site.root.m0};
    UnmarkOne(site, used, w1, p, site.root.m1, []);
    var w2 := w1.WithDir(d, Directory(w1.Live(d) - {site.root.m1}, []));
    assert w2.Live(d) == w1.Live(d) - {site.root.m1};
    EmptyQueue(w2, site.root);
    assert GoodWith(site, used, w2, Some(p));
    assert SafeRun(site, used, [], w2);
    assert [SyncDir(d)] + [] == [Op<P, C>.SyncDir(d)];
  }

  // ---------------------------------------------------------------------------------------------
  // Resuming

  /** The operations of `resume` once it has decided to apply: put missing markers back, finish every
      file, and (if the final inspection agrees) remove the markers. */
  function ResumeOps<P(==), C>(root: Root<P>, live: map<P, Ino>, f0: NewFile<P, C>, f1: NewFile<P, C>,
                               slots: seq<(Names<P>, bool)>, phases: seq<Phase>, inspected: bool): seq<Op<P, C>>
    requires |slots| == |phases|
  {
    RemarkOps(root, live, f0, f1) + FinishOps(root, slots, phases, inspected)
  }

  function RemarkOps<P(==), C>(root: Root<P>, live: map<P, Ino>, f0: NewFile<P, C>, f1: NewFile<P, C>): seq<Op<P, C>> {
    (if root.m0 in live then [] else PublishOps(root, root.m0, f0))
    + (if root.m1 in live then [] else PublishOps(root, root.m1, f1))
  }

  function FinishOps<P(==), C>(root: Root<P>, slots: seq<(Names<P>, bool)>, phases: seq<Phase>,
                               inspected: bool): seq<Op<P, C>>
    requires |slots| == |phases|
  {
    SwapsFrom(slots, phases, 0) + (if inspected then UnmarkOps(root) else [])
  }

  /** Files can be created under these names. */
  ghost predicate Usable<P, C>(site: Site<P, C>, used: set<P>, v: Volume<P, C>, f0: NewFile<P, C>, f1: NewFile<P, C>) {
    && Addable(site, used, v, site.root.dir, f0) && Addable(site, used, v, site.root.dir, f1)
    && f0.path != f1.path && f0.ino != f1.ino
  }

  /** Both markers are back before the first rename. */
  lemma RemarkSafe<P(!new), C(!new)>(site: Site<P, C>, used: set<P>, v: Volume<P, C>, p: Pending<P, C>,
                                     f0: NewFile<P, C>, f1: NewFile<P, C>)
    requires SiteOk(site) && Kept(site, used, v, p) && Marked(site.root, v.Live(site.root.dir))
    requires Usable(site, used, v, f0, f1)
    requires f0.full.content == f1.full.content == p.doc
    ensures var ops := RemarkOps(site.root, v.Live(site.root.dir), f0, f1); var w := Exec(ops, v);
            && SafeRun(site, used, ops, v) && Underway(site, used, w, p) && BothLive(w, site.root)
            && (forall d :: d != site.root.dir ==> w.Dir(d) == v.Dir(d))
  {
    var root := site.root;
    var l := v.Live(root.dir);
    assert GoodWith(site, used, v, Some(p));
    if root.m0 !in l {
      PublishSafe(site, used, v, p, root.m0, f0);
      assert PublishOps(root, root.m0, f0) + [] == PublishOps(root, root.m0, f0);
    } else if root.m1 !in l {
      PublishSafe(site, used, v, p, root.m1, f1);
      assert [] + PublishOps(root, root.m1, f1) == PublishOps(root, root.m1, f1);
    }
  }

  lemma SeenSame<P, C>(v: Volume<P, C>, w: Volume<P, C>, root: Root<P>, p: Pending<P, C>, phases: seq<Phase>)
    requires Separate(root, p.slots) && Seen(v, p.slots, phases, 0) && forall d :: d != root.dir ==>
               w.Dir(d) == v.Dir(d)
    ensures Seen(w, p.slots, phases, 0)
  {
    forall j | 0 <= j < |p.slots| ensures In(p.slots[j], w.Live(p.slots[j].names.dir), phases[j]) {
      assert w.Dir(p.slots[j].names.dir) == v.Dir(p.slots[j].names.dir);
    }
  }

  /** The second half: from both markers in place to the end. */
  lemma FinishSafe<P(!new), C(!new)>(site: Site<P, C>, used: set<P>, v: Volume<P, C>, p: Pending<P, C>,
                                     phases: seq<Phase>, inspected: bool)
    requires Underway(site, used, v, p) && BothLive(v, site.root) && Seen(v, p.slots, phases, 0)
    ensures var ops: seq<Op<P, C>> := FinishOps(site.root, Tracks(p.slots), phases, inspected);
            SafeRun(site, used, ops, v) && Outcome(site, used, Exec(ops, v), p, inspected)
  {
    var swaps: seq<Op<P, C>> := SwapsFrom(Tracks(p.slots), phases, 0);
    var last: seq<Op<P, C>> := if inspected then UnmarkOps(site.root) else [];
    SwapAllSafe(site, used, v, p, phases, 0);
    var w := Exec(swaps, v);
    assert GoodWith(site, used, w, Some(p));
    if inspected { UnmarkSafe(site, used, w, p); }
    assert SafeRun(site, used, last, w);
    SafeConcat(site, used, swaps, last, v);
  }

  /** How an uninterrupted resume ends: completed, or, if the inspector objects, installed with both
      markers still in place. */
  ghost predicate Outcome<P, C>(site: Site<P, C>, used: set<P>, v: Volume<P, C>, p: Pending<P, C>, inspected: bool) {
    if inspected then Completed(site, v, p)
    else Underway(site, used, v, p) && BothLive(v, site.root) && AllAlways(v, p.slots, {Installed})
  }

  /** Resuming is safe at every operation, and if it is not cut short it ends as it should. */
  lemma ResumeSafe<P(!new), C(!new)>(site: Site<P, C>, used: set<P>, v: Volume<P, C>, p: Pending<P, C>,
                                     f0: NewFile<P, C>, f1: NewFile<P, C>, phases: seq<Phase>, inspected: bool)
    requires SiteOk(site) && Kept(site, used, v, p) && Marked(site.root, v.Live(site.root.dir))
    requires Usable(site, used, v, f0, f1)
    requires f0.full.content == f1.full.content == p.doc && Seen(v, p.slots, phases, 0)
    ensures var ops := ResumeOps(site.root, v.Live(site.root.dir), f0, f1, Tracks(p.slots), phases, inspected);
            SafeRun(site, used, ops, v) && Outcome(site, used, Exec(ops, v), p, inspected)
  {
    var root := site.root;
    var l := v.Live(root.dir);
    var first := RemarkOps(root, l, f0, f1);
    RemarkSafe(site, used, v, p, f0, f1);
    var w := Exec(first, v);
    SeenSame(v, w, root, p, phases);
    FinishSafe(site, used, w, p, phases, inspected);
    SafeConcat(site, used, first, FinishOps(root, Tracks(p.slots), phases, inspected), v);
  }
}
