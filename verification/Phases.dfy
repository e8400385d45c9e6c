/** The operations of a recovery, followed by the listings alone: on any volume, whatever else there is and whatever a
    power loss could do, they take every file from phase to phase. */
module Phases {
  import opened Volumes
  import opened Recoveries
  import opened Swapping

  /** Every slot is in some phase before and after every operation. */
  ghost predicate Tracked<P, C>(ops: seq<Op<P, C>>, v: Volume<P, C>, slots: seq<Slot<P>>)
    decreases ops
  {
    && (exists phases :: Seen(v, slots, phases, 0))
    && (ops != [] ==> Tracked(ops[1..], Apply(ops[0], v), slots))
  }

  lemma {:induction false} TrackedCut<P, C>(ops: seq<Op<P, C>>, v: Volume<P, C>, slots: seq<Slot<P>>, cut: nat)
    returns (phases: seq<Phase>)
    requires Tracked(ops, v, slots)
    ensures Seen(Exec(Cut(ops, cut), v), slots, phases, 0)
  {
    if ops != [] && cut > 0 {
      phases := TrackedCut(ops[1..], Apply(ops[0], v), slots, cut - 1);
      assert [ops[0]] + Cut(ops[1..], cut - 1) == Cut(ops, cut);
      ExecCons(ops[0], Cut(ops[1..], cut - 1), v);
    } else {
      phases :| Seen(v, slots, phases, 0);
      assert Cut(ops, cut) == [];
    }
  }

  lemma TrackedCons<P, C>(op: Op<P, C>, rest: seq<Op<P, C>>, v: Volume<P, C>, slots: seq<Slot<P>>,
                    phases: seq<Phase>)
    requires Seen(v, slots, phases, 0) && Tracked(rest, Apply(op, v), slots)
    ensures Tracked([op] + rest, v, slots) && Exec([op] + rest, v) == Exec(rest, Apply(op, v))
  {
    assert ([op] + rest)[1..] == rest;
  }

  lemma {:induction false} TrackedConcat<P, C>(a: seq<Op<P, C>>, b: seq<Op<P, C>>, v: Volume<P, C>,
                                         slots: seq<Slot<P>>)
    requires Tracked(a, v, slots) && Tracked(b, Exec(a, v), slots)
    ensures Tracked(a + b, v, slots) && Exec(a + b, v) == Exec(b, Exec(a, v))
  {
    if a == [] {
      assert a + b == b;
    } else {
      assert (a + b)[1..] == a[1..] + b;
      TrackedConcat(a[1..], b, Apply(a[0], v), slots);
    }
  }

  lemma TrackedNone<P, C>(v: Volume<P, C>, slots: seq<Slot<P>>, phases: seq<Phase>)
    requires Seen(v, slots, phases, 0)
    ensures Tracked([], v, slots)
  {
  }

  // The operations, one by one

  lemma SeenMove<P, C>(v: Volume<P, C>, root: Root<P>, slots: seq<Slot<P>>, phases: seq<Phase>, i: nat, from: P, to: P,
                       ph: Phase)
    requires Separate(root, slots) && Seen(v, slots, phases, 0) && i < |slots|
    requires from in slots[i].names.All() && to in slots[i].names.All()
    requires In(slots[i], Change(v.Live(slots[i].names.dir), Move(from, to)), ph)
    ensures Seen(Apply(Rename(slots[i].names.dir, from, to), v), slots, phases[i := ph], 0)
  {
    var d, op := slots[i].names.dir, Move(from, to);
    var w := Apply(Op<P, C>.Rename(d, from, to), v);
    MoveOthers(v, root, slots, i, op);
    QueuedViews(v.Dir(d), op, |v.Dir(d).queue| + 1);
    forall k | 0 <= k < |slots| ensures In(slots[k], w.Live(slots[k].names.dir), phases[i := ph][k]) {
      if k != i { assert Undisturbed(v, w, slots[k]); }
    }
  }

  lemma SeenSync<P, C>(v: Volume<P, C>, slots: seq<Slot<P>>, phases: seq<Phase>, d: P)
    requires Seen(v, slots, phases, 0)
    ensures Seen(Apply(SyncDir(d), v), slots, phases, 0)
  {
    forall k | 0 <= k < |slots|
        ensures In(slots[k], Apply(Op<P, C>.SyncDir(d), v).Live(slots[k].names.dir), phases[k]) {
      SyncOthers(v, d, slots[k]);
    }
  }

  lemma SeenDirs<P, C>(v: Volume<P, C>, w: Volume<P, C>, slots: seq<Slot<P>>, phases: seq<Phase>)
    requires Seen(v, slots, phases, 0) && forall k :: 0 <= k < |slots| ==>
               w.Dir(slots[k].names.dir) == v.Dir(slots[k].names.dir)
    ensures Seen(w, slots, phases, 0)
  {
    forall k | 0 <= k < |slots| ensures In(slots[k], w.Live(slots[k].names.dir), phases[k]) {
      assert w.Dir(slots[k].names.dir) == v.Dir(slots[k].names.dir);
    }
  }

  ghost predicate OnlyIn<P, C>(ops: seq<Op<P, C>>, d: P) {
    forall k :: 0 <= k < |ops| ==> ops[k].dir == d
  }

  lemma OnlyInConcat<P, C>(a: seq<Op<P, C>>, b: seq<Op<P, C>>, d: P)
    requires OnlyIn(a, d) && OnlyIn(b, d)
    ensures OnlyIn(a + b, d)
  {
  }

  /** What happens in the root does not concern the files. */
  lemma {:induction false} TrackedAside<P, C>(ops: seq<Op<P, C>>, v: Volume<P, C>, root: Root<P>,
                                        slots: seq<Slot<P>>, phases: seq<Phase>)
    requires Separate(root, slots) && Seen(v, slots, phases, 0)
    requires OnlyIn(ops, root.dir)
    ensures Tracked(ops, v, slots) && Seen(Exec(ops, v), slots, phases, 0)
  {
    if ops != [] {
      SeenDirs(v, Apply(ops[0], v), slots, phases);
      TrackedAside(ops[1..], Apply(ops[0], v), root, slots, phases);
    }
  }

  lemma TrackedTail<P, C>(v: Volume<P, C>, slots: seq<Slot<P>>, phases: seq<Phase>, n: Names<P>)
    requires Seen(v, slots, phases, 0)
    ensures var ops: seq<Op<P, C>> := [SyncFile(n.dir, n.target)] + [SyncDir(n.dir)];
            Tracked(ops, v, slots) && Seen(Exec(ops, v), slots, phases, 0)
  {
    var op0, op1: Op<P, C> := SyncFile(n.dir, n.target), SyncDir(n.dir);
    var v1 := Apply(op0, v);
    SeenDirs(v, v1, slots, phases);
    SeenSync(v1, slots, phases, n.dir);
    var v2 := Apply(op1, v1);
    TrackedNone(v2, slots, phases);
    TrackedCons(op1, [], v1, slots, phases);
    assert [op1] + [] == [op1];
    TrackedCons(op0, [op1], v, slots, phases);
  }

  lemma TrackedInstall<P, C>(v: Volume<P, C>, root: Root<P>, slots: seq<Slot<P>>, phases: seq<Phase>, i: nat)
    requires Separate(root, slots) && Seen(v, slots, phases, 0) && i < |slots|
    requires phases[i].Ready? ==> slots[i].original.None?
    ensures var n := slots[i].names;
            var ops: seq<Op<P, C>> :=
                (if phases[i].Installed? then [] else [Rename(n.dir, n.staged, n.target)])
                    + ([SyncFile(n.dir, n.target)] + [SyncDir(n.dir)]);
            Tracked(ops, v, slots) && Seen(Exec(ops, v), slots, phases[i := Installed], 0)
  {
    var n := slots[i].names;
    var tail: seq<Op<P, C>> := [SyncFile(n.dir, n.target)] + [SyncDir(n.dir)];
    if phases[i].Installed? {
      assert phases[i := Installed] == phases && [] + tail == tail;
      TrackedTail(v, slots, phases, n);
    } else {
      InstallMove(slots[i], v.Live(n.dir));
      SeenMove(v, root, slots, phases, i, n.staged, n.target, Installed);
      var op: Op<P, C> := Rename(n.dir, n.staged, n.target);
      TrackedTail(Apply(op, v), slots, phases[i := Installed], n);
      TrackedCons(op, tail, v, slots, phases);
    }
  }

  lemma TrackedSwap<P, C>(v: Volume<P, C>, root: Root<P>, slots: seq<Slot<P>>, phases: seq<Phase>, i: nat)
    requires Separate(root, slots) && Seen(v, slots, phases, 0) && i < |slots|
    ensures var ops: seq<Op<P, C>> := SwapOps(slots[i].names, slots[i].original.Some?, phases[i]);
            Tracked(ops, v, slots) && Seen(Exec(ops, v), slots, phases[i := Installed], 0)
  {
    var n, ph := slots[i].names, phases[i];
    if ph.Ready? && slots[i].original.Some? {
      var op0, op1: Op<P, C> := Rename(n.dir, n.target, n.backup), SyncDir(n.dir);
      var saved := phases[i := Saved];
      SaveMove(slots[i], v.Live(n.dir));
      SeenMove(v, root, slots, phases, i, n.target, n.backup, Saved);
      var v1 := Apply(op0, v);
      SeenSync(v1, slots, saved, n.dir);
      var v2 := Apply(op1, v1);
      TrackedInstall(v2, root, slots, saved, i);
      assert saved[i := Installed] == phases[i := Installed];
      TrackedSave(v, v1, v2, op0, op1, slots, phases, saved);
      var tail: seq<Op<P, C>> := [Rename(n.dir, n.staged, n.target)] + ([SyncFile(n.dir, n.target)] + [SyncDir(n.dir)]);
      TrackedConcat([op0] + [op1], tail, v, slots);
    } else {
      TrackedInstall(v, root, slots, phases, i);
      var tail: seq<Op<P, C>> :=
          (if ph.Installed? then [] else [Rename(n.dir, n.staged, n.target)])
              + ([SyncFile(n.dir, n.target)] + [SyncDir(n.dir)]);
      assert [] + tail == tail;
    }
  }

  lemma TrackedSave<P, C>(v: Volume<P, C>, v1: Volume<P, C>, v2: Volume<P, C>, op0: Op<P, C>, op1: Op<P, C>,
                          slots: seq<Slot<P>>,
                    phases: seq<Phase>, saved: seq<Phase>)
    requires v1 == Apply(op0, v) && v2 == Apply(op1, v1)
    requires Seen(v, slots, phases, 0) && Seen(v1, slots, saved, 0) && Seen(v2, slots, saved, 0)
    ensures Tracked([op0] + [op1], v, slots) && Exec([op0] + [op1], v) == v2
  {
    TrackedNone(v2, slots, saved);
    TrackedCons(op1, [], v1, slots, saved);
    assert [op1] + [] == [op1];
    TrackedCons(op0, [op1], v, slots, phases);
  }

  lemma {:induction false} TrackedSwaps<P, C>(v: Volume<P, C>, root: Root<P>, slots: seq<Slot<P>>, phases: seq<Phase>,
                                              now: seq<Phase>,
                                        i: nat)
    requires Separate(root, slots) && Seen(v, slots, now, 0) && |phases| == |slots| && i <= |slots|
    requires forall k :: i <= k < |slots| ==> now[k] == phases[k]
    requires forall k :: 0 <= k < i ==> now[k] == Installed
    ensures var ops: seq<Op<P, C>> := SwapsFrom(Tracks(slots), phases, i);
            Tracked(ops, v, slots) && Seen(Exec(ops, v), slots, seq(|slots|, _ => Installed), 0)
    decreases |slots| - i
  {
    if i < |slots| {
      var first: seq<Op<P, C>> := SwapOps(slots[i].names, slots[i].original.Some?, phases[i]);
      TrackedSwap(v, root, slots, now, i);
      TrackedSwaps(Exec(first, v), root, slots, phases, now[i := Installed], i + 1);
      TrackedConcat(first, SwapsFrom(Tracks(slots), phases, i + 1), v, slots);
    } else {
      assert now == seq(|slots|, _ => Installed);
      TrackedNone(v, slots, now);
    }
  }
}
