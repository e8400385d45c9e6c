/** Files a run does not concern: it neither writes them nor, at the beginning of a restore, syncs them. */
module Bystanders {
  import opened Volumes
  import opened Recoveries
  import opened Protocol
  import opened Swapping
  import opened Staging

  /** The operation does not change file `x`, and if `sync` is asked for does not sync it either. */
  ghost predicate Avoids<P, C>(op: Op<P, C>, v: Volume<P, C>, x: Ino, sync: bool) {
    match op
    case Create(_, _, ino, _) => ino != x
    case Write(d, path, _) => !Holds(v.Live(d), path, Some(x))
    case SyncFile(d, path) => sync ==> !Holds(v.Live(d), path, Some(x))
    case _ => true
  }

  ghost predicate AvoidsAll<P, C>(ops: seq<Op<P, C>>, v: Volume<P, C>, x: Ino, sync: bool)
    decreases ops
  {
    ops == [] || (Avoids(ops[0], v, x, sync) && AvoidsAll(ops[1..], Apply(ops[0], v), x, sync))
  }

  /** A run that avoids a file leaves it as it is, and unsynced if it was, wherever the run is cut short. */
  lemma {:induction false} Avoided<P, C>(ops: seq<Op<P, C>>, v: Volume<P, C>, x: Ino, sync: bool, cut: nat)
    requires AvoidsAll(ops, v, x, sync) && x in v.nodes
    ensures var w := Exec(Cut(ops, cut), v);
            x in w.nodes && w.nodes[x] == v.nodes[x] && (sync && x in v.dirty ==> x in w.dirty)
  {
    if ops != [] && cut > 0 {
      var w := Apply(ops[0], v);
      Avoided(ops[1..], w, x, sync, cut - 1);
      assert [ops[0]] + Cut(ops[1..], cut - 1) == Cut(ops, cut);
      ExecCons(ops[0], Cut(ops[1..], cut - 1), v);
    }
  }

  /** Every file that was there is as it was. */
  ghost predicate Unchanged<P, C>(v: Volume<P, C>, w: Volume<P, C>) {
    forall x :: x in v.nodes ==> x in w.nodes && w.nodes[x] == v.nodes[x]
  }

  lemma AvoidsCons<P, C>(op: Op<P, C>, rest: seq<Op<P, C>>, v: Volume<P, C>, x: Ino, sync: bool)
    requires Avoids(op, v, x, sync) && AvoidsAll(rest, Apply(op, v), x, sync)
    ensures AvoidsAll([op] + rest, v, x, sync)
  {
    assert ([op] + rest)[1..] == rest;
  }

  lemma {:induction false} AvoidsConcat<P, C>(a: seq<Op<P, C>>, b: seq<Op<P, C>>, v: Volume<P, C>, x: Ino, sync: bool)
    requires AvoidsAll(a, v, x, sync) && AvoidsAll(b, Exec(a, v), x, sync)
    ensures AvoidsAll(a + b, v, x, sync)
  {
    if a == [] {
      assert a + b == b;
    } else {
      assert (a + b)[0] == a[0] && (a + b)[1..] == a[1..] + b;
      AvoidsConcat(a[1..], b, Apply(a[0], v), x, sync);
    }
  }

  // ---------------------------------------------------------------------------------------------
  // Beginning a restore

  /** A new file writes and syncs itself and nothing else. */
  lemma NewFileAvoids<P, C>(d: P, f: NewFile<P, C>, v: Volume<P, C>, x: Ino)
    requires f.ino != x
    ensures AvoidsAll(NewFileOps(d, f), v, x, true)
  {
    var op0, op1, op2, op3: Op<P, C> := Create(d, f.path, f.ino, f.blank), Write(d, f.path, f.full),
        SyncFile(d, f.path), SyncDir(d);
    QueuedViews(v.Dir(d), Link(f.path, f.ino), |v.Dir(d).queue| + 1);
    var v1 := Apply(op0, v);
    assert v1.Live(d) == v.Live(d)[f.path := f.ino];
    var v2 := Apply(op1, v1);
    assert v2.dirs == v1.dirs;
    AvoidsCons(op3, [], Apply(op2, v2), x, true);
    assert [op3] + [] == [op3];
    AvoidsCons(op2, [op3], v2, x, true);
    AvoidsCons(op1, [op2] + [op3], v1, x, true);
    AvoidsCons(op0, [op1] + ([op2] + [op3]), v, x, true);
  }

  lemma PublishAvoids<P, C>(root: Root<P>, m: P, f: NewFile<P, C>, v: Volume<P, C>, x: Ino)
    requires f.ino != x
    ensures AvoidsAll(PublishOps(root, m, f), v, x, true)
  {
    var op0, op1: Op<P, C> := Rename(root.dir, f.path, m), SyncDir(root.dir);
    var w := Exec(NewFileOps(root.dir, f), v);
    NewFileAvoids(root.dir, f, v, x);
    AvoidsCons(op1, [], Apply(op0, w), x, true);
    assert [op1] + [] == [op1];
    AvoidsCons(op0, [op1], w, x, true);
    AvoidsConcat(NewFileOps(root.dir, f), [op0] + [op1], v, x, true);
  }

  lemma {:induction false} StageAvoids<P, C>(dirs: seq<P>, files: seq<NewFile<P, C>>, i: nat, v: Volume<P, C>, x: Ino)
    requires |dirs| == |files| && i <= |files| && forall k :: 0 <= k < |files| ==> files[k].ino != x
    ensures AvoidsAll(StageFrom(dirs, files, i), v, x, true)
    decreases |files| - i
  {
    if i < |files| {
      NewFileAvoids(dirs[i], files[i], v, x);
      StageAvoids(dirs, files, i + 1, Exec(NewFileOps(dirs[i], files[i]), v), x);
      AvoidsConcat(NewFileOps(dirs[i], files[i]), StageFrom(dirs, files, i + 1), v, x, true);
    }
  }

  lemma BeginAvoids<P, C>(root: Root<P>, dirs: seq<P>, files: seq<NewFile<P, C>>, f0: NewFile<P, C>, f1: NewFile<P, C>,
                          v: Volume<P, C>, x: Ino)
    requires |dirs| == |files| && (forall k :: 0 <= k < |files| ==> files[k].ino != x) && f0.ino != x && f1.ino != x
    ensures AvoidsAll(BeginOps(root, dirs, files, f0, f1), v, x, true)
  {
    var stage, pub0, pub1 := StageFrom(dirs, files, 0), PublishOps(root, root.m0, f0), PublishOps(root, root.m1, f1);
    var w := Exec(stage, v);
    StageAvoids(dirs, files, 0, v, x);
    PublishAvoids(root, root.m0, f0, w, x);
    PublishAvoids(root, root.m1, f1, Exec(pub0, w), x);
    AvoidsConcat(pub0, pub1, w, x, true);
    AvoidsConcat(stage, pub0 + pub1, v, x, true);
  }

  // ---------------------------------------------------------------------------------------------
  // Resuming

  /** Nothing is created or written. */
  ghost predicate Writeless<P, C>(ops: seq<Op<P, C>>) {
    forall k :: 0 <= k < |ops| ==> !ops[k].Create? && !ops[k].Write?
  }

  lemma {:induction false} QuietAvoids<P, C>(ops: seq<Op<P, C>>, v: Volume<P, C>, x: Ino)
    requires Writeless(ops)
    ensures AvoidsAll(ops, v, x, false)
  {
    if ops != [] { QuietAvoids(ops[1..], Apply(ops[0], v), x); }
  }

  lemma {:induction false} SwapsQuiet<P, C>(tracks: seq<(Names<P>, bool)>, phases: seq<Phase>, i: nat)
    requires |tracks| == |phases| && i <= |tracks|
    ensures Writeless<P, C>(SwapsFrom(tracks, phases, i))
    decreases |tracks| - i
  {
    if i < |tracks| {
      SwapsQuiet<P, C>(tracks, phases, i + 1);
      SwapQuiet<P, C>(tracks[i].0, tracks[i].1, phases[i]);
      QuietConcat<P, C>(SwapOps(tracks[i].0, tracks[i].1, phases[i]), SwapsFrom(tracks, phases, i + 1));
    }
  }

  lemma QuietConcat<P, C>(a: seq<Op<P, C>>, b: seq<Op<P, C>>)
    requires Writeless(a) && Writeless(b)
    ensures Writeless(a + b)
  {
  }

  lemma SwapQuiet<P, C>(n: Names<P>, hadOriginal: bool, ph: Phase)
    ensures Writeless<P, C>(SwapOps(n, hadOriginal, ph))
  {
  }

  lemma {:induction false} WeakerAvoids<P, C>(ops: seq<Op<P, C>>, v: Volume<P, C>, x: Ino)
    requires AvoidsAll(ops, v, x, true)
    ensures AvoidsAll(ops, v, x, false)
  {
    if ops != [] { WeakerAvoids(ops[1..], Apply(ops[0], v), x); }
  }

  lemma RemarkAvoids<P, C>(root: Root<P>, live: map<P, Ino>, f0: NewFile<P, C>, f1: NewFile<P, C>, v: Volume<P, C>,
                           x: Ino)
    requires f0.ino != x && f1.ino != x
    ensures AvoidsAll(RemarkOps(root, live, f0, f1), v, x, false)
  {
    var a, b := if root.m0 in live then [] else PublishOps(root, root.m0, f0),
        if root.m1 in live then [] else PublishOps(root, root.m1, f1);
    PublishAvoids(root, root.m0, f0, v, x);
    PublishAvoids(root, root.m1, f1, Exec(a, v), x);
    AvoidsConcat(a, b, v, x, true);
    WeakerAvoids(a + b, v, x);
  }

  /** A resume writes nothing but the markers it puts back. */
  lemma ResumeAvoids<P, C>(root: Root<P>, live: map<P, Ino>, f0: NewFile<P, C>, f1: NewFile<P, C>,
                           tracks: seq<(Names<P>, bool)>, phases: seq<Phase>, inspected: bool, v: Volume<P, C>, x: Ino)
    requires |tracks| == |phases| && f0.ino != x && f1.ino != x
    ensures AvoidsAll(ResumeOps(root, live, f0, f1, tracks, phases, inspected), v, x, false)
  {
    var first, rest := RemarkOps(root, live, f0, f1), FinishOps<P, C>(root, tracks, phases, inspected);
    RemarkAvoids(root, live, f0, f1, v, x);
    SwapsQuiet<P, C>(tracks, phases, 0);
    QuietAvoids(rest, Exec(first, v), x);
    AvoidsConcat(first, rest, v, x, false);
  }
}
