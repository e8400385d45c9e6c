/** A file system that can stop at any operation and lose power.

    A directory is what is on disk (`durable`) and the operations not yet synced, in order (`queue`).
    Programs see the result of the whole queue; a power loss keeps some prefix of it, chosen for each
    directory on its own. Contents not yet synced may come back as anything. Everything is generic in
    the names `P` and the file contents `C`. */
module Volumes {

  datatype Option<+T> = None | Some(value: T)

  /** All the values, or nothing if one is missing. */
  function Gather<T>(xs: seq<Option<T>>): (r: Option<seq<T>>)
    ensures r.Some? ==> |r.value| == |xs|
  {
    if xs == [] then Some([])
    else
      var front, last := Gather(xs[..|xs| - 1]), xs[|xs| - 1];
      if front.Some? && last.Some? then Some(front.value + [last.value]) else None
  }

  lemma {:induction false} GatherAll<T>(xs: seq<Option<T>>, ys: seq<T>)
    requires |xs| == |ys| && forall i :: 0 <= i < |xs| ==> xs[i] == Some(ys[i])
    ensures Gather(xs) == Some(ys)
  {
    if xs != [] {
      GatherAll(xs[..|xs| - 1], ys[..|xs| - 1]);
      assert ys == ys[..|xs| - 1] + [ys[|xs| - 1]];
    }
  }

  lemma {:induction false} GatherNone<T>(xs: seq<Option<T>>, i: nat)
    requires i < |xs| && xs[i].None?
    ensures Gather(xs).None?
  {
    if i < |xs| - 1 { GatherNone(xs[..|xs| - 1], i); }
  }

  lemma {:induction false} GatherAt<T>(xs: seq<Option<T>>, i: nat)
    requires i < |xs| && Gather(xs).Some?
    ensures xs[i] == Some(Gather(xs).value[i])
  {
    if i < |xs| - 1 { GatherAt(xs[..|xs| - 1], i); }
  }

  lemma GatherIff<T>(xs: seq<Option<T>>, ys: seq<T>)
    requires |xs| == |ys|
    ensures Gather(xs) == Some(ys) <==> forall i :: 0 <= i < |xs| ==> xs[i] == Some(ys[i])
  {
    if Gather(xs) == Some(ys) {
      forall i | 0 <= i < |xs| ensures xs[i] == Some(ys[i]) { GatherAt(xs, i); }
    } else if forall i :: 0 <= i < |xs| ==> xs[i] == Some(ys[i]) {
      GatherAll(xs, ys);
    }
  }

  type Ino = nat

  /** What a file is apart from its names. A rename keeps all of it. */
  datatype Node<C> = Node(device: nat, mtime: int, content: C)

  // ---------------------------------------------------------------------------------------------
  // Directories

  datatype DirOp<P(==)> = Link(path: P, ino: Ino) | Move(from: P, to: P) | Drop(path: P)

  /** As in POSIX, a rename replaces whatever was at its destination. */
  function Change<P(==)>(l: map<P, Ino>, op: DirOp<P>): map<P, Ino> {
    match op
    case Link(path, ino) => l[path := ino]
    case Move(from, to) => if from in l then (l - {from})[to := l[from]] else l
    case Drop(path) => l - {path}
  }

  function Replay<P(==)>(l: map<P, Ino>, ops: seq<DirOp<P>>): map<P, Ino> {
    if ops == [] then l else Change(Replay(l, ops[..|ops| - 1]), ops[|ops| - 1])
  }

  datatype Directory<P(==)> = Directory(durable: map<P, Ino>, queue: seq<DirOp<P>>) {
    /** The listing a power loss leaves if it keeps the first `k` queued operations. */
    function View(k: nat): map<P, Ino>
      requires k <= |queue|
    {
      Replay(durable, queue[..k])
    }

    /** What programs see. */
    function Live(): map<P, Ino> { View(|queue|) }

    function Queued(op: DirOp<P>): Directory<P> { Directory(durable, queue + [op]) }

    function Synced(): Directory<P> { Directory(Live(), []) }
  }

  /** Queueing an operation adds one possible listing. */
  lemma QueuedViews<P>(d: Directory<P>, op: DirOp<P>, k: nat)
    requires k <= |d.queue| + 1
    ensures d.Queued(op).View(k) == if k <= |d.queue| then d.View(k) else Change(d.Live(), op)
  {
    var q := d.queue + [op];
    if k <= |d.queue| {
      assert q[..k] == d.queue[..k];
    } else {
      assert q[..k] == q && q[..|q| - 1] == d.queue == d.queue[..|d.queue|];
    }
  }

  /** After a sync the live listing is the only possible one. */
  lemma SyncedViews<P>(d: Directory<P>, k: nat)
    requires k <= |d.Synced().queue|
    ensures d.Synced().View(k) == d.Live()
  {
  }

  // ---------------------------------------------------------------------------------------------
  // Volumes

  datatype Volume<P(==), C> = Volume(dirs: map<P, Directory<P>>, nodes: map<Ino, Node<C>>, dirty: set<Ino>) {
    function Dir(d: P): Directory<P> {
      if d in dirs then dirs[d] else Directory(map[], [])
    }

    function Live(d: P): map<P, Ino> { Dir(d).Live() }

    function WithDir(d: P, new': Directory<P>): Volume<P, C> {
      this.(dirs := dirs[d := new'])
    }
  }

  /** One file operation. Every one stays inside one directory. */
  datatype Op<P(==), C> =
    | Create(dir: P, path: P, ino: Ino, node: Node<C>)
    | Write(dir: P, path: P, node: Node<C>)
    | SyncFile(dir: P, path: P)
    | SyncDir(dir: P)
    | Rename(dir: P, from: P, to: P)
    | Unlink(dir: P, path: P)

  function Apply<P(==), C>(op: Op<P, C>, v: Volume<P, C>): Volume<P, C> {
    var live := v.Live(op.dir);
    match op
    case Create(d, path, ino, node) =>
      v.WithDir(d, v.Dir(d).Queued(Link(path, ino))).(nodes := v.nodes[ino := node], dirty := v.dirty + {ino})
    case Write(d, path, node) =>
      if path in live then v.(nodes := v.nodes[live[path] := node], dirty := v.dirty + {live[path]}) else v
    case SyncFile(d, path) =>
      if path in live then v.(dirty := v.dirty - {live[path]}) else v
    case SyncDir(d) => v.WithDir(d, v.Dir(d).Synced())
    case Rename(d, from, to) => v.WithDir(d, v.Dir(d).Queued(Move(from, to)))
    case Unlink(d, path) => v.WithDir(d, v.Dir(d).Queued(Drop(path)))
  }

  function Exec<P(==), C>(ops: seq<Op<P, C>>, v: Volume<P, C>): Volume<P, C> {
    if ops == [] then v else Exec(ops[1..], Apply(ops[0], v))
  }

  lemma ExecCons<P, C>(op: Op<P, C>, rest: seq<Op<P, C>>, v: Volume<P, C>)
    ensures Exec([op] + rest, v) == Exec(rest, Apply(op, v))
  {
    assert ([op] + rest)[1..] == rest;
  }

  lemma ExecOne<P, C>(op: Op<P, C>, v: Volume<P, C>)
    ensures Exec([op], v) == Apply(op, v)
  {
    assert [op] + [] == [op];
    ExecCons(op, [], v);
  }

  lemma {:induction false} ExecConcat<P, C>(a: seq<Op<P, C>>, b: seq<Op<P, C>>, v: Volume<P, C>)
    ensures Exec(a + b, v) == Exec(b, Exec(a, v))
  {
    if a == [] {
      assert a + b == b;
    } else {
      assert (a + b)[1..] == a[1..] + b;
      ExecConcat(a[1..], b, Apply(a[0], v));
    }
  }

  /** The call does not raise: what it names exists, and what it creates does not. */
  predicate Enabled<P(==), C>(op: Op<P, C>, v: Volume<P, C>) {
    var live := v.Live(op.dir);
    match op
    case Create(_, path, ino, _) => path !in live && ino !in v.nodes
    case Write(_, path, _) => path in live
    case SyncFile(_, path) => path in live
    case SyncDir(_) => true
    case Rename(_, from, _) => from in live
    case Unlink(_, path) => path in live
  }

  /** Enabled, and a rename lands on a free name. */
  predicate Harmless<P(==), C>(op: Op<P, C>, v: Volume<P, C>) {
    Enabled(op, v) && (op.Rename? ==> op.to !in v.Live(op.dir))
  }

  /** Every operation of the list can be carried out in turn, and no rename overwrites anything. */
  ghost predicate Runnable<P, C>(ops: seq<Op<P, C>>, v: Volume<P, C>)
    decreases ops
  {
    ops == [] || (Harmless(ops[0], v) && Runnable(ops[1..], Apply(ops[0], v)))
  }

  lemma {:induction false} RunnableSplit<P, C>(first: seq<Op<P, C>>, second: seq<Op<P, C>>, v: Volume<P, C>)
    requires Runnable(first + second, v)
    ensures Runnable(first, v) && Runnable(second, Exec(first, v))
  {
    if first == [] {
      assert first + second == second;
    } else {
      assert (first + second)[0] == first[0] && (first + second)[1..] == first[1..] + second;
      RunnableSplit(first[1..], second, Apply(first[0], v));
    }
  }

  /** Every operation of a runnable list is harmless when its turn comes. */
  lemma {:induction false} RunnableAt<P, C>(ops: seq<Op<P, C>>, v: Volume<P, C>, k: nat)
    requires Runnable(ops, v) && k < |ops|
    ensures Harmless(ops[k], Exec(ops[..k], v))
  {
    if k > 0 {
      assert ops[..k][1..] == ops[1..][..k - 1];
      RunnableAt(ops[1..], Apply(ops[0], v), k - 1);
    }
  }

  lemma RunnableParts<P, C>(first: seq<Op<P, C>>, second: seq<Op<P, C>>, v: Volume<P, C>)
    ensures Runnable(first + second, v) ==> Runnable(first, v) && Runnable(second, Exec(first, v))
  {
    if Runnable(first + second, v) { RunnableSplit(first, second, v); }
  }

  // ---------------------------------------------------------------------------------------------
  // Runs that are cut short

  function Cut<T>(s: seq<T>, k: nat): seq<T> { if k < |s| then s[..k] else s }

  /** This is the volume after `n` of the operations. */
  ghost predicate Reached<P, C>(v: Volume<P, C>, ops: seq<Op<P, C>>, n: nat, w: Volume<P, C>) {
    w == Exec(Cut(ops, n), v)
  }

  /** A run that is cut short in its first part, or after it. */
  lemma ReachedFirst<P, C>(v: Volume<P, C>, first: seq<Op<P, C>>, second: seq<Op<P, C>>, n: nat, w: Volume<P, C>)
    requires Reached(v, first, n, w) && n <= |first|
    ensures Reached(v, first + second, n, w)
  {
    assert Cut(first + second, n) == Cut(first, n);
  }

  lemma ReachedSecond<P, C>(v: Volume<P, C>, first: seq<Op<P, C>>, second: seq<Op<P, C>>, n: nat, total: nat,
                            u: Volume<P, C>, w: Volume<P, C>)
    requires u == Exec(first, v) && Reached(u, second, n, w) && total == |first| + n
    ensures Reached(v, first + second, total, w)
  {
    assert Cut(first + second, total) == first + Cut(second, n);
    ExecConcat(first, Cut(second, n), v);
  }

  /** A plan that begins with four given operations, as they are done one by one. */
  lemma FirstFour<T>(a: T, b: T, c: T, d: T, plan: seq<T>)
    requires [a] + ([b] + ([c] + [d])) <= plan
    ensures |plan| >= 4 && plan[0] == a && plan[1..][0] == b && plan[2..][0] == c && plan[3..][0] == d
    ensures plan[1..][1..] == plan[2..] && plan[2..][1..] == plan[3..] && plan[3..][1..] == plan[4..]
  {
    assert plan[..4] == [a] + ([b] + ([c] + [d]));
    assert [a] + ([b] + ([c] + [d])) == [a, b, c, d];
  }

  /** A plan that begins with two given lists. */
  lemma FirstTwo<T>(plan: seq<T>, first: seq<T>, second: seq<T>)
    requires first + second <= plan
    ensures first <= plan && second <= plan[|first|..] && plan[|first|..][|second|..] == plan[|first + second|..]
  {
    assert plan == first + (second + plan[|first + second|..]);
  }

  /** What is no longer planned has been done. */
  lemma Done<T>(before: seq<T>, after: seq<T>, ops: seq<T>, rest: seq<T>)
    requires after + rest == before + (ops + rest)
    ensures after == before + ops
  {
    assert |after| == |before + ops|;
    assert after == (after + rest)[..|after|];
    assert before + ops == (before + (ops + rest))[..|after|];
  }

  lemma DoneSoFar<T>(before: seq<T>, after: seq<T>, ops: seq<T>, rest: seq<T>)
    requires after + rest == before + ops
    ensures after <= before + ops && (rest == [] ==> after == before + ops)
  {
    assert after == (after + rest)[..|after|];
  }

  /** What the log says is what the volume shows. */
  lemma LogReached<P, C>(start: Volume<P, C>, before: seq<Op<P, C>>, ops: seq<Op<P, C>>, after: seq<Op<P, C>>, n: nat)
    requires before <= after <= before + ops && |after| == |before| + n
    ensures n <= |ops| && Reached(Exec(before, start), ops, n, Exec(after, start))
  {
    assert after == before + Cut(ops, n);
    ExecConcat(before, Cut(ops, n), start);
  }

  /** A run that is cut short in its first part, or after it. */
  lemma Prefixes<T>(before: seq<T>, first: seq<T>, second: seq<T>, after: seq<T>)
    requires after <= before + first
    ensures after <= before + (first + second)
  {
    assert (before + first) + second == before + (first + second);
  }

  lemma Regrouped<T>(before: seq<T>, first: seq<T>, second: seq<T>)
    ensures (before + first) + second == before + (first + second)
  {
  }

  /** Power loss: directory `d` keeps the first `cuts(d)` queued operations, and a file whose content was
      not synced may come back with anything in it. */
  ghost predicate Lost<P(!new), C>(v: Volume<P, C>, after: Volume<P, C>, cuts: P -> nat) {
    && (forall d :: cuts(d) <= |v.Dir(d).queue| && after.Dir(d) == Directory(v.Dir(d).View(cuts(d)), []))
    && after.nodes.Keys == v.nodes.Keys && after.dirty == {}
    && (forall i :: i in v.nodes && i !in v.dirty ==> after.nodes[i] == v.nodes[i])
  }

  /** The loss in which directory `d` keeps `k` operations and every other directory all of them. */
  lemma LossAt<P(!new), C>(v: Volume<P, C>, d: P, k: nat) returns (w: Volume<P, C>, cuts: P -> nat)
    requires k <= |v.Dir(d).queue|
    ensures Lost(v, w, cuts) && w.nodes == v.nodes && w.dirty == {}
    ensures w.Dir(d) == Directory(v.Dir(d).View(k), []) && forall e :: e != d ==> w.Dir(e) == Directory(v.Live(e), [])
  {
    cuts := e => if e == d then k else |v.Dir(e).queue|;
    w := Volume(map e | e in v.dirs :: Directory(v.dirs[e].View(if e == d then k else |v.dirs[e].queue|), []), v.nodes,
                {});
  }

  /** A list that ends by removing a name and syncing: before the sync the name is gone, and can come back. */
  lemma RemovedUnsynced<P, C>(ops: seq<Op<P, C>>, v: Volume<P, C>, d: P, x: P)
    requires Runnable(ops, v) && |ops| >= 2 && ops[|ops| - 2] == Unlink(d, x) && ops[|ops| - 1] == SyncDir(d)
    ensures var u := Exec(ops[..|ops| - 1], v);
            && u.Live(d) == Exec(ops, v).Live(d)
            && |u.Dir(d).queue| > 0 && x in u.Dir(d).View(|u.Dir(d).queue| - 1)
  {
    var n := |ops|;
    var before, u := Exec(ops[..n - 2], v), Exec(ops[..n - 1], v);
    RunnableAt(ops, v, n - 2);
    assert ops[..n - 1] == ops[..n - 2] + [ops[n - 2]] && ops == ops[..n - 1] + [ops[n - 1]];
    ExecConcat(ops[..n - 2], [ops[n - 2]], v);
    ExecOne(ops[n - 2], before);
    ExecConcat(ops[..n - 1], [ops[n - 1]], v);
    ExecOne(ops[n - 1], u);
    QueuedViews(before.Dir(d), Drop(x), |before.Dir(d).queue|);
    SyncedViews(u.Dir(d), 0);
  }

  /** There is always an inode nobody has. */
  lemma {:induction false} Bound(s: set<Ino>) returns (b: nat)
    ensures forall x :: x in s ==> x < b
  {
    if s == {} {
      b := 0;
    } else {
      var x :| x in s;
      var c := Bound(s - {x});
      b := if x < c then c else x + 1;
      forall y | y in s ensures y < b { assert y == x || y in s - {x}; }
    }
  }
}
