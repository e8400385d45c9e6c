/** The file operations of a recovery, as lists, and what holds after every prefix of them.

    `Good` is the invariant of the whole tool. `SafeRun` says that it holds before and after each operation
    of a list and that no operation fails or overwrites anything; a run cut short at any point is a prefix. */
module Protocol {
  import opened Volumes
  import opened Recoveries

  datatype Spot<P(==)> = Spot(dir: P, path: P)

  /** Where the tool works: the root with its markers, the files it may replace, and which recoveries may
      be pending there, if one has to be. */
  datatype Site<!P(==), !C> = Site(root: Root<P>, spots: seq<Spot<P>>, ours: Option<Pending<P, C>> -> bool)

  ghost predicate SiteOk<P, C>(site: Site<P, C>) {
    && site.root.m0 != site.root.m1
    && (forall i :: 0 <= i < |site.spots| ==> site.spots[i].dir != site.root.dir)
  }

  ghost predicate IsSpot<P, C>(site: Site<P, C>, path: P) {
    exists i :: 0 <= i < |site.spots| && site.spots[i].path == path
  }

  /** The recovery is of this site, and its private names are among those handed out. */
  ghost predicate Mine<P, C>(site: Site<P, C>, used: set<P>, p: Pending<P, C>) {
    && |p.slots| == |site.spots| && site.ours(Some(p))
    && forall i :: 0 <= i < |p.slots| ==>
         var n := p.slots[i].names;
         n.dir == site.spots[i].dir && n.target == site.spots[i].path && n.staged in used && n.backup in used
  }

  ghost predicate Kept<P, C>(site: Site<P, C>, used: set<P>, v: Volume<P, C>, p: Pending<P, C>) {
    Mine(site, used, p) && Active(v, site.root, p)
  }

  /** With a recovery pending, or with none and no marker that could come back. */
  ghost predicate GoodWith<P, C>(site: Site<P, C>, used: set<P>, v: Volume<P, C>, o: Option<Pending<P, C>>) {
    if o.Some? then Kept(site, used, v, o.value) else site.ours(None) && Unmarked(v, site.root)
  }

  ghost predicate Good<P(!new), C(!new)>(site: Site<P, C>, used: set<P>, v: Volume<P, C>) {
    exists o :: GoodWith(site, used, v, o)
  }

  ghost predicate SafeRun<P(!new), C(!new)>(site: Site<P, C>, used: set<P>, ops: seq<Op<P, C>>, v: Volume<P, C>)
    decreases ops
  {
    && Good(site, used, v)
    && (ops != [] ==> Harmless(ops[0], v) && SafeRun(site, used, ops[1..], Apply(ops[0], v)))
  }

  lemma SafeCons<P(!new), C(!new)>(site: Site<P, C>, used: set<P>, op: Op<P, C>, rest: seq<Op<P, C>>, v: Volume<P, C>,
                                   o: Option<Pending<P, C>>)
    requires GoodWith(site, used, v, o) && Harmless(op, v) && SafeRun(site, used, rest, Apply(op, v))
    ensures SafeRun(site, used, [op] + rest, v)
    ensures Exec([op] + rest, v) == Exec(rest, Apply(op, v))
  {
    assert ([op] + rest)[1..] == rest;
  }

  lemma {:induction false} SafeConcat<P(!new), C(!new)>(site: Site<P, C>, used: set<P>, a: seq<Op<P, C>>,
                                                        b: seq<Op<P, C>>, v: Volume<P, C>)
    requires SafeRun(site, used, a, v) && SafeRun(site, used, b, Exec(a, v))
    ensures SafeRun(site, used, a + b, v) && Exec(a + b, v) == Exec(b, Exec(a, v))
  {
    if a == [] {
      assert a + b == b;
    } else {
      assert (a + b)[1..] == a[1..] + b;
      SafeConcat(site, used, a[1..], b, Apply(a[0], v));
    }
  }

  /** Stopping a safe run anywhere leaves a good volume. */
  lemma {:induction false} SafePrefix<P(!new), C(!new)>(site: Site<P, C>, used: set<P>, ops: seq<Op<P, C>>,
                                                        v: Volume<P, C>, k: nat)
    requires SafeRun(site, used, ops, v) && k <= |ops|
    ensures Good(site, used, Exec(ops[..k], v))
  {
    if k > 0 {
      assert ops[..k][1..] == ops[1..][..k - 1];
      SafePrefix(site, used, ops[1..], Apply(ops[0], v), k - 1);
    }
  }

  // ---------------------------------------------------------------------------------------------
  // Quiet operations: they concern no name that a recovery watches

  lemma NodesGood<P, C>(site: Site<P, C>, used: set<P>, v: Volume<P, C>, w: Volume<P, C>, o: Option<Pending<P, C>>)
    requires GoodWith(site, used, v, o) && w.dirs == v.dirs && Preserves(v, w)
    ensures GoodWith(site, used, w, o)
  {
    if o.Some? { NodesActive(v, w, site.root, o.value); } else { assert w.Dir(site.root.dir) == v.Dir(site.root.dir); }
  }

  ghost predicate Foreign<P, C>(site: Site<P, C>, used: set<P>, path: P) {
    path !in site.root.Marks() && !IsSpot(site, path) && path !in used
  }

  lemma LinkGood<P, C>(site: Site<P, C>, used: set<P>, v: Volume<P, C>, o: Option<Pending<P, C>>, d: P, path: P,
                       ino: Ino)
    requires GoodWith(site, used, v, o) && Foreign(site, used, path)
    ensures GoodWith(site, used, v.WithDir(d, v.Dir(d).Queued(Link(path, ino))), o)
  {
    var op := Link(path, ino);
    if o.Some? {
      QueueElsewhere(v, site.root, o.value, d, op);
    } else {
      LinkUnmarked(v, site.root, d, op);
    }
  }

  lemma LinkUnmarked<P, C>(v: Volume<P, C>, root: Root<P>, d: P, op: DirOp<P>)
    requires Unmarked(v, root) && op.Link? && op.path !in root.Marks()
    ensures Unmarked(v.WithDir(d, v.Dir(d).Queued(op)), root)
  {
    var w := v.WithDir(d, v.Dir(d).Queued(op));
    var q := v.Dir(root.dir);
    assert !Marked(root, q.View(|q.queue|));
    forall k | 0 <= k <= |w.Dir(root.dir).queue|
      ensures !Marked(root, w.Dir(root.dir).View(k))
    {
      if d == root.dir { QueuedViews(q, op, k); } else { assert w.Dir(root.dir) == q; }
    }
  }

  lemma SyncGood<P, C>(site: Site<P, C>, used: set<P>, v: Volume<P, C>, o: Option<Pending<P, C>>, d: P)
    requires GoodWith(site, used, v, o)
    ensures GoodWith(site, used, v.WithDir(d, v.Dir(d).Synced()), o)
  {
    if o.Some? { SyncActive(v, site.root, o.value, d); } else { SyncUnmarked(v, site.root, d); }
  }

  lemma SyncUnmarked<P, C>(v: Volume<P, C>, root: Root<P>, d: P)
    requires Unmarked(v, root)
    ensures Unmarked(v.WithDir(d, v.Dir(d).Synced()), root)
  {
    var w := v.WithDir(d, v.Dir(d).Synced());
    var q := v.Dir(root.dir);
    assert !Marked(root, q.View(|q.queue|));
    forall k | 0 <= k <= |w.Dir(root.dir).queue|
      ensures !Marked(root, w.Dir(root.dir).View(k))
    {
      if d == root.dir { SyncedViews(q, k); } else { assert w.Dir(root.dir) == q; }
    }
  }

  // ---------------------------------------------------------------------------------------------
  // A new file: created, written, synced, and its directory synced

  datatype NewFile<P(==), C> = NewFile(path: P, ino: Ino, blank: Node<C>, full: Node<C>)

  function NewFileOps<P(==), C>(d: P, f: NewFile<P, C>): seq<Op<P, C>> {
    [Create(d, f.path, f.ino, f.blank)] + ([Write(d, f.path, f.full)] + ([SyncFile(d, f.path)] + [SyncDir(d)]))
  }

  /** What the four operations amount to. */
  function WithFile<P(==), C>(v: Volume<P, C>, d: P, f: NewFile<P, C>): Volume<P, C> {
    v.WithDir(d, Directory(v.Live(d)[f.path := f.ino], [])).(nodes := v.nodes[f.ino := f.full],
                                                             dirty := v.dirty - {f.ino})
  }

  ghost predicate Addable<P, C>(site: Site<P, C>, used: set<P>, v: Volume<P, C>, d: P, f: NewFile<P, C>) {
    Foreign(site, used, f.path) && f.path !in v.Live(d) && f.ino !in v.nodes
  }

  lemma NewFileSafe<P(!new), C(!new)>(site: Site<P, C>, used: set<P>, v: Volume<P, C>, o: Option<Pending<P, C>>, d: P,
                                      f: NewFile<P, C>)
    requires GoodWith(site, used, v, o) && Addable(site, used, v, d, f)
    ensures SafeRun(site, used, NewFileOps(d, f), v)
    ensures Exec(NewFileOps(d, f), v) == WithFile(v, d, f)
    ensures GoodWith(site, used, WithFile(v, d, f), o)
  {
    var op0, op1, op2, op3: Op<P, C> := Create(d, f.path, f.ino, f.blank), Write(d, f.path, f.full),
        SyncFile(d, f.path), SyncDir(d);
    var a0 := v.(nodes := v.nodes[f.ino := f.blank], dirty := v.dirty + {f.ino});
    NodesGood(site, used, v, a0, o);
    LinkGood(site, used, a0, o, d, f.path, f.ino);
    var v1 := Apply(op0, v);
    assert v1 == a0.WithDir(d, a0.Dir(d).Queued(Link(f.path, f.ino)));
    QueuedViews(v.Dir(d), Link(f.path, f.ino), |v.Dir(d).queue| + 1);
    assert v1.Live(d) == v.Live(d)[f.path := f.ino];
    var v2 := Apply(op1, v1);
    NodesGood(site, used, v1, v2, o);
    var v3 := Apply(op2, v2);
    NodesGood(site, used, v2, v3, o);
    assert v3.Live(d) == v1.Live(d);
    var v4 := Apply(op3, v3);
    SyncGood(site, used, v3, o, d);
    NewFileResult(v, d, f);
    assert SafeRun(site, used, [], v4);
    SafeCons(site, used, op3, [], v3, o);
    assert [op3] + [] == [op3];
    SafeCons(site, used, op2, [op3], v2, o);
    SafeCons(site, used, op1, [op2] + [op3], v1, o);
    SafeCons(site, used, op0, [op1] + ([op2] + [op3]), v, o);
  }

  lemma NewFileResult<P, C>(v: Volume<P, C>, d: P, f: NewFile<P, C>)
    requires f.path !in v.Live(d) && f.ino !in v.nodes
    ensures Apply(SyncDir(d),
                  Apply(SyncFile(d, f.path),
                        Apply(Write(d, f.path, f.full), Apply(Create(d, f.path, f.ino, f.blank), v))))
         == WithFile(v, d, f)
  {
    QueuedViews(v.Dir(d), Link(f.path, f.ino), |v.Dir(d).queue| + 1);
    var v1 := Apply(Op<P, C>.Create(d, f.path, f.ino, f.blank), v);
    assert v1.Live(d) == v.Live(d)[f.path := f.ino];
    var v3 := Apply(SyncFile(d, f.path), Apply(Op<P, C>.Write(d, f.path, f.full), v1));
    assert v3.dirs == v1.dirs;
    assert v3.nodes == v.nodes[f.ino := f.full];
    assert v3.dirty == v.dirty - {f.ino};
    assert v3.Live(d) == v1.Live(d);
    assert Apply(SyncDir(d), v3).dirs == WithFile(v, d, f).dirs;
  }

  // ---------------------------------------------------------------------------------------------
  // Publishing a marker: a finished file under a temporary name, renamed into place

  function PublishOps<P(==), C>(root: Root<P>, m: P, f: NewFile<P, C>): seq<Op<P, C>> {
    NewFileOps(root.dir, f) + ([Rename(root.dir, f.path, m)] + [SyncDir(root.dir)])
  }

  /** What publishing amounts to. */
  function Published<P(==), C>(v: Volume<P, C>, root: Root<P>, m: P, f: NewFile<P, C>): Volume<P, C> {
    WithFile(v, root.dir, f.(path := m))
  }

  lemma LinkMarkerSafe<P(!new), C(!new)>(site: Site<P, C>, used: set<P>, v: Volume<P, C>, p: Pending<P, C>, m: P,
                                         temp: P)
    requires Kept(site, used, v, p) && v.Dir(site.root.dir).queue == []
    requires m in site.root.Marks() && temp !in site.root.Marks() && SiteOk(site)
    requires var l := v.Live(site.root.dir);
             m !in l && temp in l && l[temp] in v.nodes && l[temp] !in v.dirty && v.nodes[l[temp]].content == p.doc
    ensures var d := site.root.dir; var l := v.Live(d);
            var w := v.WithDir(d, Directory((l - {temp})[m := l[temp]], []));
            && SafeRun(site, used, [Rename(d, temp, m)] + [SyncDir(d)], v)
            && Exec([Rename(d, temp, m)] + [SyncDir(d)], v) == w
            && Kept(site, used, w, p) && Guarded(w, site.root)
  {
    var root := site.root;
    var d := root.dir;
    var op0, op1: Op<P, C> := Rename(d, temp, m), SyncDir(d);
    EmptyQueue(v, root);
    PublishActive(v, root, p, temp, m);
    var v1 := Apply(op0, v);
    assert GoodWith(site, used, v, Some(p)) && GoodWith(site, used, v1, Some(p));
    SyncActive(v1, root, p, d);
    var v2 := Apply(op1, v1);
    assert GoodWith(site, used, v2, Some(p));
    assert v2.dirs == v.WithDir(d, v1.Dir(d).Synced()).dirs;
    assert SafeRun(site, used, [], v2);
    SafeCons(site, used, op1, [], v1, Some(p));
    assert [op1] + [] == [op1];
    SafeCons(site, used, op0, [op1], v, Some(p));
  }

  lemma EmptyQueue<P, C>(v: Volume<P, C>, root: Root<P>)
    requires v.Dir(root.dir).queue == []
    ensures Marked(root, v.Live(root.dir)) ==> Guarded(v, root)
    ensures !Marked(root, v.Live(root.dir)) ==> Unmarked(v, root)
  {
  }

  /** A missing marker is put back. */
  lemma PublishSafe<P(!new), C(!new)>(site: Site<P, C>, used: set<P>, v: Volume<P, C>, p: Pending<P, C>, m: P,
                                      f: NewFile<P, C>)
    requires Kept(site, used, v, p) && SiteOk(site) && Addable(site, used, v, site.root.dir, f)
    requires m in site.root.Marks() && m !in v.Live(site.root.dir) && f.full.content == p.doc
    ensures var w := Published(v, site.root, m, f);
            && SafeRun(site, used, PublishOps(site.root, m, f), v)
            && Exec(PublishOps(site.root, m, f), v) == w
            && Kept(site, used, w, p) && Guarded(w, site.root)
  {
    var d := site.root.dir;
    NewFileSafe(site, used, v, Some(p), d, f);
    var v1 := WithFile(v, d, f);
    assert v1.Live(d) == v.Live(d)[f.path := f.ino];
    LinkMarkerSafe(site, used, v1, p, m, f.path);
    SafeConcat(site, used, NewFileOps(d, f), [Rename(d, f.path, m)] + [SyncDir(d)], v);
    PublishResult(v, site.root, m, f);
  }

  lemma PublishResult<P, C>(v: Volume<P, C>, root: Root<P>, m: P, f: NewFile<P, C>)
    requires f.path !in v.Live(root.dir)
    ensures var w := WithFile(v, root.dir, f); var l := w.Live(root.dir);
            l == v.Live(root.dir)[f.path := f.ino]
            && w.WithDir(root.dir, Directory((l - {f.path})[m := l[f.path]], [])) == Published(v, root, m, f)
  {
    var w := WithFile(v, root.dir, f);
    var l := w.Live(root.dir);
    assert (l - {f.path})[m := l[f.path]] == v.Live(root.dir)[m := f.ino];
  }

  /** Everything is staged and nothing has begun. */
  ghost predicate Prepared<P, C>(site: Site<P, C>, used: set<P>, v: Volume<P, C>, p: Pending<P, C>) {
    && Mine(site, used, p) && Separate(site.root, p.slots)
    && (forall i :: 0 <= i < |p.slots| ==> Known(p, p.slots[i]))
    && Fixed(v, p.fixed) && AllAlways(v, p.slots, {Ready})
  }

  lemma PreparedActive<P, C>(site: Site<P, C>, used: set<P>, v: Volume<P, C>, p: Pending<P, C>)
    requires Prepared(site, used, v, p) && Unmarked(v, site.root)
    ensures Active(v, site.root, p)
  {
    var root := site.root;
    forall i | 0 <= i < |p.slots| ensures Always(v, p.slots[i], AnyPhase()) {
      AlwaysMore(v, p.slots[i], {Ready}, AnyPhase());
    }
    var d := v.Dir(root.dir);
    assert !Marked(root, d.View(|d.queue|));
    forall k | 0 <= k <= |d.queue| ensures Agree(v, d.View(k), root.Marks(), p.doc) { assert !Marked(root, d.View(k)); }
  }

  lemma AlwaysMore<P, C>(v: Volume<P, C>, s: Slot<P>, a: set<Phase>, b: set<Phase>)
    requires Always(v, s, a) && a <= b
    ensures Always(v, s, b)
  {
    var d := v.Dir(s.names.dir);
    forall k | 0 <= k <= |d.queue| ensures InSome(s, d.View(k), b) { assert InSome(s, d.View(k), a); }
  }

  /** What happens in the root does not concern the files. */
  lemma PreparedRoot<P, C>(site: Site<P, C>, used: set<P>, v: Volume<P, C>, w: Volume<P, C>, p: Pending<P, C>)
    requires Prepared(site, used, v, p) && Preserves(v, w)
    requires forall d :: d != site.root.dir ==> w.Dir(d) == v.Dir(d)
    ensures Prepared(site, used, w, p)
  {
    forall i | 0 <= i < |p.slots| ensures Always(w, p.slots[i], {Ready}) {
      assert Always(v, p.slots[i], {Ready});
      assert w.Dir(p.slots[i].names.dir) == v.Dir(p.slots[i].names.dir);
    }
  }
}
