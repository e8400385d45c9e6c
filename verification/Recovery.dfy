/** What an interrupted recovery looks like on disk, and which file operations keep it that way.

    A recovery replaces files one by one: each moves from `Ready` (copy staged, original in place) over
    `Saved` (original renamed to its backup) to `Installed`. Two marker files holding the journal stand
    in the root directory meanwhile. `Active` is the invariant that survives a stop at any operation and
    a power loss at any time: it speaks of every listing a directory may come back with. */
module Recoveries {
  import opened Volumes

  datatype Phase = Ready | Saved | Installed

  /** The three names one file uses, all in one directory. */
  datatype Names<P(==)> = Names(dir: P, target: P, staged: P, backup: P) {
    function All(): set<P> { {target, staged, backup} }
  }

  /** One file of a recovery: its names, the original file if there was one, and the checkpoint copy. */
  datatype Slot<P(==)> = Slot(names: Names<P>, original: Option<Ino>, copy: Ino)

  ghost predicate Holds<P>(l: map<P, Ino>, path: P, ino: Option<Ino>) {
    if ino.Some? then path in l && l[path] == ino.value else path !in l
  }

  /** The exact place of the original and of the copy in each phase. */
  ghost predicate In<P>(s: Slot<P>, l: map<P, Ino>, ph: Phase) {
    match ph
    case Ready => Holds(l, s.names.staged, Some(s.copy)) && Holds(l, s.names.target, s.original)
                  && Holds(l, s.names.backup, None)
    case Saved =>
      s.original.Some? && Holds(l, s.names.staged, Some(s.copy)) && Holds(l, s.names.target, None)
          && Holds(l, s.names.backup, s.original)
    case Installed =>
      Holds(l, s.names.staged, None) && Holds(l, s.names.target, Some(s.copy)) && Holds(l, s.names.backup, s.original)
  }

  ghost predicate InSome<P>(s: Slot<P>, l: map<P, Ino>, phs: set<Phase>) {
    exists ph :: ph in phs && In(s, l, ph)
  }

  /** Whatever a power loss leaves of its directory, the slot is in one of these phases. */
  ghost predicate Always<P, C>(v: Volume<P, C>, s: Slot<P>, phs: set<Phase>) {
    forall k :: 0 <= k <= |v.Dir(s.names.dir).queue| ==> InSome(s, v.Dir(s.names.dir).View(k), phs)
  }

  ghost function AnyPhase(): set<Phase> { {Ready, Saved, Installed} }

  /** The root directory and its two marker names. */
  datatype Root<P(==)> = Root(dir: P, m0: P, m1: P) {
    function Marks(): set<P> { {m0, m1} }
  }

  /** A recovery: its files, the journal, and the state of the files it relies on. */
  datatype Pending<P(==), C> = Pending(slots: seq<Slot<P>>, doc: C, fixed: map<Ino, Node<C>>)

  ghost predicate Separate<P>(root: Root<P>, slots: seq<Slot<P>>) {
    && root.m0 != root.m1
    && (forall i :: 0 <= i < |slots| ==>
          var n := slots[i].names;
          n.dir != root.dir && n.target != n.staged && n.target != n.backup && n.staged != n.backup)
    && (forall i, j :: 0 <= i < j < |slots| ==> slots[i].names.All() !! slots[j].names.All())
  }

  /** The copy is one of the files the recovery relies on; the original may be. */
  ghost predicate Known<P, C>(p: Pending<P, C>, s: Slot<P>) { s.copy in p.fixed }

  ghost predicate Marked<P>(root: Root<P>, l: map<P, Ino>) {
    root.m0 in l || root.m1 in l
  }

  /** The listing's markers are finished files that hold this journal. */
  ghost predicate Agree<P, C>(v: Volume<P, C>, l: map<P, Ino>, marks: set<P>, doc: C) {
    forall m :: m in marks && m in l ==> l[m] in v.nodes && l[m] !in v.dirty && v.nodes[l[m]].content == doc
  }

  ghost predicate MarkersAgree<P, C>(v: Volume<P, C>, root: Root<P>, doc: C) {
    forall k :: 0 <= k <= |v.Dir(root.dir).queue| ==> Agree(v, v.Dir(root.dir).View(k), root.Marks(), doc)
  }

  /** A marker survives any power loss. */
  ghost predicate Guarded<P, C>(v: Volume<P, C>, root: Root<P>) {
    forall k :: 0 <= k <= |v.Dir(root.dir).queue| ==> Marked(root, v.Dir(root.dir).View(k))
  }

  /** No marker can come back. */
  ghost predicate Unmarked<P, C>(v: Volume<P, C>, root: Root<P>) {
    forall k :: 0 <= k <= |v.Dir(root.dir).queue| ==> !Marked(root, v.Dir(root.dir).View(k))
  }

  ghost predicate Fixed<P, C>(v: Volume<P, C>, fixed: map<Ino, Node<C>>) {
    forall i :: i in fixed ==> i in v.nodes && v.nodes[i] == fixed[i] && i !in v.dirty
  }

  ghost predicate AllAlways<P, C>(v: Volume<P, C>, slots: seq<Slot<P>>, phs: set<Phase>) {
    forall i :: 0 <= i < |slots| ==> Always(v, slots[i], phs)
  }

  ghost predicate BothLive<P, C>(v: Volume<P, C>, root: Root<P>) {
    root.m0 in v.Live(root.dir) && root.m1 in v.Live(root.dir)
  }

  /** The recovery is not begun for sure, over for sure, or guarded. */
  ghost predicate Coherent<P, C>(v: Volume<P, C>, root: Root<P>, p: Pending<P, C>) {
    || Guarded(v, root)
    || AllAlways(v, p.slots, {Ready})
    || AllAlways(v, p.slots, {Installed})
  }

  ghost predicate Active<P, C>(v: Volume<P, C>, root: Root<P>, p: Pending<P, C>) {
    && Separate(root, p.slots)
    && (forall i :: 0 <= i < |p.slots| ==> Known(p, p.slots[i]))
    && Fixed(v, p.fixed)
    && AllAlways(v, p.slots, AnyPhase())
    && MarkersAgree(v, root, p.doc)
    && (BothLive(v, root) ==> Guarded(v, root))
    && Coherent(v, root, p)
  }

  // ---------------------------------------------------------------------------------------------
  // What a change to a directory does to one slot

  /** An operation that touches none of the slot's names leaves its phase. */
  lemma ChangeElsewhere<P>(s: Slot<P>, l: map<P, Ino>, op: DirOp<P>, ph: Phase)
    requires In(s, l, ph)
    requires match op
             case Link(path, _) => path !in s.names.All()
             case Move(from, to) => from !in s.names.All() && to !in s.names.All()
             case Drop(path) => path !in s.names.All()
    ensures In(s, Change(l, op), ph)
  {
  }

  ghost predicate Touches<P>(op: DirOp<P>, names: set<P>) {
    match op
    case Link(path, _) => path in names
    case Move(from, to) => from in names || to in names
    case Drop(path) => path in names
  }

  lemma ChangeElsewhereSome<P>(s: Slot<P>, l: map<P, Ino>, op: DirOp<P>, phs: set<Phase>)
    requires InSome(s, l, phs) && !Touches(op, s.names.All())
    ensures InSome(s, Change(l, op), phs)
  {
    var ph :| ph in phs && In(s, l, ph);
    ChangeElsewhere(s, l, op, ph);
  }

  lemma SaveMove<P>(s: Slot<P>, l: map<P, Ino>)
    requires In(s, l, Ready) && s.original.Some?
    requires s.names.target != s.names.staged && s.names.target != s.names.backup && s.names.staged != s.names.backup
    ensures In(s, Change(l, Move(s.names.target, s.names.backup)), Saved)
  {
  }

  lemma InstallMove<P>(s: Slot<P>, l: map<P, Ino>)
    requires In(s, l, Saved) || (In(s, l, Ready) && s.original.None?)
    requires s.names.target != s.names.staged && s.names.target != s.names.backup && s.names.staged != s.names.backup
    ensures In(s, Change(l, Move(s.names.staged, s.names.target)), Installed)
  {
  }

  /** A directory operation keeps `Always` if the listing it leads to is fine. */
  lemma AlwaysQueued<P, C>(v: Volume<P, C>, d: P, op: DirOp<P>, s: Slot<P>, phs: set<Phase>)
    requires Always(v, s, phs)
    requires s.names.dir == d ==> InSome(s, Change(v.Live(d), op), phs)
    ensures Always(v.WithDir(d, v.Dir(d).Queued(op)), s, phs)
  {
    var w := v.WithDir(d, v.Dir(d).Queued(op));
    forall k | 0 <= k <= |w.Dir(s.names.dir).queue|
      ensures InSome(s, w.Dir(s.names.dir).View(k), phs)
    {
      if s.names.dir == d {
        QueuedViews(v.Dir(d), op, k);
      } else {
        assert w.Dir(s.names.dir) == v.Dir(s.names.dir);
      }
    }
  }

  lemma AlwaysLive<P, C>(v: Volume<P, C>, s: Slot<P>, phs: set<Phase>)
    requires Always(v, s, phs)
    ensures InSome(s, v.Live(s.names.dir), phs)
  {
    var d := v.Dir(s.names.dir);
    assert InSome(s, d.View(|d.queue|), phs);
  }

  lemma AlwaysSynced<P, C>(v: Volume<P, C>, d: P, s: Slot<P>, phs: set<Phase>)
    requires if s.names.dir == d then InSome(s, v.Live(d), phs) else Always(v, s, phs)
    ensures Always(v.WithDir(d, v.Dir(d).Synced()), s, phs)
  {
    var w := v.WithDir(d, v.Dir(d).Synced());
    forall k | 0 <= k <= |w.Dir(s.names.dir).queue|
      ensures InSome(s, w.Dir(s.names.dir).View(k), phs)
    {
      if s.names.dir == d {
        SyncedViews(v.Dir(d), k);
      } else {
        assert w.Dir(s.names.dir) == v.Dir(s.names.dir);
      }
    }
  }

  // ---------------------------------------------------------------------------------------------
  // What a change to the root directory does to the markers

  lemma RootQueued<P, C>(v: Volume<P, C>, root: Root<P>, op: DirOp<P>, doc: C)
    requires MarkersAgree(v, root, doc)
    requires Agree(v, Change(v.Live(root.dir), op), root.Marks(), doc)
    ensures var w := v.WithDir(root.dir, v.Dir(root.dir).Queued(op));
            && MarkersAgree(w, root, doc)
            && (Guarded(v, root) && Marked(root, Change(v.Live(root.dir), op)) ==> Guarded(w, root))
            && w.Live(root.dir) == Change(v.Live(root.dir), op)
  {
    var d := v.Dir(root.dir);
    var w := v.WithDir(root.dir, d.Queued(op));
    forall k | 0 <= k <= |w.Dir(root.dir).queue|
      ensures Agree(w, w.Dir(root.dir).View(k), root.Marks(), doc)
      ensures Guarded(v, root) && Marked(root, Change(v.Live(root.dir), op)) ==> Marked(root, w.Dir(root.dir).View(k))
    {
      QueuedViews(d, op, k);
      if k <= |d.queue| { assert Agree(v, d.View(k), root.Marks(), doc); }
    }
    QueuedViews(d, op, |d.queue| + 1);
  }

  lemma RootSynced<P, C>(v: Volume<P, C>, root: Root<P>, doc: C)
    requires MarkersAgree(v, root, doc)
    ensures var w := v.WithDir(root.dir, v.Dir(root.dir).Synced());
            && MarkersAgree(w, root, doc)
            && (Marked(root, v.Live(root.dir)) ==> Guarded(w, root))
            && (!Marked(root, v.Live(root.dir)) ==> Unmarked(w, root))
            && w.Live(root.dir) == v.Live(root.dir)
  {
    var d := v.Dir(root.dir);
    var w := v.WithDir(root.dir, d.Synced());
    assert Agree(v, d.View(|d.queue|), root.Marks(), doc);
    forall k | 0 <= k <= |w.Dir(root.dir).queue|
      ensures w.Dir(root.dir).View(k) == v.Live(root.dir)
    {
      SyncedViews(d, k);
    }
    SyncedViews(d, 0);
  }

  lemma GuardedLive<P, C>(v: Volume<P, C>, root: Root<P>)
    ensures Guarded(v, root) ==> Marked(root, v.Live(root.dir))
  {
    var d := v.Dir(root.dir);
    assert d.Live() == d.View(|d.queue|);
  }

  /** Another directory's operations leave the root alone. */
  lemma RootElsewhere<P, C>(v: Volume<P, C>, root: Root<P>, d: P, new': Directory<P>, doc: C)
    requires d != root.dir && MarkersAgree(v, root, doc)
    ensures var w := v.WithDir(d, new');
            && w.Dir(root.dir) == v.Dir(root.dir)
            && MarkersAgree(w, root, doc) && (Guarded(v, root) <==> Guarded(w, root))
  {
    var w := v.WithDir(d, new');
    assert w.Dir(root.dir) == v.Dir(root.dir);
    forall k | 0 <= k <= |w.Dir(root.dir).queue|
      ensures Agree(w, w.Dir(root.dir).View(k), root.Marks(), doc)
    {
      assert Agree(v, v.Dir(root.dir).View(k), root.Marks(), doc);
    }
  }

  // ---------------------------------------------------------------------------------------------
  // Steps that keep a recovery active

  /** No finished file has changed. */
  ghost predicate Preserves<P, C>(v: Volume<P, C>, w: Volume<P, C>) {
    forall i :: i in v.nodes && i !in v.dirty ==> i in w.nodes && w.nodes[i] == v.nodes[i] && i !in w.dirty
  }

  /** Writing to unfinished files, and syncing files. */
  lemma NodesActive<P, C>(v: Volume<P, C>, w: Volume<P, C>, root: Root<P>, p: Pending<P, C>)
    requires Active(v, root, p) && w.dirs == v.dirs && Preserves(v, w)
    ensures Active(w, root, p)
  {
    assert forall d :: w.Dir(d) == v.Dir(d);
    assert AllAlways(w, p.slots, AnyPhase()) by {
      forall i | 0 <= i < |p.slots| ensures Always(w, p.slots[i], AnyPhase()) {
        assert Always(v, p.slots[i], AnyPhase());
      }
    }
    forall k | 0 <= k <= |w.Dir(root.dir).queue|
      ensures Agree(w, w.Dir(root.dir).View(k), root.Marks(), p.doc)
    {
      assert Agree(v, v.Dir(root.dir).View(k), root.Marks(), p.doc);
    }
    CoherentSame(v, w, root, p);
  }

  lemma CoherentSame<P, C>(v: Volume<P, C>, w: Volume<P, C>, root: Root<P>, p: Pending<P, C>)
    requires w.dirs == v.dirs && Coherent(v, root, p)
    ensures Coherent(w, root, p)
  {
    assert forall d :: w.Dir(d) == v.Dir(d);
    if AllAlways(v, p.slots, {Ready}) {
      forall i | 0 <= i < |p.slots| ensures Always(w, p.slots[i], {Ready}) { assert Always(v, p.slots[i], {Ready}); }
    } else if AllAlways(v, p.slots, {Installed}) {
      forall i | 0 <= i < |p.slots| ensures Always(w, p.slots[i], {Installed}) {
        assert Always(v, p.slots[i], {Installed});
      }
    }
  }

  /** An operation outside the names of the slots keeps every slot where it is. */
  lemma SlotsElsewhere<P, C>(v: Volume<P, C>, d: P, op: DirOp<P>, slots: seq<Slot<P>>, phs: set<Phase>)
    requires AllAlways(v, slots, phs)
    requires forall i :: 0 <= i < |slots| && slots[i].names.dir == d ==> !Touches(op, slots[i].names.All())
    ensures AllAlways(v.WithDir(d, v.Dir(d).Queued(op)), slots, phs)
  {
    forall i | 0 <= i < |slots|
      ensures Always(v.WithDir(d, v.Dir(d).Queued(op)), slots[i], phs)
    {
      var s := slots[i];
      assert Always(v, s, phs);
      if s.names.dir == d {
        AlwaysLive(v, s, phs);
        ChangeElsewhereSome(s, v.Live(d), op, phs);
      }
      AlwaysQueued(v, d, op, s, phs);
    }
  }

  /** One file moves on while a marker is safe; the others stay. */
  lemma SlotMoves<P, C>(v: Volume<P, C>, root: Root<P>, p: Pending<P, C>, i: nat, op: DirOp<P>)
    requires Active(v, root, p) && Guarded(v, root) && i < |p.slots|
    requires var s := p.slots[i];
             InSome(s, Change(v.Live(s.names.dir), op), AnyPhase())
             && forall j :: 0 <= j < |p.slots| && j != i ==> !Touches(op, p.slots[j].names.All())
    ensures var d := p.slots[i].names.dir; var w := v.WithDir(d, v.Dir(d).Queued(op));
            Active(w, root, p) && Guarded(w, root) && w.Dir(root.dir) == v.Dir(root.dir)
  {
    var d := p.slots[i].names.dir;
    var w := v.WithDir(d, v.Dir(d).Queued(op));
    forall j | 0 <= j < |p.slots|
      ensures Always(w, p.slots[j], AnyPhase())
    {
      var s := p.slots[j];
      assert Always(v, s, AnyPhase());
      if j != i && s.names.dir == d {
        AlwaysLive(v, s, AnyPhase());
        ChangeElsewhereSome(s, v.Live(d), op, AnyPhase());
      }
      AlwaysQueued(v, d, op, s, AnyPhase());
    }
    RootElsewhere(v, root, d, v.Dir(d).Queued(op), p.doc);
  }

  /** A new or renamed file under a name nobody watches. */
  lemma QueueElsewhere<P, C>(v: Volume<P, C>, root: Root<P>, p: Pending<P, C>, d: P, op: DirOp<P>)
    requires Active(v, root, p)
    requires d == root.dir ==> !Touches(op, root.Marks())
    requires forall i :: 0 <= i < |p.slots| && p.slots[i].names.dir == d ==> !Touches(op, p.slots[i].names.All())
    ensures Active(v.WithDir(d, v.Dir(d).Queued(op)), root, p)
  {
    var w := v.WithDir(d, v.Dir(d).Queued(op));
    SlotsElsewhere(v, d, op, p.slots, AnyPhase());
    if AllAlways(v, p.slots, {Ready}) { SlotsElsewhere(v, d, op, p.slots, {Ready}); }
    if AllAlways(v, p.slots, {Installed}) { SlotsElsewhere(v, d, op, p.slots, {Installed}); }
    if d == root.dir {
      UnmarkedChange(v, root, op, p.doc);
    } else {
      RootElsewhere(v, root, d, v.Dir(d).Queued(op), p.doc);
    }
  }

  /** An operation on the root that touches no marker. */
  lemma UnmarkedChange<P, C>(v: Volume<P, C>, root: Root<P>, op: DirOp<P>, doc: C)
    requires MarkersAgree(v, root, doc) && !Touches(op, root.Marks())
    ensures var w := v.WithDir(root.dir, v.Dir(root.dir).Queued(op));
            && MarkersAgree(w, root, doc) && (Guarded(v, root) ==> Guarded(w, root))
            && (BothLive(w, root) <==> BothLive(v, root))
            && (Marked(root, w.Live(root.dir)) <==> Marked(root, v.Live(root.dir)))
  {
    var d := v.Dir(root.dir);
    assert Agree(v, d.View(|d.queue|), root.Marks(), doc);
    if Guarded(v, root) { assert Marked(root, d.View(|d.queue|)); }
    RootQueued(v, root, op, doc);
  }

  lemma SlotsSynced<P, C>(v: Volume<P, C>, d: P, slots: seq<Slot<P>>, phs: set<Phase>)
    requires AllAlways(v, slots, phs)
    ensures AllAlways(v.WithDir(d, v.Dir(d).Synced()), slots, phs)
  {
    forall i | 0 <= i < |slots|
      ensures Always(v.WithDir(d, v.Dir(d).Synced()), slots[i], phs)
    {
      assert Always(v, slots[i], phs);
      if slots[i].names.dir == d { AlwaysLive(v, slots[i], phs); }
      AlwaysSynced(v, d, slots[i], phs);
    }
  }

  /** Syncing any directory. */
  lemma SyncActive<P, C>(v: Volume<P, C>, root: Root<P>, p: Pending<P, C>, d: P)
    requires Active(v, root, p)
    ensures var w := v.WithDir(d, v.Dir(d).Synced());
            && Active(w, root, p)
            && (d == root.dir && Marked(root, v.Live(d)) ==> Guarded(w, root))
            && (Guarded(v, root) ==> Guarded(w, root))
            && (d != root.dir ==> w.Dir(root.dir) == v.Dir(root.dir))
  {
    var w := v.WithDir(d, v.Dir(d).Synced());
    SlotsSynced(v, d, p.slots, AnyPhase());
    if AllAlways(v, p.slots, {Ready}) { SlotsSynced(v, d, p.slots, {Ready}); }
    if AllAlways(v, p.slots, {Installed}) { SlotsSynced(v, d, p.slots, {Installed}); }
    if d == root.dir {
      var q := v.Dir(root.dir);
      if Guarded(v, root) { assert Marked(root, q.View(|q.queue|)); }
      RootSynced(v, root, p.doc);
    } else {
      RootElsewhere(v, root, d, v.Dir(d).Synced(), p.doc);
    }
  }

  /** Publishing a marker next to a durable one, or while nothing has begun. */
  lemma PublishActive<P, C>(v: Volume<P, C>, root: Root<P>, p: Pending<P, C>, temp: P, m: P)
    requires Active(v, root, p) && m in root.Marks() && temp !in root.Marks()
    requires var l := v.Live(root.dir);
             temp in l && l[temp] in v.nodes && l[temp] !in v.dirty && v.nodes[l[temp]].content == p.doc
    requires Marked(root, v.Live(root.dir)) ==> Guarded(v, root)
    requires m !in v.Live(root.dir)
    ensures Active(v.WithDir(root.dir, v.Dir(root.dir).Queued(Move(temp, m))), root, p)
    ensures v.WithDir(root.dir, v.Dir(root.dir).Queued(Move(temp, m))).Live(root.dir)
            == Change(v.Live(root.dir), Move(temp, m))
  {
    var op := Move(temp, m);
    var d := v.Dir(root.dir);
    assert Agree(v, d.View(|d.queue|), root.Marks(), p.doc);
    assert Agree(v, Change(v.Live(root.dir), op), root.Marks(), p.doc);
    RootQueued(v, root, op, p.doc);
    SlotsElsewhereRoot(v, root, op, p, AnyPhase());
    if AllAlways(v, p.slots, {Ready}) { SlotsElsewhereRoot(v, root, op, p, {Ready}); }
    if AllAlways(v, p.slots, {Installed}) { SlotsElsewhereRoot(v, root, op, p, {Installed}); }
  }

  lemma SlotsElsewhereRoot<P, C>(v: Volume<P, C>, root: Root<P>, op: DirOp<P>, p: Pending<P, C>, phs: set<Phase>)
    requires Separate(root, p.slots) && AllAlways(v, p.slots, phs)
    ensures AllAlways(v.WithDir(root.dir, v.Dir(root.dir).Queued(op)), p.slots, phs)
  {
    SlotsElsewhere(v, root.dir, op, p.slots, phs);
  }

  /** Removing a marker once every file is installed for good. */
  lemma UnlinkActive<P, C>(v: Volume<P, C>, root: Root<P>, p: Pending<P, C>, m: P)
    requires Active(v, root, p) && AllAlways(v, p.slots, {Installed}) && m in root.Marks()
    ensures var w := v.WithDir(root.dir, v.Dir(root.dir).Queued(Drop(m)));
            Active(w, root, p) && AllAlways(w, p.slots, {Installed}) && w.Live(root.dir) == v.Live(root.dir) - {m}
  {
    var op := Drop(m);
    var d := v.Dir(root.dir);
    assert Agree(v, d.View(|d.queue|), root.Marks(), p.doc);
    RootQueued(v, root, op, p.doc);
    SlotsElsewhereRoot(v, root, op, p, AnyPhase());
    SlotsElsewhereRoot(v, root, op, p, {Installed});
  }

  // ---------------------------------------------------------------------------------------------
  // Power loss

  lemma AlwaysLost<P(!new), C>(v: Volume<P, C>, w: Volume<P, C>, cuts: P -> nat, s: Slot<P>, phs: set<Phase>)
    requires Lost(v, w, cuts) && Always(v, s, phs)
    ensures Always(w, s, phs)
  {
    var d := s.names.dir;
    assert cuts(d) <= |v.Dir(d).queue| && w.Dir(d) == Directory(v.Dir(d).View(cuts(d)), []);
    assert InSome(s, v.Dir(d).View(cuts(d)), phs);
    forall k | 0 <= k <= |w.Dir(d).queue|
      ensures w.Dir(d).View(k) == v.Dir(d).View(cuts(d))
    {
    }
  }

  lemma AllAlwaysLost<P(!new), C>(v: Volume<P, C>, w: Volume<P, C>, cuts: P -> nat, slots: seq<Slot<P>>,
                                  phs: set<Phase>)
    requires Lost(v, w, cuts) && AllAlways(v, slots, phs)
    ensures AllAlways(w, slots, phs)
  {
    forall i | 0 <= i < |slots| ensures Always(w, slots[i], phs) {
      AlwaysLost(v, w, cuts, slots[i], phs);
    }
  }

  /** An active recovery survives a power loss. */
  lemma LossActive<P(!new), C>(v: Volume<P, C>, w: Volume<P, C>, cuts: P -> nat, root: Root<P>, p: Pending<P, C>)
    requires Lost(v, w, cuts) && Active(v, root, p)
    ensures Active(w, root, p)
  {
    AllAlwaysLost(v, w, cuts, p.slots, AnyPhase());
    if AllAlways(v, p.slots, {Ready}) { AllAlwaysLost(v, w, cuts, p.slots, {Ready}); }
    if AllAlways(v, p.slots, {Installed}) { AllAlwaysLost(v, w, cuts, p.slots, {Installed}); }
    LossRoot(v, w, cuts, root);
    var d := root.dir;
    assert Agree(v, v.Dir(d).View(cuts(d)), root.Marks(), p.doc);
  }

  /** The one listing of the root that is left is one of those that were possible. */
  lemma LossRoot<P(!new), C>(v: Volume<P, C>, w: Volume<P, C>, cuts: P -> nat, root: Root<P>)
    requires Lost(v, w, cuts)
    ensures cuts(root.dir) <= |v.Dir(root.dir).queue|
    ensures forall k :: 0 <= k <= |w.Dir(root.dir).queue| ==>
              w.Dir(root.dir).View(k) == v.Dir(root.dir).View(cuts(root.dir))
    ensures Guarded(v, root) ==> Guarded(w, root)
    ensures Unmarked(v, root) ==> Unmarked(w, root)
    ensures Marked(root, w.Live(root.dir)) ==> Guarded(w, root)
  {
    var d := root.dir;
    assert cuts(d) <= |v.Dir(d).queue| && w.Dir(d) == Directory(v.Dir(d).View(cuts(d)), []);
  }
}
