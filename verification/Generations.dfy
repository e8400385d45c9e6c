/** `create`: a checkpoint is copied into a staging directory, recorded, verified, and only then renamed to
    its final name. Directories below the checkpoint's parent are modelled as whole trees. */
module Generations {
  import opened Volumes
  import opened SparseFile
  import opened Json
  import opened Manifests
  import opened Paths
  import opened Tool

  /** What has to be synced: the data of a file, and the entries of a directory. */
  datatype Piece = Data(file: string) | Entries(dir: string)

  /** A checkpoint directory: its files, its manifest, and what in it has not been synced yet. */
  datatype Tree = Tree(files: map<string, seq<byte>>, manifest: Option<Json>, loose: set<Piece>)

  const MANIFEST: string := "manifest.json"

  /** The directories `create` syncs at the end, from the innermost to the checkpoint itself. */
  const DIRS: seq<string> := ["blocks/reversible", "blocks", "state", ""]

  /** The directories on the way to a file, which copying it may have to make. */
  function Above(f: string): set<string> {
    {""} + set i | 0 <= i < |f| && f[i] == '/' :: f[..i]
  }

  ghost predicate Covered(f: string, dirs: seq<string>) {
    forall d :: d in Above(f) ==> d in dirs
  }

  ghost predicate Reach(files: seq<string>, dirs: seq<string>) {
    forall f :: f in files ==> Covered(f, dirs)
  }

  lemma {:induction false} ParentAbove(f: string)
    ensures Parent(f) in Above(f)
  {
    if f != "" && f[|f| - 1] != '/' {
      var g := f[..|f| - 1];
      ParentAbove(g);
      forall d | d in Above(g) ensures d in Above(f) {
        if d != "" {
          var i :| 0 <= i < |g| && g[i] == '/' && g[..i] == d;
          assert f[i] == '/' && f[..i] == d;
        }
      }
    }
  }

  lemma AboveBelow(d: string, name: string)
    requires '/' !in name
    ensures Above(d + "/" + name) == Above(d) + {d}
  {
    var f := d + "/" + name;
    forall i | |d| < i < |f| ensures f[i] != '/' {
      assert f[i] == name[i - |d| - 1];
    }
    forall i | 0 <= i < |d| && d[i] == '/' ensures f[i] == '/' && f[..i] == d[..i] {}
    assert f[|d|] == '/' && f[..|d|] == d;
  }

  lemma AboveState(name: string)
    requires '/' !in name
    ensures Covered("state" + "/" + name, DIRS)
  {
    AboveBelow("state", name);
    assert Above("state") == {""};
    assert DIRS[2] == "state" && DIRS[3] == "";
  }

  lemma AboveReversible(name: string)
    requires '/' !in name
    ensures Covered("blocks/reversible" + "/" + name, DIRS)
  {
    AboveBelow("blocks", "reversible");
    assert "blocks" + "/" + "reversible" == "blocks/reversible";
    AboveBelow("blocks/reversible", name);
    assert Above("blocks") == {""};
    assert DIRS[0] == "blocks/reversible" && DIRS[1] == "blocks" && DIRS[3] == "";
  }

  lemma FileNames()
    ensures FILES[0] == "state" + "/" + "shared_memory.bin"
    ensures FILES[1] == "state" + "/" + "chain_head.dat"
    ensures FILES[2] == "blocks/reversible" + "/" + "fork_db.dat"
  {
  }

  lemma NoSlash()
    ensures '/' !in "shared_memory.bin" && '/' !in "chain_head.dat" && '/' !in "fork_db.dat"
  {
  }

  lemma DirsReach()
    ensures Reach(FILES, DIRS)
  {
    var files := FILES;
    FileNames();
    NoSlash();
    AboveState("shared_memory.bin");
    AboveState("chain_head.dat");
    AboveReversible("fork_db.dat");
    assert |files| == 3 && Covered(files[0], DIRS) && Covered(files[1], DIRS) && Covered(files[2], DIRS);
  }

  /** Only entries of these directories are still to be synced. */
  ghost predicate LooseIn(t: Tree, dirs: seq<string>) {
    forall x :: x in t.loose ==> x.Entries? && x.dir in dirs
  }

  /** The directory that holds the checkpoints, and the trees its entries lead to. */
  datatype Disk = Disk(parent: Directory<string>, trees: map<Ino, Tree>)

  /** The manifest is there, every file verifies against it, and all of it is on disk for good. */
  ghost predicate Complete(env: Env, t: Tree) {
    && t.manifest.Some? && t.loose == {} && env.printed(t.manifest.value) <= MAX_METADATA
    && var m := DecodeManifest(env.files, t.manifest.value);
       m.Some? && CheckpointOk(env, m.value, t.files)
  }

  ghost predicate EntryOk(env: Env, d: Disk, drafts: set<string>, name: string, id: Ino) {
    id in d.trees && (name in drafts || Complete(env, d.trees[id]))
  }

  /** Whatever a power loss leaves of the parent directory, each name is a complete generation or one
      of the staging names handed out. */
  ghost predicate Shelved(env: Env, d: Disk, drafts: set<string>) {
    forall k, name :: 0 <= k <= |d.parent.queue| && name in d.parent.View(k) ==>
          EntryOk(env, d, drafts, name, d.parent.View(k)[name])
  }

  /** The parent keeps a prefix of its queue; a tree that is not on disk for good may come back as anything. */
  ghost predicate DiskLost(d: Disk, e: Disk, cut: nat) {
    && cut <= |d.parent.queue| && e.parent == Directory(d.parent.View(cut), [])
    && (forall i :: i in d.trees ==> i in e.trees && (d.trees[i].loose == {} ==> e.trees[i] == d.trees[i]))
  }

  lemma LossKeepsGenerations(env: Env, d: Disk, e: Disk, drafts: set<string>, cut: nat)
    requires Shelved(env, d, drafts) && DiskLost(d, e, cut)
    ensures Shelved(env, e, drafts)
  {
    forall k, name | 0 <= k <= |e.parent.queue| && name in e.parent.View(k)
      ensures EntryOk(env, e, drafts, name, e.parent.View(k)[name])
    {
      assert e.parent.View(k) == d.parent.View(cut);
      assert EntryOk(env, d, drafts, name, d.parent.View(cut)[name]);
    }
  }

  // ---------------------------------------------------------------------------------------------
  // Steps

  ghost predicate SameTrees(d: Disk, e: Disk, except: Ino) {
    forall i :: i in d.trees && i != except ==> i in e.trees && e.trees[i] == d.trees[i]
  }

  /** Filling a tree that only staging names lead to. */
  lemma TreeStep(env: Env, d: Disk, e: Disk, drafts: set<string>, id: Ino)
    requires Shelved(env, d, drafts) && e.parent == d.parent && id in e.trees && SameTrees(d, e, id)
    requires OnlyDrafts(d.parent, drafts, id)
    ensures Shelved(env, e, drafts)
  {
    forall k, name | 0 <= k <= |e.parent.queue| && name in e.parent.View(k)
      ensures EntryOk(env, e, drafts, name, e.parent.View(k)[name])
    {
      assert EntryOk(env, d, drafts, name, d.parent.View(k)[name]);
    }
  }

  /** Only staging names ever lead to this tree. */
  ghost predicate OnlyDrafts(dir: Directory<string>, drafts: set<string>, id: Ino) {
    forall k, name :: 0 <= k <= |dir.queue| && name in dir.View(k) && dir.View(k)[name] == id ==> name in drafts
  }

  lemma EntryStep(env: Env, d: Disk, drafts: set<string>, op: DirOp<string>)
    requires Shelved(env, d, drafts)
    requires forall name :: name in Change(d.parent.Live(), op) ==>
               EntryOk(env, d, drafts, name, Change(d.parent.Live(), op)[name])
    ensures Shelved(env, d.(parent := d.parent.Queued(op)), drafts)
    ensures d.parent.Queued(op).Live() == Change(d.parent.Live(), op)
  {
    var e := d.(parent := d.parent.Queued(op));
    forall k, name | 0 <= k <= |e.parent.queue| && name in e.parent.View(k)
      ensures EntryOk(env, e, drafts, name, e.parent.View(k)[name])
    {
      QueuedViews(d.parent, op, k);
      if k <= |d.parent.queue| { assert EntryOk(env, d, drafts, name, d.parent.View(k)[name]); }
    }
    QueuedViews(d.parent, op, |d.parent.queue| + 1);
  }

  lemma SyncStep(env: Env, d: Disk, drafts: set<string>)
    requires Shelved(env, d, drafts)
    ensures Shelved(env, d.(parent := d.parent.Synced()), drafts) && d.parent.Synced().Live() == d.parent.Live()
  {
    var e := d.(parent := d.parent.Synced());
    forall k, name | 0 <= k <= |e.parent.queue| && name in e.parent.View(k)
      ensures EntryOk(env, e, drafts, name, e.parent.View(k)[name])
    {
      SyncedViews(d.parent, k);
      assert EntryOk(env, d, drafts, name, d.parent.View(|d.parent.queue|)[name]);
    }
    SyncedViews(d.parent, 0);
  }

  lemma LiveEntry(env: Env, d: Disk, drafts: set<string>, name: string)
    requires Shelved(env, d, drafts) && name in d.parent.Live()
    ensures EntryOk(env, d, drafts, name, d.parent.Live()[name])
  {
    assert EntryOk(env, d, drafts, name, d.parent.View(|d.parent.queue|)[name]);
  }

  // ---------------------------------------------------------------------------------------------
  // The code

  datatype Created = Created | AlreadyExists | NoInspection | MissingFile | NoRoom | CopyFailed(error: Error)
    | NotVerified | Stopped

  /** What is to be copied: the contents of the data files, how their holes are laid out, and whether
      each was left alone meanwhile. */
  datatype Source = Source(content: seq<byte>, layout: Layout, stable: bool)

  lemma LinkDraft(env: Env, d: Disk, drafts: set<string>, staging: string, id: Ino)
    requires Shelved(env, d, drafts) && id !in d.trees
    requires forall k :: 0 <= k <= |d.parent.queue| ==> staging !in d.parent.View(k)
    ensures var e := Disk(d.parent.Queued(Link(staging, id)), d.trees[id := Tree(map[], None, {})]);
            && Shelved(env, e, drafts + {staging}) && OnlyDrafts(e.parent, drafts + {staging}, id)
            && e.parent.Live() == d.parent.Live()[staging := id]
  {
    var op := Link(staging, id);
    var e := Disk(d.parent.Queued(op), d.trees[id := Tree(map[], None, {})]);
    forall k, name | 0 <= k <= |e.parent.queue| && name in e.parent.View(k)
      ensures EntryOk(env, e, drafts + {staging}, name, e.parent.View(k)[name])
    {
      LinkEntry(env, d, drafts, staging, id, k, name);
    }
    forall k, name | 0 <= k <= |e.parent.queue| && name in e.parent.View(k) && e.parent.View(k)[name] == id
      ensures name in drafts + {staging}
    {
      LinkEntry(env, d, drafts, staging, id, k, name);
    }
    QueuedViews(d.parent, op, |d.parent.queue| + 1);
  }

  lemma LinkEntry(env: Env, d: Disk, drafts: set<string>, staging: string, id: Ino, k: nat, name: string)
    requires Shelved(env, d, drafts) && id !in d.trees
    requires k <= |d.parent.Queued(Link(staging, id)).queue| && name in d.parent.Queued(Link(staging, id)).View(k)
    ensures var x := d.parent.Queued(Link(staging, id)).View(k)[name];
            EntryOk(env, d.(trees := d.trees[id := Tree(map[], None, {})]), drafts + {staging}, name, x)
                && (x == id ==> name == staging)
  {
    QueuedViews(d.parent, Link(staging, id), k);
    var j := if k <= |d.parent.queue| then k else |d.parent.queue|;
    if k <= |d.parent.queue| || name != staging { assert EntryOk(env, d, drafts, name, d.parent.View(j)[name]); }
  }

  /** A complete tree gets its final name. */
  lemma PublishTree(env: Env, d: Disk, drafts: set<string>, staging: string, name: string, id: Ino)
    requires Shelved(env, d, drafts) && id in d.trees && Complete(env, d.trees[id])
    requires staging in d.parent.Live() && d.parent.Live()[staging] == id && name != staging
    ensures var e := d.(parent := d.parent.Queued(Move(staging, name)));
            Shelved(env, e, drafts) && e.parent.Live() == (d.parent.Live() - {staging})[name := id]
  {
    var op := Move(staging, name);
    forall n | n in Change(d.parent.Live(), op)
      ensures EntryOk(env, d, drafts, n, Change(d.parent.Live(), op)[n])
    {
      if n != name { LiveEntry(env, d, drafts, n); }
    }
    EntryStep(env, d, drafts, op);
  }

  class Shelf {
    const env: Env
    var disk: Disk
    var fuel: nat
    ghost var drafts: set<string>

    ghost predicate Valid()
      reads this
    {
      Shelved(env, disk, drafts)
    }

    constructor (env: Env, disk: Disk, fuel: nat, ghost drafts: set<string>)
      requires Shelved(env, disk, drafts)
      ensures Valid() && this.env == env && this.disk == disk && this.fuel == fuel && this.drafts == drafts
    {
      this.env, this.disk, this.fuel, this.drafts := env, disk, fuel, drafts;
    }

    /** One change to a tree under construction. */
    method SetTree(id: Ino, t: Tree) returns (ok: bool)
      requires Valid() && id in disk.trees && OnlyDrafts(disk.parent, drafts, id)
      modifies this`disk, this`fuel
      ensures Valid() && disk.parent == old(disk.parent)
      ensures disk.trees == if ok then old(disk.trees)[id := t] else old(disk.trees)
      ensures (ok <==> old(fuel) > 0) && (ok ==> fuel == old(fuel) - 1)
    {
      if fuel == 0 { return false; }
      fuel := fuel - 1;
      var e := disk.(trees := disk.trees[id := t]);
      TreeStep(env, disk, e, drafts, id);
      disk := e;
      return true;
    }

    /** Writes a file of the tree, with the directories on the way to it, and syncs the file and the
        directory it is in. */
    method AddFile(id: Ino, t: Tree, f: string, ghost dirs: seq<string>) returns (ok: bool)
      requires Valid() && id in disk.trees && OnlyDrafts(disk.parent, drafts, id)
      requires LooseIn(t, dirs) && Covered(f, dirs)
      modifies this`disk, this`fuel
      ensures Valid() && disk.parent == old(disk.parent) && SameTrees(old(disk), disk, id) && id in disk.trees
      ensures ok ==> LooseIn(disk.trees[id], dirs)
      ensures ok ==>
                disk.trees[id] == t.(loose := t.loose + (set d | d in Above(f) :: Entries(d)) - {Entries(Parent(f))})
      ensures !ok ==>
                var loose := t.loose + set d | d in Above(f) :: Entries(d);
                disk.trees[id] == if old(fuel) == 0 then old(disk.trees)[id]
                                  else if old(fuel) == 1 then t.(loose := loose + {Data(f)}) else t.(loose := loose)
      ensures (ok <==> old(fuel) >= 3) && (ok ==> fuel == old(fuel) - 3)
    {
      var loose := t.loose + set d | d in Above(f) :: Entries(d);
      ParentAbove(f);
      ok := SetTree(id, t.(loose := loose + {Data(f)}));
      if !ok { return; }
      ok := SetTree(id, t.(loose := loose));
      if !ok { return; }
      ok := SetTree(id, t.(loose := loose - {Entries(Parent(f))}));
    }

    /** Every file is copied, in order, and recorded. */
    method CopyAll(id: Ino, sources: map<string, Source>, dev: Device,
                   ghost dirs: seq<string>) returns (r: Created, records: map<string, Record>)
      requires Valid() && id in disk.trees && OnlyDrafts(disk.parent, drafts, id)
      requires disk.trees[id] == Tree(map[], None, {})
      requires Reach(env.files, dirs) && forall f :: f in env.files ==> f in sources
      modifies this`disk, this`fuel
      ensures Valid() && disk.parent == old(disk.parent) && SameTrees(old(disk), disk, id) && id in disk.trees
      ensures r.Created? ==> disk.trees[id].manifest.None? && LooseIn(disk.trees[id], dirs)
      ensures r.Created? ==> records.Keys == (set f | f in env.files)
      ensures r.Created? ==> forall f :: f in env.files ==> Copied(env, sources, disk.trees[id], records, f)
      ensures r.Created? ==> old(fuel) == fuel + 3 * |env.files|
      ensures old(fuel) >= 3 * |env.files| && (forall f :: f in env.files ==> Copyable(sources[f], dev)) ==> r.Created?
      ensures r.Created? || r.CopyFailed? || (r == Stopped && old(fuel) < 3 * |env.files|)
    {
      records := map[];
      var i := 0;
      while i < |env.files|
        invariant i <= |env.files| && Valid() && disk.parent == old(disk.parent) && SameTrees(old(disk), disk, id)
        invariant id in disk.trees
        invariant disk.trees[id].manifest.None? && LooseIn(disk.trees[id], dirs)
        invariant records.Keys == set f | f in env.files[..i]
        invariant forall f :: f in env.files[..i] ==> Copied(env, sources, disk.trees[id], records, f)
        invariant old(fuel) == fuel + 3 * i
      {
        var f := env.files[i];
        ghost var before, known := disk.trees[id], records;
        var e, record := CopyOne(id, sources[f], f, dev, dirs);
        if !e.Created? { return e, records; }
        records := records[f := record];
        assert env.files[..i + 1] == env.files[..i] + [f];
        CopiedMore(env, sources, before, disk.trees[id], known, records, env.files[..i], f);
        i := i + 1;
      }
      assert env.files[..i] == env.files;
      return Created.Created, records;
    }

    /** One file is copied into the tree. */
    method CopyOne(id: Ino, source: Source, f: string, dev: Device, ghost dirs: seq<string>)
      returns (r: Created, record: Record)
      requires Valid() && id in disk.trees && OnlyDrafts(disk.parent, drafts, id)
      requires LooseIn(disk.trees[id], dirs) && Covered(f, dirs)
      modifies this`disk, this`fuel
      ensures Valid() && disk.parent == old(disk.parent) && SameTrees(old(disk), disk, id) && id in disk.trees
      ensures r.Created? ==> var t, u := old(disk.trees)[id], disk.trees[id];
              && LooseIn(u, dirs) && u.manifest == t.manifest && f in u.files && u.files == t.files[f := u.files[f]]
              && CopiedAs(env, source, u.files[f], record)
      ensures r.Created? ==> old(fuel) == fuel + 3
      ensures old(fuel) >= 3 && Copyable(source, dev) ==> r.Created?
      ensures r.Created? || r.CopyFailed? || (r == Stopped && old(fuel) < 3)
    {
      var copied, copy := CopySparse(source.content, source.layout, dev, env.sha, source.stable);
      if copied.Err? { return CopyFailed(copied.error), Record(0, []); }
      var t := disk.trees[id];
      var ok := AddFile(id, t.(files := t.files[f := copy[..]]), f, dirs);
      if !ok { return Stopped, Record(0, []); }
      return Created.Created, copied.value;
    }

    /** The directories of the tree are synced one by one. */
    method SyncDirs(id: Ino, dirs: seq<string>) returns (ok: bool)
      requires Valid() && id in disk.trees && OnlyDrafts(disk.parent, drafts, id) && LooseIn(disk.trees[id], dirs)
      modifies this`disk, this`fuel
      ensures Valid() && disk.parent == old(disk.parent) && SameTrees(old(disk), disk, id) && id in disk.trees
      ensures ok ==> disk.trees[id] == old(disk.trees)[id].(loose := {})
      ensures (ok <==> old(fuel) >= |dirs|) && (ok ==> old(fuel) == fuel + |dirs|)
    {
      var i := 0;
      while i < |dirs|
        invariant i <= |dirs| && Valid() && disk.parent == old(disk.parent) && SameTrees(old(disk), disk, id)
        invariant id in disk.trees
        invariant disk.trees[id] == old(disk.trees)[id].(loose := disk.trees[id].loose)
        invariant LooseIn(disk.trees[id], dirs[i..]) && old(fuel) == fuel + i
      {
        var t := disk.trees[id];
        ok := SetTree(id, t.(loose := t.loose - {Entries(dirs[i])}));
        if !ok { return; }
        i := i + 1;
      }
      ok := true;
    }

    /** `create`. The directories synced at the end have to reach every file: `DIRS` does. */
    method Create(name: string, token: string, id: Ino, identity: Option<Identity>, roomy: bool,
                  sources: map<string, Source>, dev: Device,
                  inspected: bool, dirs: seq<string>)
      returns (r: Created)
      requires Valid() && id !in disk.trees && name !in drafts && Reach(env.files, dirs)
      requires forall k :: 0 <= k <= |disk.parent.queue| ==> name + ".incomplete-" + token !in disk.parent.View(k)
      modifies this
      ensures Valid() && drafts <= old(drafts) + {name + ".incomplete-" + token}
      ensures SameTrees(old(disk), disk, id)
      ensures SameElsewhere(old(disk.parent.Live()), disk.parent.Live(), name, name + ".incomplete-" + token)
      ensures name in old(disk.parent.Live()) ==> disk == old(disk)
      ensures match r
              case AlreadyExists => name in old(disk.parent.Live())
              case NoInspection => name !in old(disk.parent.Live()) && identity.None?
              case MissingFile => name !in old(disk.parent.Live()) && exists f :: f in env.files && f !in sources
              case NoRoom => name !in old(disk.parent.Live()) && !roomy
              case _ =>
                name !in old(disk.parent.Live()) && identity.Some? && roomy && forall f :: f in env.files ==>
                      f in sources
      ensures name in disk.parent.Live() && name !in old(disk.parent.Live()) ==>
                identity.Some? && roomy && inspected && Published(env, disk, name, id, identity.value, sources)
      ensures r.Created? ==> name in disk.parent.Live() && name !in old(disk.parent.Live()) && disk.parent.queue == []
      ensures name !in old(disk.parent.Live()) && roomy && inspected && old(fuel) >= Steps(env, dirs) ==>
                (identity.Some? && Creatable(env, identity.value, sources, dev) ==> r.Created?)
      ensures r == Stopped ==> old(fuel) < Steps(env, dirs)
    {
      if name in disk.parent.Live() { return AlreadyExists; }
      if identity.None? { return NoInspection; }
      if exists f :: f in env.files && f !in sources { return MissingFile; }
      if !roomy { return Created.NoRoom; }
      var staging := name + ".incomplete-" + token;
      assert |staging| > |name|;
      r := Build(name, staging, id, identity.value, sources, dev, inspected, dirs);
    }

    /** From the staging directory to the final name. */
    method Build(name: string, staging: string, id: Ino, identity: Identity, sources: map<string, Source>, dev: Device,
                 inspected: bool, dirs: seq<string>)
      returns (r: Created)
      requires Valid() && id !in disk.trees && Reach(env.files, dirs) && (forall f :: f in env.files ==> f in sources)
      requires name != staging && name !in disk.parent.Live()
      requires forall k :: 0 <= k <= |disk.parent.queue| ==> staging !in disk.parent.View(k)
      modifies this
      ensures Valid() && drafts <= old(drafts) + {staging} && SameTrees(old(disk), disk, id)
      ensures SameElsewhere(old(disk.parent.Live()), disk.parent.Live(), name, staging)
      ensures name in disk.parent.Live() ==> inspected && Published(env, disk, name, id, identity, sources)
      ensures r.Created? ==> name in disk.parent.Live() && disk.parent.queue == []
      ensures inspected && Creatable(env, identity, sources, dev) && old(fuel) >= Steps(env, dirs) ==> r.Created?
      ensures r.Created? || r.CopyFailed? || r == NotVerified || (r == Stopped && old(fuel) < Steps(env, dirs))
    {
      var ok := Draft(staging, id);
      if !ok { return Stopped; }
      r := Fill(id, identity, sources, dev, inspected, dirs);
      if !r.Created? { return; }
      r := Publish(staging, name, id);
    }

    /** The staging directory is made. */
    method Draft(staging: string, id: Ino) returns (ok: bool)
      requires Valid() && id !in disk.trees
      requires forall k :: 0 <= k <= |disk.parent.queue| ==> staging !in disk.parent.View(k)
      modifies this
      ensures Valid() && drafts <= old(drafts) + {staging}
      ensures !ok ==> disk == old(disk)
      ensures ok ==> disk.trees == old(disk.trees)[id := Tree(map[], None, {})] && OnlyDrafts(disk.parent, drafts, id)
      ensures ok ==> disk.parent.Live() == old(disk.parent.Live())[staging := id]
      ensures (ok <==> old(fuel) > 0) && (ok ==> fuel == old(fuel) - 1)
    {
      if fuel == 0 { return false; }
      fuel := fuel - 1;
      LinkDraft(env, disk, drafts, staging, id);
      drafts := drafts + {staging};
      disk := Disk(disk.parent.Queued(Link(staging, id)), disk.trees[id := Tree(map[], None, {})]);
      return true;
    }

    /** A complete tree gets its final name, and the name is synced. */
    method Publish(staging: string, name: string, id: Ino) returns (r: Created)
      requires Valid() && id in disk.trees && Complete(env, disk.trees[id]) && name != staging
      requires name !in disk.parent.Live()
      requires staging in disk.parent.Live() && disk.parent.Live()[staging] == id
      modifies this`disk, this`fuel
      ensures Valid() && disk.trees == old(disk.trees)
      ensures name in disk.parent.Live() ==> disk.parent.Live() == (old(disk.parent.Live()) - {staging})[name := id]
      ensures name !in disk.parent.Live() ==> disk == old(disk)
      ensures r == Stopped || (r == Created.Created && name in disk.parent.Live() && disk.parent.queue == [])
      ensures r == Stopped <==> old(fuel) < 2
    {
      if fuel == 0 { return Stopped; }
      fuel := fuel - 1;
      PublishTree(env, disk, drafts, staging, name, id);
      disk := disk.(parent := disk.parent.Queued(Move(staging, name)));
      if fuel == 0 { return Stopped; }
      fuel := fuel - 1;
      SyncStep(env, disk, drafts);
      disk := disk.(parent := disk.parent.Synced());
      return Created.Created;
    }

    /** The copies, the manifest, the verification of the result, and the last syncs. */
    method Fill(id: Ino, identity: Identity, sources: map<string, Source>, dev: Device, inspected: bool,
                dirs: seq<string>) returns (r: Created)
      requires Valid() && id in disk.trees && OnlyDrafts(disk.parent, drafts, id)
      requires disk.trees[id] == Tree(map[], None, {})
      requires Reach(env.files, dirs) && forall f :: f in env.files ==> f in sources
      modifies this`disk, this`fuel
      ensures Valid() && disk.parent == old(disk.parent) && SameTrees(old(disk), disk, id) && id in disk.trees
      ensures r.Created? ==> inspected && Complete(env, disk.trees[id])
      ensures r.Created? ==> Faithful(env, sources, disk.trees[id]) && Attests(env, identity, sources, disk.trees[id])
      ensures r.Created? ==> old(fuel) == fuel + 3 * |env.files| + 3 + |dirs|
      ensures inspected && Creatable(env, identity, sources, dev) && old(fuel) >= 3 * |env.files| + 3 + |dirs| ==>
                r.Created?
      ensures r.Created? || r.CopyFailed? || r == NotVerified
              || (r == Stopped && old(fuel) < 3 * |env.files| + 3 + |dirs|)
    {
      var records;
      r, records := CopyAll(id, sources, dev, dirs);
      if !r.Created? { return; }
      ghost var written := Manifest(identity, records);
      ReadAsWritten(env.files, written);
      if Creatable(env, identity, sources, dev) {
        CreatableReads(env, identity, sources, dev, disk.trees[id], records);
      }
      var j := EncodeManifest(Manifest(identity, records));
      var t := disk.trees[id].(manifest := Some(j));
      var ok := AddManifest(id, t, dirs);
      if !ok { return Stopped; }
      var m := DecodeManifest(env.files, j);
      if env.printed(j) > MAX_METADATA || m.None? || !CheckpointOk(env, m.value, t.files) || !inspected {
        return NotVerified;
      }
      ok := SyncDirs(id, dirs);
      if !ok { return Stopped; }
    }

    /** `write_json` of the manifest. */
    method AddManifest(id: Ino, t: Tree, ghost dirs: seq<string>) returns (ok: bool)
      requires Valid() && id in disk.trees && OnlyDrafts(disk.parent, drafts, id) && LooseIn(t, dirs)
      modifies this`disk, this`fuel
      ensures Valid() && disk.parent == old(disk.parent) && SameTrees(old(disk), disk, id) && id in disk.trees
      ensures ok ==> LooseIn(disk.trees[id], dirs)
      ensures ok ==> disk.trees[id] == t.(loose := t.loose - {Entries("")})
      ensures !ok ==>
                disk.trees[id] == if old(fuel) == 0 then old(disk.trees)[id]
                                  else if old(fuel) == 1 then t.(loose := t.loose + {Data(MANIFEST), Entries("")})
                                  else t.(loose := t.loose + {Entries("")})
      ensures (ok <==> old(fuel) >= 3) && (ok ==> fuel == old(fuel) - 3)
    {
      ok := SetTree(id, t.(loose := t.loose + {Data(MANIFEST), Entries("")}));
      if !ok { return; }
      ok := SetTree(id, t.(loose := t.loose + {Entries("")}));
      if !ok { return; }
      ok := SetTree(id, t.(loose := t.loose - {Entries("")}));
    }
  }

  /** Apart from these two names the listings are the same. */
  ghost predicate SameElsewhere(l: map<string, Ino>, k: map<string, Ino>, x: string, y: string) {
    forall n :: n != x && n != y ==> (n in k <==> n in l) && (n in k ==> k[n] == l[n])
  }

  /** The copy is the source as it was left alone, and the record describes it. */
  ghost predicate CopiedAs(env: Env, source: Source, copy: seq<byte>, record: Record) {
    && source.stable && record == RecordFor(env, source)
    && (Honest(source.layout, source.content) ==>
          copy == source.content && Matches(source.content, record, env.sha))
  }

  ghost predicate Copied(env: Env, sources: map<string, Source>, t: Tree, records: map<string, Record>, f: string) {
    f in sources && f in t.files && f in records && CopiedAs(env, sources[f], t.files[f], records[f])
  }

  /** What was copied before stays copied. */
  lemma CopiedMore(env: Env, sources: map<string, Source>, t: Tree, u: Tree, known: map<string, Record>,
                   records: map<string, Record>, done: seq<string>, f: string)
    requires f in sources && f in u.files && u.files == t.files[f := u.files[f]]
    requires f in records && records == known[f := records[f]] && CopiedAs(env, sources[f], u.files[f], records[f])
    requires forall g :: g in done ==> Copied(env, sources, t, known, g)
    ensures forall g :: g in done + [f] ==> Copied(env, sources, u, records, g)
  {
    forall g | g in done + [f] ensures Copied(env, sources, u, records, g) {
      if g != f { assert Copied(env, sources, t, known, g); }
    }
  }

  /** The tree holds the data files as they were. */
  ghost predicate Faithful(env: Env, sources: map<string, Source>, t: Tree) {
    forall f :: f in env.files ==>
      f in sources && f in t.files && sources[f].stable
          && (Honest(sources[f].layout, sources[f].content) ==> t.files[f] == sources[f].content)
  }

  /** The manifest, read back, names the inspected state and describes the data files. */
  ghost predicate Attests(env: Env, identity: Identity, sources: map<string, Source>, t: Tree) {
    && t.manifest.Some? && DecodeManifest(env.files, t.manifest.value).Some?
    && var m := DecodeManifest(env.files, t.manifest.value).value;
       m.state == identity && forall f :: f in env.files ==>
         && f in sources && f in m.files
         && (Honest(sources[f].layout, sources[f].content) ==> Matches(sources[f].content, m.files[f], env.sha))
  }

  ghost predicate Published(env: Env, d: Disk, name: string, id: Ino, identity: Identity,
                            sources: map<string, Source>) {
    && name in d.parent.Live() && d.parent.Live()[name] == id && id in d.trees
    && Complete(env, d.trees[id]) && Faithful(env, sources, d.trees[id]) && Attests(env, identity, sources, d.trees[id])
  }

  // ---------------------------------------------------------------------------------------------
  // When it succeeds

  /** The record `copy_sparse` makes of a file. */
  function RecordFor(env: Env, source: Source): Record {
    var xs := Scan(source.layout, |source.content|, 0, []);
    if xs.Ok? && forall i :: 0 <= i < |xs.value| ==> xs.value[i].start <= xs.value[i].end <= |source.content|
    then RecordOf(source.content, xs.value, env.sha) else Record(0, [])
  }

  /** Nothing keeps this file from being copied. */
  ghost predicate Copyable(source: Source, dev: Device) {
    source.stable && Healthy(dev) && Regular(source.layout, |source.content|)
  }

  function RecordsFor(env: Env, sources: map<string, Source>): map<string, Record> {
    map f | f in env.files && f in sources :: RecordFor(env, sources[f])
  }

  /** Nothing keeps these files from being copied, recorded and verified: they can be read and are neither empty nor
      too long, the inspected identity is in order, digests are digests, and the manifest is not too long. */
  ghost predicate Creatable(env: Env, identity: Identity, sources: map<string, Source>, dev: Device) {
    && IdentityOk(identity) && (forall s :: IsHex(env.sha(s), 64))
    && env.printed(EncodeManifest(Manifest(identity, RecordsFor(env, sources)))) <= MAX_METADATA
    && forall f :: f in env.files ==>
         && f in sources && Copyable(sources[f], dev) && Honest(sources[f].layout, sources[f].content)
         && 0 < |sources[f].content| < MAX_SIZE
  }

  /** The file operations of `create`. */
  function Steps(env: Env, dirs: seq<string>): nat { 1 + 3 * |env.files| + 3 + |dirs| + 2 }

  lemma RecordForOk(env: Env, source: Source)
    requires forall s :: IsHex(env.sha(s), 64)
    requires 0 < |source.content| < MAX_SIZE && Matches(source.content, RecordFor(env, source), env.sha)
    ensures RecordOk(RecordFor(env, source))
  {
  }

  lemma CreatableReads(env: Env, identity: Identity, sources: map<string, Source>, dev: Device, t: Tree,
                       records: map<string, Record>)
    requires Creatable(env, identity, sources, dev) && records.Keys == set f | f in env.files
    requires forall f :: f in env.files ==> Copied(env, sources, t, records, f)
    ensures var m := Manifest(identity, records);
            && env.printed(EncodeManifest(m)) <= MAX_METADATA && DecodeManifest(env.files, EncodeManifest(m)) == Some(m)
            && CheckpointOk(env, m, t.files)
  {
    forall f | f in env.files
      ensures f in sources && records[f] == RecordFor(env, sources[f]) && RecordOk(records[f])
      ensures f in t.files && Matches(t.files[f], records[f], env.sha)
    {
      assert Copied(env, sources, t, records, f);
      RecordForOk(env, sources[f]);
    }
    assert records == RecordsFor(env, sources);
    InOrderReads(env, Manifest(identity, records), t.files);
  }

  lemma InOrderReads(env: Env, m: Manifest, contents: map<string, seq<byte>>)
    requires m.files.Keys == (set f | f in env.files) && IdentityOk(m.state)
    requires forall f :: f in env.files ==>
               RecordOk(m.files[f]) && f in contents && Matches(contents[f], m.files[f], env.sha)
    ensures DecodeManifest(env.files, EncodeManifest(m)) == Some(m) && CheckpointOk(env, m, contents)
  {
    ManifestRoundTrip(env.files, m);
  }
}
