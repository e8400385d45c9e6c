/** One restore, followed from its first marker on: from there nothing but its own recovery is pending,
    whatever there was before it. What it achieves if it is not cut short, and which files it leaves alone. */
module Tracking {
  import opened Volumes
  import opened Recoveries
  import opened Protocol
  import opened Swapping
  import opened Staging
  import opened Bystanders
  import opened Json
  import opened Manifests
  import opened Paths
  import opened Journals
  import opened Tool
  import opened Safety
  import opened Frame

  /** This recovery, for good. */
  ghost function Just(p: Pend): Scope { (o: Option<Pend>) => o == Some(p) }

  function FirstMarker(env: Env, v: Vol, a: RestoreArgs, m: Manifest): NewFile<string, Content> {
    MarkerFile(env, RootOf(env).m0, a.t0, Encode(JournalFor(env, v, a, m)))
  }

  function SecondMarker(env: Env, v: Vol, a: RestoreArgs, m: Manifest): NewFile<string, Content> {
    MarkerFile(env, RootOf(env).m1, a.t1, Encode(JournalFor(env, v, a, m)))
  }

  /** A restore up to the first marker, from there to the second, and from there on. */
  function PrepareOpsOf(env: Env, v: Vol, a: RestoreArgs, m: Manifest): seq<Op<string, Content>>
    requires Applicable(env, a, m)
  {
    PrepareOps(RootOf(env), FileDirs(env), CopyFiles(env, a, m), FirstMarker(env, v, a, m))
  }

  function MarkOpsOf(env: Env, v: Vol, a: RestoreArgs, m: Manifest): seq<Op<string, Content>> {
    MarkOps(RootOf(env), FirstMarker(env, v, a, m), SecondMarker(env, v, a, m))
  }

  lemma OpsSplit(env: Env, v: Vol, a: RestoreArgs, m: Manifest)
    requires Applicable(env, a, m)
    ensures BeginOpsOf(env, v, a, m) == PrepareOpsOf(env, v, a, m) + MarkOpsOf(env, v, a, m)
    ensures Midway(env, v, a, m) == Exec(MarkOpsOf(env, v, a, m), Exec(PrepareOpsOf(env, v, a, m), v))
  {
    BeginSplits(RootOf(env), FileDirs(env), CopyFiles(env, a, m), FirstMarker(env, v, a, m),
                SecondMarker(env, v, a, m));
    ExecConcat(PrepareOpsOf(env, v, a, m), MarkOpsOf(env, v, a, m), v);
  }

  // ---------------------------------------------------------------------------------------------
  // Before the first marker

  /** What comes before the first marker touches no marker. */
  lemma PrepareSpares(env: Env, v: Vol, a: RestoreArgs, m: Manifest, x: string)
    requires EnvOk(env) && Applicable(env, a, m) && IsHex(a.token, 32) && IsHex(a.t0.suffix, 32)
    requires x in RootOf(env).Marks()
    ensures Spares(PrepareOpsOf(env, v, a, m), env.data, x)
  {
    var files := CopyFiles(env, a, m);
    CopiesApart(env, a, m, x);
    StageSpares(FileDirs(env), files, 0, env.data, x);
    TokenEnds(env.m0, ".writing-", a.t0.suffix);
  }

  lemma NoMarkerYet(env: Env, v: Vol, first: seq<Op<string, Content>>, rest: seq<Op<string, Content>>, cut: nat)
    requires forall x :: x in RootOf(env).Marks() ==> Spares(first, env.data, x)
    requires !Marked(RootOf(env), v.Live(env.data))
    ensures cut <= |first| ==> !Marked(RootOf(env), Exec(Cut(first + rest, cut), v).Live(env.data))
  {
    if cut <= |first| {
      BeginElsewhere(v, first, rest, cut, env.data, RootOf(env).m0);
      BeginElsewhere(v, first, rest, cut, env.data, RootOf(env).m1);
    }
  }

  lemma PrepareUnmarked(env: Env, v: Vol, a: RestoreArgs, m: Manifest, cut: nat)
    requires EnvOk(env) && Applicable(env, a, m) && IsHex(a.token, 32) && IsHex(a.t0.suffix, 32)
    requires Present(env, v) == []
    ensures Marked(RootOf(env), RestoreWith(env, v, a, m, cut).Live(env.data)) ==> cut > |PrepareOpsOf(env, v, a, m)|
  {
    forall x | x in RootOf(env).Marks() ensures Spares(PrepareOpsOf(env, v, a, m), env.data, x) {
      PrepareSpares(env, v, a, m, x);
    }
    NothingMarked(env, v);
    RestoreSplit(env, v, a, m);
    NoMarkerYet(env, v, PrepareOpsOf(env, v, a, m),
                MarkOpsOf(env, v, a, m) + PlannedOps(env, Midway(env, v, a, m), Rest(a)), cut);
  }

  lemma FreshHex(env: Env, used: set<string>, v: Vol, a: RestoreArgs)
    requires |a.copies| == |env.files| && FreshNames(env, used, v, a)
    ensures IsHex(a.token, 32) && IsHex(a.t0.suffix, 32)
  {
    assert TempOk(env, used + UsedBy(env, a.token), v, RootOf(env).m0, a.t0);
  }

  /** So a restore that left a marker got past it. */
  lemma MarkerMeansPast(env: Env, used: set<string>, v: Vol, a: RestoreArgs, m: Manifest, cut: nat)
    requires EnvOk(env) && Goes(env, used, v, a, m)
    ensures Marked(RootOf(env), RestoreWith(env, v, a, m, cut).Live(env.data)) ==> cut > |PrepareOpsOf(env, v, a, m)|
  {
    FreshHex(env, used, v, a);
    PrepareUnmarked(env, v, a, m, cut);
  }

  lemma NothingMarked(env: Env, v: Vol)
    requires Present(env, v) == []
    ensures !Marked(RootOf(env), v.Live(env.data))
  {
  }

  lemma RestoreSplit(env: Env, v: Vol, a: RestoreArgs, m: Manifest)
    requires Applicable(env, a, m)
    ensures RestoreOps(env, v, a, m)
         == PrepareOpsOf(env, v, a, m) + (MarkOpsOf(env, v, a, m) + PlannedOps(env, Midway(env, v, a, m), Rest(a)))
  {
    OpsSplit(env, v, a, m);
    Regrouped(PrepareOpsOf(env, v, a, m), MarkOpsOf(env, v, a, m), PlannedOps(env, Midway(env, v, a, m), Rest(a)));
  }

  // ---------------------------------------------------------------------------------------------
  // From the first marker on

  lemma CanBeginPoised(site: Site<string, Content>, used: set<string>, v: Vol, p: Pend,
                       files: seq<NewFile<string, Content>>, f0: NewFile<string, Content>,
                       f1: NewFile<string, Content>, dirs: seq<string>, all: set<string>)
    requires !Marked(site.root, v.Live(site.root.dir))
    requires CanBegin(site, used, v, p, files, f0, f1) && dirs == Dirs(p.slots) && all == used + Private(p.slots)
    ensures |dirs| == |files| && Poised(site, all, Exec(PrepareOps(site.root, dirs, files, f0), v), p, f0, f1)
  {
    PreparePoised(site, used, v, p, files, f0, f1);
  }

  /** Right before its first marker a restore has nothing but its own recovery before it. */
  lemma RestorePoised(env: Env, used: set<string>, v: Vol, a: RestoreArgs, m: Manifest, p: Pend)
    requires EnvOk(env) && Goes(env, used, v, a, m) && p == Begins(env, v, a, m)
    ensures Poised(SiteOf(env, Just(p)), used + UsedBy(env, a.token), Exec(PrepareOpsOf(env, v, a, m), v), p,
                   FirstMarker(env, v, a, m), SecondMarker(env, v, a, m))
  {
    var f0, f1 := FirstMarker(env, v, a, m), SecondMarker(env, v, a, m);
    BeginsCan(env, Just(p), used, v, a, m, Encode(JournalFor(env, v, a, m)));
    PrivateIsUsedBy(env, v, a);
    SameDirs(env, v, a);
    NothingMarked(env, v);
    CanBeginPoised(SiteOf(env, Just(p)), used, v, p, CopyFiles(env, a, m), f0, f1, FileDirs(env),
                   used + UsedBy(env, a.token));
  }

  /** Once both markers stand, this recovery is ready, whatever there was before. */
  lemma RestoreBegun(env: Env, used: set<string>, v: Vol, a: RestoreArgs, m: Manifest, p: Pend, u: Vol,
                     mark: seq<Op<string, Content>>)
    requires EnvOk(env) && Goes(env, used, v, a, m) && p == Begins(env, v, a, m)
    requires u == Exec(PrepareOpsOf(env, v, a, m), v) && mark == MarkOpsOf(env, v, a, m)
    ensures Midway(env, v, a, m) == Exec(mark, u)
    ensures SafeRun(SiteOf(env, Just(p)), used + UsedBy(env, a.token), mark, u)
    ensures Begun(SiteOf(env, Just(p)), used + UsedBy(env, a.token), Midway(env, v, a, m), p)
  {
    RestorePoised(env, used, v, a, m, p);
    OpsSplit(env, v, a, m);
    MarkSafe(SiteOf(env, Just(p)), used + UsedBy(env, a.token), u, p, FirstMarker(env, v, a, m),
             SecondMarker(env, v, a, m));
  }

  lemma BegunHere(env: Env, used: set<string>, v: Vol, a: RestoreArgs, m: Manifest, p: Pend, j: Journal)
    requires EnvOk(env) && Goes(env, used, v, a, m) && p == Begins(env, v, a, m) && j == JournalFor(env, v, a, m)
    ensures Begun(SiteOf(env, Just(p)), used + UsedBy(env, a.token), Midway(env, v, a, m), p) && Wrote(env, p, j)
  {
    BeginsWrote(env, used, v, a, m);
    RestoreBegun(env, used, v, a, m, p, Exec(PrepareOpsOf(env, v, a, m), v), MarkOpsOf(env, v, a, m));
  }

  /** The markers and what follows them, as one list: safe, and leading to the end if nothing is in the way. */
  lemma FromMarksSafe(env: Env, used: set<string>, v: Vol, a: RestoreArgs, m: Manifest, p: Pend, j: Journal, u: Vol,
                      w: Vol, rest: seq<Op<string, Content>>)
    requires EnvOk(env) && Goes(env, used, v, a, m) && p == Begins(env, v, a, m) && j == JournalFor(env, v, a, m)
    requires u == Exec(PrepareOpsOf(env, v, a, m), v) && w == Midway(env, v, a, m)
    requires rest == PlannedOps(env, w, Rest(a))
    ensures SafeRun(SiteOf(env, Just(p)), used + UsedBy(env, a.token), MarkOpsOf(env, v, a, m) + rest, u)
    ensures Readable(env, j) && Recognizes(w, j) && a.rest.anchored ==>
              Outcome(SiteOf(env, Just(p)), used + UsedBy(env, a.token), Exec(MarkOpsOf(env, v, a, m) + rest, u), p,
                      a.rest.inspected)
  {
    BeginsWrote(env, used, v, a, m);
    RestoreBegun(env, used, v, a, m, p, u, MarkOpsOf(env, v, a, m));
    ThenSafe(env, Just(p), used + UsedBy(env, a.token), u, MarkOpsOf(env, v, a, m), w, p, j, Rest(a), rest);
  }

  /** From its first marker on, wherever a restore is cut short, its own recovery is the one that is pending. */
  lemma HeldFromMarks(env: Env, used: set<string>, v: Vol, a: RestoreArgs, m: Manifest, cut: nat, p: Pend)
    requires EnvOk(env) && Goes(env, used, v, a, m)
    requires p == Begins(env, v, a, m) && cut >= |PrepareOpsOf(env, v, a, m)|
    ensures Good(SiteOf(env, Just(p)), used + UsedBy(env, a.token), RestoreWith(env, v, a, m, cut))
  {
    var prepare, w := PrepareOpsOf(env, v, a, m), Midway(env, v, a, m);
    FromMarksSafe(env, used, v, a, m, p, JournalFor(env, v, a, m), Exec(prepare, v), w, PlannedOps(env, w, Rest(a)));
    RestoreSplit(env, v, a, m);
    CutLater(SiteOf(env, Just(p)), used + UsedBy(env, a.token), prepare,
             MarkOpsOf(env, v, a, m) + PlannedOps(env, w, Rest(a)), v, cut);
  }

  lemma CutLater(site: Site<string, Content>, used: set<string>, first: seq<Op<string, Content>>,
                 second: seq<Op<string, Content>>, v: Vol, cut: nat)
    requires SafeRun(site, used, second, Exec(first, v)) && cut >= |first|
    ensures Good(site, used, Exec(Cut(first + second, cut), v))
  {
    var n := cut - |first|;
    CutSafe(site, used, second, Exec(first, v), n);
    ReachedSecond(v, first, second, n, cut, Exec(first, v), Exec(Cut(second, n), Exec(first, v)));
  }

  // ---------------------------------------------------------------------------------------------
  // What a restore leaves alone

  /** Up to its markers a restore changes no file that was there, and syncs none. */
  lemma FileStays(env: Env, used: set<string>, v: Vol, a: RestoreArgs, m: Manifest, x: Ino)
    requires Applicable(env, a, m) && FreshNames(env, used, v, a) && x in v.nodes
    ensures AvoidsAll(BeginOpsOf(env, v, a, m), v, x, true)
    ensures var w := Midway(env, v, a, m); x in w.nodes && w.nodes[x] == v.nodes[x] && (x in v.dirty ==> x in w.dirty)
  {
    var doc, files, ops := Encode(JournalFor(env, v, a, m)), CopyFiles(env, a, m), BeginOpsOf(env, v, a, m);
    assert forall k :: 0 <= k < |files| ==> files[k].ino == a.copies[k].ino;
    BeginAvoids(RootOf(env), FileDirs(env), files, MarkerFile(env, env.m0, a.t0, doc),
                MarkerFile(env, env.m1, a.t1, doc), v, x);
    Avoided(ops, v, x, true, |ops|);
  }

  /** The identities in the journal are still those of the targets when both markers stand, so it does
      not matter when in between they were read. */
  lemma IdentitiesStay(env: Env, used: set<string>, v: Vol, a: RestoreArgs, m: Manifest, i: nat)
    requires EnvOk(env) && Goes(env, used, v, a, m) && i < |env.files|
    ensures OriginalAt(Midway(env, v, a, m), Target(env.data, env.files[i])) == Originals(env, v)[i]
  {
    var p, w := Begins(env, v, a, m), Midway(env, v, a, m);
    var s := SlotOf(env, v, a, i);
    BegunHere(env, used, v, a, m, p, JournalFor(env, v, a, m));
    ReadySlot(w, p, i);
    if s.original.Some? {
      OriginalNode(env, used, v, a, m, i);
      FileStays(env, used, v, a, m, s.original.value);
    }
  }

  /** What the journal of a restore says: the checkpoint, its manifest, the token, and for every file its names and the
      identity of what was at the target. */
  ghost predicate Tells(env: Env, v: Vol, a: RestoreArgs, m: Manifest, e: Json) {
    && e.Obj? && Get(e, "format") == Int(2) && Get(e, "token") == Str(a.token) && Get(e, "data_dir") == Str(env.data)
    && Get(e, "checkpoint") == Str(a.checkpoint) && DecodeManifest(env.files, Get(e, "manifest")) == Some(m)
    && Get(e, "changes").List? && |Get(e, "changes").items| == |env.files|
    && forall i :: 0 <= i < |env.files| ==>
         Spells(Get(e, "changes").items[i], ChangeFor(env.data, env.files[i], a.token, OriginalAt(v, TargetAt(env, i))))
  }

  lemma JournalTells(env: Env, v: Vol, a: RestoreArgs, m: Manifest)
    requires ManifestOk(env.files, m)
    ensures Tells(env, v, a, m, Encode(JournalFor(env, v, a, m)))
  {
    var j := JournalFor(env, v, a, m);
    JournalParts(j);
    ManifestRoundTrip(env.files, m);
    var items := Get(Encode(j), "changes").items;
    forall i | 0 <= i < |env.files|
      ensures Spells(items[i], ChangeFor(env.data, env.files[i], a.token, OriginalAt(v, TargetAt(env, i))))
    {
      AgreesItself(items[i]);
      ChangeParts(j.changes[i]);
    }
  }

  lemma MarkersHold(env: Env, ours: Scope, used: set<string>, w: Vol, p: Pend, j: Journal, x: string)
    requires Begun(SiteOf(env, ours), used, w, p) && Wrote(env, p, j) && x in RootOf(env).Marks()
    ensures Holding(w, env.data, x, Encode(j))
  {
    LiveAgree(w, RootOf(env), p);
  }

  /** The name leads to a finished file that holds this document. */
  ghost predicate Holding(w: Vol, d: string, x: string, e: Json) {
    var l := w.Live(d);
    x in l && l[x] in w.nodes && l[x] !in w.dirty && w.nodes[l[x]].content.Doc? && w.nodes[l[x]].content.value == e
  }

  /** Both markers hold it when they stand. */
  lemma MarkersTell(env: Env, used: set<string>, v: Vol, a: RestoreArgs, m: Manifest, x: string) returns (e: Json)
    requires EnvOk(env) && Goes(env, used, v, a, m) && x in RootOf(env).Marks()
    ensures Holding(Midway(env, v, a, m), env.data, x, e) && Tells(env, v, a, m, e)
  {
    var p, j := Begins(env, v, a, m), JournalFor(env, v, a, m);
    BegunHere(env, used, v, a, m, p, j);
    MarkersHold(env, Just(p), used + UsedBy(env, a.token), Midway(env, v, a, m), p, j, x);
    JournalTells(env, v, a, m);
    e := Encode(j);
  }

  lemma ReadySlot(v: Vol, p: Pend, i: nat)
    requires AllAlways(v, p.slots, {Ready}) && i < |p.slots|
    ensures In(p.slots[i], v.Live(p.slots[i].names.dir), Ready)
  {
    assert Always(v, p.slots[i], {Ready});
    AlwaysLive(v, p.slots[i], {Ready});
  }

  lemma RecognizedThere(env: Env, used: set<string>, v: Vol, a: RestoreArgs, m: Manifest)
    requires EnvOk(env) && Goes(env, used, v, a, m)
    ensures Recognizes(Midway(env, v, a, m), JournalFor(env, v, a, m))
  {
    var j, w := JournalFor(env, v, a, m), Midway(env, v, a, m);
    forall i | 0 <= i < |j.changes| ensures Recognized(w, j.changes[i]) {
      if SlotOf(env, v, a, i).original.Some? {
        OriginalNode(env, used, v, a, m, i);
        FileStays(env, used, v, a, m, SlotOf(env, v, a, i).original.value);
      }
    }
  }

  /** A resume changes no file that was there, wherever it is cut short. */
  lemma ResumeAvoidsFile(env: Env, used: set<string>, v: Vol, a: ResumeArgs, x: Ino)
    requires TempsOk(env, used, v, a.t0, a.t1) && x in v.nodes
    ensures AvoidsAll(PlannedOps(env, v, a), v, x, false)
  {
    var p, root := MakePlan(env, v), RootOf(env);
    if p.Planned? && a.apply && a.anchored {
      ResumeAvoids(root, v.Live(env.data), MarkerFile(env, root.m0, a.t0, p.doc), MarkerFile(env, root.m1, a.t1, p.doc),
                   TracksOf(p.journal), p.phases, a.inspected, v, x);
    }
  }

  lemma ResumeKeepsFile(env: Env, used: set<string>, v: Vol, a: ResumeArgs, cut: nat, x: Ino)
    requires TempsOk(env, used, v, a.t0, a.t1) && x in v.nodes
    ensures var w := Resume(env, v, a, cut); x in w.nodes && w.nodes[x] == v.nodes[x]
  {
    ResumeAvoidsFile(env, used, v, a, x);
    Avoided(PlannedOps(env, v, a), v, x, false, cut);
  }

  /** Nor does a restore. */
  lemma RestoreKeepsFile(env: Env, used: set<string>, v: Vol, a: RestoreArgs, m: Manifest, cut: nat, x: Ino)
    requires Goes(env, used, v, a, m) && x in v.nodes
    ensures var w := RestoreWith(env, v, a, m, cut); x in w.nodes && w.nodes[x] == v.nodes[x]
  {
    var w, ops := Midway(env, v, a, m), BeginOpsOf(env, v, a, m);
    FileStays(env, used, v, a, m, x);
    WeakerAvoids(ops, v, x);
    ResumeAvoidsFile(env, used + UsedBy(env, a.token), w, Rest(a), x);
    AvoidsConcat(ops, PlannedOps(env, w, Rest(a)), v, x, false);
    Avoided(RestoreOps(env, v, a, m), v, x, false, cut);
  }

  // ---------------------------------------------------------------------------------------------
  // A restore that is not cut short

  /** A restore that goes ahead, is not cut short and meets no objection completes its recovery, if the
      journal it wrote can be read back. */
  lemma RestoreCompletes(env: Env, used: set<string>, v: Vol, a: RestoreArgs, m: Manifest, cut: nat, p: Pend)
    requires EnvOk(env) && Goes(env, used, v, a, m) && p == Begins(env, v, a, m)
    requires Readable(env, JournalFor(env, v, a, m)) && a.rest.anchored && a.rest.inspected
    requires cut >= |RestoreOps(env, v, a, m)|
    ensures Completed(SiteOf(env, Just(p)), RestoreWith(env, v, a, m, cut), p)
  {
    var prepare, w := PrepareOpsOf(env, v, a, m), Midway(env, v, a, m);
    var last := MarkOpsOf(env, v, a, m) + PlannedOps(env, w, Rest(a));
    RecognizedThere(env, used, v, a, m);
    FromMarksSafe(env, used, v, a, m, p, JournalFor(env, v, a, m), Exec(prepare, v), w, PlannedOps(env, w, Rest(a)));
    RestoreSplit(env, v, a, m);
    ExecConcat(prepare, last, v);
  }

  /** What `resume` makes of a recovery with a marker. */
  lemma PlannedIff(env: Env, w: Vol, p: Pend, j: Journal)
    requires Active(w, RootOf(env), p) && Wrote(env, p, j) && Marked(RootOf(env), w.Live(env.data))
    ensures MakePlan(env, w).Planned? <==> Readable(env, j) && Recognizes(w, j)
  {
    var phases := TruePhases(w, RootOf(env), p);
    PlanExact(env, w, p, j, phases);
  }

  lemma StuckAt(env: Env, ours: Scope, used: set<string>, w: Vol, p: Pend, j: Journal, r: ResumeArgs)
    requires Begun(SiteOf(env, ours), used, w, p) && Wrote(env, p, j) && !Readable(env, j)
    ensures BothLive(w, RootOf(env)) && MakePlan(env, w).Declined? && PlannedOps(env, w, r) == []
  {
    PlannedIff(env, w, p, j);
  }

  lemma StuckAfter(env: Env, ours: Scope, used: set<string>, v: Vol, ops: seq<Op<string, Content>>, w: Vol, p: Pend,
                   j: Journal, r: ResumeArgs, cut: nat, rest: seq<Op<string, Content>>, q: ResumeArgs, n: nat)
    requires w == Exec(ops, v) && Begun(SiteOf(env, ours), used, w, p) && Wrote(env, p, j) && !Readable(env, j)
    requires cut >= |ops|
    requires rest == PlannedOps(env, w, r)
    ensures Exec(Cut(ops + rest, cut), v) == w && BothLive(w, RootOf(env)) && MakePlan(env, w).Declined?
    ensures Resume(env, w, q, n) == w
  {
    StuckAt(env, ours, used, w, p, j, r);
    StuckAt(env, ours, used, w, p, j, q);
    assert ops + rest == ops;
  }

  /** If the journal cannot be read back, the restore stops right after publishing it, and no resume ever
      gets past it. */
  lemma UnreadableIsStuck(env: Env, used: set<string>, v: Vol, a: RestoreArgs, m: Manifest, cut: nat, r: ResumeArgs,
                          n: nat)
    requires EnvOk(env) && Goes(env, used, v, a, m)
    requires !Readable(env, JournalFor(env, v, a, m)) && cut >= |BeginOpsOf(env, v, a, m)|
    ensures var w := Midway(env, v, a, m);
            RestoreWith(env, v, a, m, cut) == w && BothLive(w, RootOf(env)) && MakePlan(env, w).Declined?
                && Resume(env, w, r, n) == w
  {
    var w, p, j := Midway(env, v, a, m), Begins(env, v, a, m), JournalFor(env, v, a, m);
    BegunHere(env, used, v, a, m, p, j);
    StuckAfter(env, Just(p), used + UsedBy(env, a.token), v, BeginOpsOf(env, v, a, m), w, p, j, Rest(a), cut,
               PlannedOps(env, w, Rest(a)), r, n);
  }

  /** So an uninterrupted restore to which nobody objects completes exactly if its journal is at most
      16 MiB long when printed and records no negative number, whatever there was before it. */
  lemma RestoreFinishesIff(env: Env, used: set<string>, v: Vol, a: RestoreArgs, m: Manifest, cut: nat, p: Pend)
    requires EnvOk(env) && Goes(env, used, v, a, m) && p == Begins(env, v, a, m)
    requires a.rest.anchored && a.rest.inspected && cut >= |RestoreOps(env, v, a, m)|
    ensures Completed(SiteOf(env, Just(p)), RestoreWith(env, v, a, m, cut), p) <==>
              Readable(env, JournalFor(env, v, a, m))
  {
    if Readable(env, JournalFor(env, v, a, m)) {
      RestoreCompletes(env, used, v, a, m, cut, p);
    } else {
      UnreadableIsStuck(env, used, v, a, m, cut, Rest(a), 0);
      NotCompleted(env, Just(p), Midway(env, v, a, m), p);
    }
  }

  lemma NotCompleted(env: Env, ours: Scope, w: Vol, p: Pend)
    requires BothLive(w, RootOf(env))
    ensures !Completed(SiteOf(env, ours), w, p)
  {
    if Unmarked(w, RootOf(env)) { UnmarkedLive(w, RootOf(env)); }
  }
}
