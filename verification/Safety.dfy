/** The tool's decisions are right, and so its runs keep the invariant. */
module Safety {
  import opened Volumes
  import opened Recoveries
  import opened Protocol
  import opened Swapping
  import opened Staging
  import opened SparseFile
  import opened Json
  import opened Manifests
  import opened Paths
  import opened Journals
  import opened Tool

  type Pend = Pending<string, Content>

  type Scope = Option<Pend> -> bool

  // ---------------------------------------------------------------------------------------------
  // The tool's own recoveries

  function TargetAt(env: Env, i: nat): string
    requires i < |env.files|
  {
    Target(env.data, env.files[i])
  }

  function SpotAt(env: Env, i: nat): Spot<string>
    requires i < |env.files|
  {
    Spot(Parent(TargetAt(env, i)), TargetAt(env, i))
  }

  /** The tool's place of work, with the recoveries of interest. */
  function SiteOf(env: Env, ours: Scope): Site<string, Content> {
    Site(RootOf(env), seq(|env.files|, i requires 0 <= i < |env.files| => SpotAt(env, i)), ours)
  }

  lemma SiteIsOk(env: Env, ours: Scope)
    requires EnvOk(env)
    ensures SiteOk(SiteOf(env, ours))
  {
    MarkersApart(env, "", "");
    forall i | 0 <= i < |env.files| ensures SpotAt(env, i).dir != env.data {
      ParentBelow(env.data + "/", env.files[i]);
    }
  }

  /** The slot is the one this journal entry describes, and its copy has passed verification. */
  ghost predicate SlotFor(env: Env, p: Pend, s: Slot<string>, c: Change, rec: Record) {
    && s.names == NamesOf(c) && s.copy in p.fixed
    && p.fixed[s.copy].content.Bytes? && Matches(p.fixed[s.copy].content.data, rec, env.sha)
    && (if s.original.Some?
        then c.original.Some? && c.original.value.inode == s.original.value
            && (s.original.value in p.fixed
                ==> c.original.value == FingerprintOf(s.original.value, p.fixed[s.original.value]))
        else c.original.None?)
  }

  /** The recovery is what this journal, written by `restore`, says. */
  ghost predicate Wrote(env: Env, p: Pend, j: Journal) {
    && IsHex(j.token, 32) && ManifestOk(env.files, j.manifest) && |p.slots| == |j.changes| == |env.files|
       && j.dataDir == env.data
    && (forall i :: 0 <= i < |env.files| ==>
          j.changes[i] == ChangeFor(env.data, env.files[i], j.token, j.changes[i].original))
    && p.doc == Doc(Encode(j), env.printed(Encode(j)))
    && (forall i :: 0 <= i < |env.files| ==> SlotFor(env, p, p.slots[i], j.changes[i], j.manifest.files[env.files[i]]))
  }

  ghost predicate Own(env: Env, p: Pend) {
    exists j :: Wrote(env, p, j)
  }

  /** The journal can be read back: it is not too long, and no recorded identity is negative. */
  predicate Readable(env: Env, j: Journal) {
    env.printed(Encode(j)) <= MAX_METADATA && forall i :: 0 <= i < |j.changes| ==> NonNegative(j.changes[i].original)
  }

  // ---------------------------------------------------------------------------------------------
  // The phase test is exact

  /** The original, if one is recorded, still has the identity it had. */
  predicate Recognized(v: Vol, c: Change) {
    c.original.Some? ==>
      c.original.value.inode >= 0 && Identified(v, c.original.value.inode, c.original.value)
  }

  predicate Recognizes(v: Vol, j: Journal) {
    forall i :: 0 <= i < |j.changes| ==> Recognized(v, j.changes[i])
  }

  /** The phase test finds the true phase, exactly if the original is recognized. */
  lemma TestPhaseExact(env: Env, v: Vol, p: Pend, s: Slot<string>, c: Change, rec: Record, ph: Phase)
    requires SlotFor(env, p, s, c, rec) && Fixed(v, p.fixed) && In(s, v.Live(s.names.dir), ph)
    ensures TestPhase(env, v, c, rec) == if Recognized(v, c) then Some(ph) else None
  {
    var l := v.Live(Parent(c.target));
    match ph {
      case Ready =>
        assert Verified(env, v, l[c.staged], rec);
      case Saved =>
        assert Verified(env, v, l[c.staged], rec);
      case Installed =>
        assert Verified(env, v, l[c.target], rec);
    }
  }

  /** The phases the slots of an active recovery are really in. */
  lemma TruePhases(v: Vol, root: Root<string>, p: Pend) returns (phases: seq<Phase>)
    requires Active(v, root, p)
    ensures Seen(v, p.slots, phases, 0)
  {
    phases := [];
    while |phases| < |p.slots|
      invariant |phases| <= |p.slots|
      invariant forall j :: 0 <= j < |phases| ==> In(p.slots[j], v.Live(p.slots[j].names.dir), phases[j])
    {
      var s := p.slots[|phases|];
      assert Always(v, s, AnyPhase());
      AlwaysLive(v, s, AnyPhase());
      var ph :| ph in AnyPhase() && In(s, v.Live(s.names.dir), ph);
      phases := phases + [ph];
    }
  }

  lemma PhasesExact(env: Env, v: Vol, p: Pend, j: Journal, phases: seq<Phase>)
    requires Wrote(env, p, j) && Fixed(v, p.fixed) && Seen(v, p.slots, phases, 0)
    ensures HasRecords(env, j)
    ensures forall i :: 0 <= i < |env.files| ==>
              PhaseAt(env, v, j, i) == if Recognized(v, j.changes[i]) then Some(phases[i]) else None
  {
    forall i | 0 <= i < |env.files|
      ensures env.files[i] in j.manifest.files
      ensures TestPhase(env, v, j.changes[i], j.manifest.files[env.files[i]])
           == if Recognized(v, j.changes[i]) then Some(phases[i]) else None
    {
      assert SlotFor(env, p, p.slots[i], j.changes[i], j.manifest.files[env.files[i]]);
      TestPhaseExact(env, v, p, p.slots[i], j.changes[i], j.manifest.files[env.files[i]], phases[i]);
    }
  }

  ghost function OriginalsOf(j: Journal): (r: seq<Option<Fingerprint>>)
    ensures |r| == |j.changes| && forall i :: 0 <= i < |r| ==> r[i] == j.changes[i].original
  {
    seq(|j.changes|, i requires 0 <= i < |j.changes| => j.changes[i].original)
  }

  lemma Rebuilt(env: Env, p: Pend, j: Journal)
    requires Wrote(env, p, j)
    ensures Build(env.data, env.files, j.token, j.checkpoint, j.manifest, OriginalsOf(j)) == j
  {
    assert Build(env.data, env.files, j.token, j.checkpoint, j.manifest, OriginalsOf(j)).changes == j.changes;
  }

  lemma WroteReadsBack(env: Env, p: Pend, j: Journal)
    requires Wrote(env, p, j)
    ensures RecoveryEntries(env.data, env.files, Encode(j))
         == if forall i :: 0 <= i < |j.changes| ==> NonNegative(j.changes[i].original) then Some(j) else None
  {
    Rebuilt(env, p, j);
    JournalRoundTrip(env.data, env.files, j.token, j.checkpoint, j.manifest, OriginalsOf(j));
  }

  /** Markers that hold the journal read as it, unless it is too long. */
  lemma PresentReads(env: Env, v: Vol, p: Pend, j: Journal)
    requires Agree(v, v.Live(env.data), RootOf(env).Marks(), p.doc) && Wrote(env, p, j)
    ensures forall i :: 0 <= i < |Present(env, v)| ==>
              ReadDoc(v, Present(env, v)[i]) == if env.printed(Encode(j)) <= MAX_METADATA then Some(Encode(j)) else None
    ensures Present(env, v) == [] <==> !Marked(RootOf(env), v.Live(env.data))
  {
  }

  /** Markers that all read the same leave the decision to the journal. */
  lemma PlanReads(env: Env, v: Vol, doc: Option<Json>)
    requires Present(env, v) != []
    requires forall i :: 0 <= i < |Present(env, v)| ==> ReadDoc(v, Present(env, v)[i]) == doc
    ensures MakePlan(env, v) == if doc.Some? then PlanFor(env, v, doc.value) else Declined(Unreadable)
  {
    var ms := Present(env, v);
    assert ReadDoc(v, ms[0]) == doc && ReadDoc(v, ms[|ms| - 1]) == doc;
  }

  lemma PlanWithExact(env: Env, v: Vol, doc: Json, j: Journal, phases: seq<Phase>)
    requires HasRecords(env, j) && |phases| == |env.files|
    requires forall i :: 0 <= i < |env.files| ==> PhaseAt(env, v, j, i) == Some(phases[i])
    ensures PlanWith(env, v, doc, Some(j)) == Planned(doc, j, phases)
  {
    GatherAll(Tests(env, v, j), phases);
  }

  /** One file that fails its check is enough. */
  lemma BadFile(env: Env, v: Vol, doc: Json, j: Journal, i: nat)
    requires HasRecords(env, j) && i < |env.files| && PhaseAt(env, v, j, i).None?
    ensures PlanWith(env, v, doc, Some(j)) == Declined(FileCheck)
  {
    GatherNone(Tests(env, v, j), i);
  }

  lemma BadPlan(env: Env, v: Vol, doc: Json, j: Journal, i: nat)
    requires RecoveryEntries(env.data, env.files, doc) == Some(j) && i < |env.files| && PhaseAt(env, v, j, i).None?
    ensures PlanFor(env, v, doc) == Declined(FileCheck)
  {
    BadFile(env, v, doc, j, i);
  }

  /** What `resume` makes of a pending recovery whose files are in these phases. */
  function TruePlan(env: Env, v: Vol, j: Journal, phases: seq<Phase>): Plan {
    if env.printed(Encode(j)) > MAX_METADATA then Declined(Unreadable)
    else if !Readable(env, j) then Declined(InvalidJournal)
    else if !Recognizes(v, j) then Declined(FileCheck)
    else Planned(Encode(j), j, phases)
  }

  lemma ReadablePlan(env: Env, v: Vol, p: Pend, j: Journal, phases: seq<Phase>)
    requires Wrote(env, p, j) && Fixed(v, p.fixed) && Seen(v, p.slots, phases, 0) && HasRecords(env, j)
    ensures PlanWith(env, v, Encode(j), Some(j))
         == if Recognizes(v, j) then Planned(Encode(j), j, phases) else Declined(FileCheck)
  {
    PhasesExact(env, v, p, j, phases);
    if Recognizes(v, j) {
      PlanWithExact(env, v, Encode(j), j, phases);
    } else {
      var i :| 0 <= i < |j.changes| && !Recognized(v, j.changes[i]);
      BadFile(env, v, Encode(j), j, i);
    }
  }

  /** `resume` finds the true phase of every file. It refuses only a journal that is too long or records a
      negative number, and an original that has changed. */
  lemma PlanExact(env: Env, v: Vol, p: Pend, j: Journal, phases: seq<Phase>)
    requires Active(v, RootOf(env), p) && Marked(RootOf(env), v.Live(env.data))
    requires Wrote(env, p, j) && Seen(v, p.slots, phases, 0)
    ensures MakePlan(env, v) == TruePlan(env, v, j, phases)
  {
    LiveAgree(v, RootOf(env), p);
    var doc := if env.printed(Encode(j)) <= MAX_METADATA then Some(Encode(j)) else None;
    PresentReads(env, v, p, j);
    PlanReads(env, v, doc);
    PlanForExact(env, v, p, j, phases);
  }

  lemma PlanForExact(env: Env, v: Vol, p: Pend, j: Journal, phases: seq<Phase>)
    requires Wrote(env, p, j) && Fixed(v, p.fixed) && Seen(v, p.slots, phases, 0)
    ensures env.printed(Encode(j)) <= MAX_METADATA ==> PlanFor(env, v, Encode(j)) == TruePlan(env, v, j, phases)
  {
    WroteReadsBack(env, p, j);
    HasRecordsHere(env, p, j);
    ReadablePlan(env, v, p, j, phases);
  }

  lemma HasRecordsHere(env: Env, p: Pend, j: Journal)
    requires Wrote(env, p, j)
    ensures HasRecords(env, j)
  {
  }

  lemma LiveAgree(v: Vol, root: Root<string>, p: Pend)
    requires MarkersAgree(v, root, p.doc)
    ensures Agree(v, v.Live(root.dir), root.Marks(), p.doc)
  {
    var d := v.Dir(root.dir);
    assert Agree(v, d.View(|d.queue|), root.Marks(), p.doc);
  }

  // ---------------------------------------------------------------------------------------------
  // resume

  /** A temporary name and an inode that nobody has. */
  ghost predicate TempOk(env: Env, used: set<string>, v: Vol, m: string, t: Temp) {
    var path := m + ".writing-" + t.suffix;
    IsHex(t.suffix, 32) && path !in v.Live(env.data) && path !in used && t.ino !in v.nodes
  }

  ghost predicate TempsOk(env: Env, used: set<string>, v: Vol, t0: Temp, t1: Temp) {
    TempOk(env, used, v, RootOf(env).m0, t0) && TempOk(env, used, v, RootOf(env).m1, t1) && t0.ino != t1.ino
  }

  /** Names that end like a token are neither markers nor targets. */
  lemma HexIsForeign(env: Env, ours: Scope, used: set<string>, path: string)
    requires EnvOk(env) && EndsInHex(path) && path !in used
    ensures Foreign(SiteOf(env, ours), used, path)
  {
    forall i | 0 <= i < |env.files| ensures SpotAt(env, i).path != path {
      TargetEnds(env.data, env.files[i]);
    }
  }

  lemma TempUsable(env: Env, ours: Scope, used: set<string>, v: Vol, t0: Temp, t1: Temp, doc: Json)
    requires EnvOk(env) && TempsOk(env, used, v, t0, t1)
    ensures var root := RootOf(env);
            Usable(SiteOf(env, ours), used, v, MarkerFile(env, root.m0, t0, doc), MarkerFile(env, root.m1, t1, doc))
  {
    var root := RootOf(env);
    TokenEnds(root.m0, ".writing-", t0.suffix);
    TokenEnds(root.m1, ".writing-", t1.suffix);
    HexIsForeign(env, ours, used, root.m0 + ".writing-" + t0.suffix);
    HexIsForeign(env, ours, used, root.m1 + ".writing-" + t1.suffix);
    MarkersApart(env, ".writing-" + t0.suffix, ".writing-" + t1.suffix);
    assert root.m0 + ".writing-" + t0.suffix == root.m0 + (".writing-" + t0.suffix);
    assert root.m1 + ".writing-" + t1.suffix == root.m1 + (".writing-" + t1.suffix);
  }

  lemma SameTracks(env: Env, p: Pend, j: Journal)
    requires Wrote(env, p, j)
    ensures TracksOf(j) == Tracks(p.slots)
  {
    forall i | 0 <= i < |j.changes| ensures TracksOf(j)[i] == Tracks(p.slots)[i] {
      assert SlotFor(env, p, p.slots[i], j.changes[i], j.manifest.files[env.files[i]]);
    }
  }

  /** With a readable journal and every answer positive, these are the operations. */
  lemma PlannedOpsAre(env: Env, v: Vol, p: Pend, j: Journal, phases: seq<Phase>, a: ResumeArgs)
    requires Active(v, RootOf(env), p) && Wrote(env, p, j) && Seen(v, p.slots, phases, 0)
    requires Marked(RootOf(env), v.Live(env.data))
    ensures var root := RootOf(env);
            PlannedOps(env, v, a) ==
            if Readable(env, j) && Recognizes(v, j) && a.apply && a.anchored then
              ResumeOps(root, v.Live(env.data), MarkerFile(env, root.m0, a.t0, Encode(j)),
                        MarkerFile(env, root.m1, a.t1, Encode(j)),
                        Tracks(p.slots), phases, a.inspected)
            else []
  {
    PlanExact(env, v, p, j, phases);
    SameTracks(env, p, j);
  }

  lemma ResumeOpsSafe1(env: Env, ours: Scope, used: set<string>, v: Vol, p: Pend, j: Journal, phases: seq<Phase>,
                       a: ResumeArgs)
    requires EnvOk(env) && Kept(SiteOf(env, ours), used, v, p) && Wrote(env, p, j) && TempsOk(env, used, v, a.t0, a.t1)
    requires Seen(v, p.slots, phases, 0) && Marked(RootOf(env), v.Live(env.data))
    ensures var root := RootOf(env);
            var ops :=
                ResumeOps(root, v.Live(env.data), MarkerFile(env, root.m0, a.t0, Encode(j)),
                          MarkerFile(env, root.m1, a.t1, Encode(j)),
                                 Tracks(p.slots), phases, a.inspected);
            SafeRun(SiteOf(env, ours), used, ops, v) && Outcome(SiteOf(env, ours), used, Exec(ops, v), p, a.inspected)
  {
    var root := RootOf(env);
    SiteIsOk(env, ours);
    TempUsable(env, ours, used, v, a.t0, a.t1, Encode(j));
    ResumeSafe(SiteOf(env, ours), used, v, p, MarkerFile(env, root.m0, a.t0, Encode(j)),
               MarkerFile(env, root.m1, a.t1, Encode(j)), phases, a.inspected);
  }

  /** The operations `resume` decides on are safe, and if it goes ahead and is not cut short, it finishes. */
  lemma ResumeOpsSafe(env: Env, ours: Scope, used: set<string>, v: Vol, p: Pend, j: Journal, a: ResumeArgs)
    requires EnvOk(env) && Kept(SiteOf(env, ours), used, v, p) && Wrote(env, p, j) && TempsOk(env, used, v, a.t0, a.t1)
    ensures SafeRun(SiteOf(env, ours), used, PlannedOps(env, v, a), v)
    ensures Marked(RootOf(env), v.Live(env.data)) && Readable(env, j) && Recognizes(v, j) && a.apply && a.anchored ==>
              Outcome(SiteOf(env, ours), used, Exec(PlannedOps(env, v, a), v), p, a.inspected)
  {
    assert GoodWith(SiteOf(env, ours), used, v, Some(p));
    if Marked(RootOf(env), v.Live(env.data)) {
      var phases := TruePhases(v, RootOf(env), p);
      PlannedOpsAre(env, v, p, j, phases, a);
      ResumeOpsSafe1(env, ours, used, v, p, j, phases, a);
    } else {
      NothingPending(env, v, a);
    }
  }

  lemma CutSafe(site: Site<string, Content>, used: set<string>, ops: seq<Op<string, Content>>, v: Vol, cut: nat)
    requires SafeRun(site, used, ops, v)
    ensures Good(site, used, Exec(Cut(ops, cut), v))
  {
    SafePrefix(site, used, ops, v, if cut < |ops| then cut else |ops|);
    assert ops[..|ops|] == ops;
  }

  /** Without a marker, `resume` refuses. */
  lemma NothingPending(env: Env, v: Vol, a: ResumeArgs)
    requires !Marked(RootOf(env), v.Live(env.data))
    ensures Present(env, v) == [] && MakePlan(env, v) == Declined(NoPending) && PlannedOps(env, v, a) == []
  {
  }

  lemma UnmarkedLive(v: Vol, root: Root<string>)
    requires Unmarked(v, root)
    ensures !Marked(root, v.Live(root.dir))
  {
    var d := v.Dir(root.dir);
    assert !Marked(root, d.View(|d.queue|));
  }

  /** A resume, wherever it is cut short, keeps the invariant. */
  lemma ResumeGood(env: Env, ours: Scope, used: set<string>, v: Vol, a: ResumeArgs, cut: nat)
    requires EnvOk(env) && (forall p :: ours(Some(p)) ==> Own(env, p))
    requires Good(SiteOf(env, ours), used, v) && TempsOk(env, used, v, a.t0, a.t1)
    ensures Good(SiteOf(env, ours), used, Resume(env, v, a, cut))
  {
    var site := SiteOf(env, ours);
    var o :| GoodWith(site, used, v, o);
    if o.None? {
      UnmarkedLive(v, RootOf(env));
      NothingPending(env, v, a);
    } else {
      var j :| Wrote(env, o.value, j);
      ResumeOpsSafe(env, ours, used, v, o.value, j, a);
      CutSafe(site, used, PlannedOps(env, v, a), v, cut);
    }
  }

  // ---------------------------------------------------------------------------------------------
  // restore

  /** The names a restore with this token makes up. */
  function UsedBy(env: Env, token: string): set<string> {
    (set i | 0 <= i < |env.files| :: Staged(env.data, env.files[i], token))
    + (set i | 0 <= i < |env.files| :: Backup(env.data, env.files[i], token))
  }

  function InoAt(v: Vol, path: string): Option<Ino> {
    var l := v.Live(Parent(path));
    if path in l then Some(l[path]) else None
  }

  function SlotOf(env: Env, v: Vol, a: RestoreArgs, i: nat): Slot<string>
    requires i < |env.files| == |a.copies|
  {
    var f := env.files[i];
    Slot(NamesOf(ChangeFor(env.data, f, a.token, None)), InoAt(v, Target(env.data, f)), a.copies[i].ino)
  }

  function SlotsOf(env: Env, v: Vol, a: RestoreArgs): (r: seq<Slot<string>>)
    requires |env.files| == |a.copies|
    ensures |r| == |env.files| && forall i :: 0 <= i < |r| ==> r[i] == SlotOf(env, v, a, i)
  {
    seq(|env.files|, i requires 0 <= i < |env.files| => SlotOf(env, v, a, i))
  }

  ghost predicate IsCopy(a: RestoreArgs, x: Ino, i: nat) {
    i < |a.copies| && a.copies[i].ino == x
  }

  ghost function FixedNode(env: Env, v: Vol, a: RestoreArgs, m: Manifest, x: Ino): Node<Content>
    requires Applicable(env, a, m)
    requires x in v.nodes || exists i :: IsCopy(a, x, i)
  {
    if x in v.nodes then v.nodes[x] else var i :| IsCopy(a, x, i); CopyFile(env, a, i).full
  }

  ghost function FixedKeys(env: Env, v: Vol, a: RestoreArgs): set<Ino>
    requires |a.copies| == |env.files|
  {
    (set i | 0 <= i < |env.files| :: a.copies[i].ino)
    + (set i | 0 <= i < |env.files| && SlotOf(env, v, a, i).original.Some?
       && SlotOf(env, v, a, i).original.value in v.nodes && SlotOf(env, v, a, i).original.value !in v.dirty
         :: SlotOf(env, v, a, i).original.value)
  }

  /** The recovery this restore begins. It relies on the copies, and on those originals that are on disk. */
  ghost function Begins(env: Env, v: Vol, a: RestoreArgs, m: Manifest): Pend
    requires Applicable(env, a, m)
  {
    var doc := Encode(JournalFor(env, v, a, m));
    assert forall x :: x in FixedKeys(env, v, a) ==> x in v.nodes || exists i :: IsCopy(a, x, i) by {
      forall x | x in FixedKeys(env, v, a) && x !in v.nodes ensures exists i :: IsCopy(a, x, i) {
        var i :| 0 <= i < |env.files| && a.copies[i].ino == x;
        assert IsCopy(a, x, i);
      }
    }
    Pending(SlotsOf(env, v, a), Doc(doc, env.printed(doc)),
            map x | x in FixedKeys(env, v, a) :: FixedNode(env, v, a, m, x))
  }

  /** Tokens, temporary names and inodes are new. */
  ghost predicate FreshNames(env: Env, used: set<string>, v: Vol, a: RestoreArgs)
    requires |a.copies| == |env.files|
  {
    && IsHex(a.token, 32) && UsedBy(env, a.token) !! used
    && (forall i :: 0 <= i < |env.files| ==>
          var n := SlotOf(env, v, a, i).names;
          n.staged !in v.Live(n.dir) && n.backup !in v.Live(n.dir))
    && (forall i :: 0 <= i < |a.copies| ==>
          a.copies[i].ino !in v.nodes && a.copies[i].ino != a.t0.ino && a.copies[i].ino != a.t1.ino)
    && (forall i, j :: 0 <= i < j < |a.copies| ==> a.copies[i].ino != a.copies[j].ino)
    && TempsOk(env, used + UsedBy(env, a.token), v, a.t0, a.t1)
  }

  lemma CopyNode(env: Env, used: set<string>, v: Vol, a: RestoreArgs, m: Manifest, i: nat)
    requires Applicable(env, a, m) && FreshNames(env, used, v, a) && i < |env.files|
    ensures a.copies[i].ino in Begins(env, v, a, m).fixed
    ensures Begins(env, v, a, m).fixed[a.copies[i].ino] == CopyFile(env, a, i).full
  {
    var x := a.copies[i].ino;
    assert IsCopy(a, x, i);
    forall k | IsCopy(a, x, k) ensures k == i {}
  }

  /** The original is relied on if and only if it is on disk. */
  lemma OriginalNode(env: Env, used: set<string>, v: Vol, a: RestoreArgs, m: Manifest, i: nat)
    requires Applicable(env, a, m) && FreshNames(env, used, v, a) && Rooted(env, v) && i < |env.files|
    requires SlotOf(env, v, a, i).original.Some?
    ensures var x, p := SlotOf(env, v, a, i).original.value, Begins(env, v, a, m);
            x in v.nodes && (x in p.fixed <==> x !in v.dirty) && (x in p.fixed ==> p.fixed[x] == v.nodes[x])
  {
    assert InoAt(v, TargetAt(env, i)).Some?;
  }

  lemma BeginsSlot(env: Env, used: set<string>, v: Vol, a: RestoreArgs, m: Manifest, i: nat)
    requires Applicable(env, a, m) && FreshNames(env, used, v, a) && Rooted(env, v) && i < |env.files|
    ensures SlotAt(v, Begins(env, v, a, m), SlotOf(env, v, a, i), false)
  {
    CopyNode(env, used, v, a, m, i);
    if SlotOf(env, v, a, i).original.Some? { OriginalNode(env, used, v, a, m, i); }
  }

  lemma BeginsSlotFor(env: Env, used: set<string>, v: Vol, a: RestoreArgs, m: Manifest, i: nat, p: Pend, c: Change,
                      rec: Record)
    requires Applicable(env, a, m) && FreshNames(env, used, v, a) && Rooted(env, v) && i < |env.files|
    requires p == Begins(env, v, a, m) && rec == m.files[env.files[i]]
    requires c == ChangeFor(env.data, env.files[i], a.token, OriginalAt(v, Target(env.data, env.files[i])))
    ensures SlotFor(env, p, SlotOf(env, v, a, i), c, rec)
  {
    CopyNode(env, used, v, a, m, i);
    if SlotOf(env, v, a, i).original.Some? { OriginalNode(env, used, v, a, m, i); }
  }

  /** The journal `restore` writes describes the recovery it begins. */
  lemma BeginsWrote(env: Env, used: set<string>, v: Vol, a: RestoreArgs, m: Manifest)
    requires Goes(env, used, v, a, m)
    ensures Wrote(env, Begins(env, v, a, m), JournalFor(env, v, a, m))
  {
    var p, j := Begins(env, v, a, m), JournalFor(env, v, a, m);
    forall i | 0 <= i < |env.files|
      ensures SlotFor(env, p, p.slots[i], j.changes[i], j.manifest.files[env.files[i]])
    {
      BeginsSlotFor(env, used, v, a, m, i, p, j.changes[i], j.manifest.files[env.files[i]]);
    }
  }

  lemma SlotsSeparate(env: Env, v: Vol, a: RestoreArgs)
    requires EnvOk(env) && |a.copies| == |env.files| && IsHex(a.token, 32)
    ensures Separate(RootOf(env), SlotsOf(env, v, a))
  {
    MarkersApart(env, "", "");
    var slots := SlotsOf(env, v, a);
    forall i | 0 <= i < |slots|
      ensures var n := slots[i].names;
              n.dir != env.data && n.target != n.staged && n.target != n.backup && n.staged != n.backup
    {
      OwnNames(env.data, env.files[i], a.token);
      NamesTogether(env.data, env.files[i], a.token);
    }
    forall i, k | 0 <= i < k < |slots| ensures slots[i].names.All() !! slots[k].names.All() {
      NamesApart(env.data, env.files[i], env.files[k], a.token);
    }
  }

  lemma BeginsFresh(env: Env, ours: Scope, used: set<string>, v: Vol, a: RestoreArgs, m: Manifest)
    requires EnvOk(env) && Applicable(env, a, m) && FreshNames(env, used, v, a) && Rooted(env, v)
    ensures Fresh(SiteOf(env, ours), used, Begins(env, v, a, m), CopyFiles(env, a, m))
  {
    var site, p, files := SiteOf(env, ours), Begins(env, v, a, m), CopyFiles(env, a, m);
    SiteIsOk(env, ours);
    SlotsSeparate(env, v, a);
    forall i | 0 <= i < |p.slots|
      ensures FreshSlot(site, used, p, site.spots[i], p.slots[i], files[i])
    {
      BeginsFreshSlot(env, ours, used, v, a, m, i);
    }
    forall x | x in p.fixed ensures exists i :: 0 <= i < |p.slots| && Source(p.slots[i], x) {
      BeginsSource(env, v, a, x);
    }
  }

  lemma BeginsSource(env: Env, v: Vol, a: RestoreArgs, x: Ino)
    requires |a.copies| == |env.files| && x in FixedKeys(env, v, a)
    ensures exists i :: 0 <= i < |env.files| && Source(SlotsOf(env, v, a)[i], x)
  {
    var slots := SlotsOf(env, v, a);
    if i :| 0 <= i < |env.files| && a.copies[i].ino == x {
      assert Source(slots[i], x);
    } else {
      var i :| 0 <= i < |env.files| && SlotOf(env, v, a, i).original == Some(x);
      assert Source(slots[i], x);
    }
  }

  lemma BeginsFreshSlot(env: Env, ours: Scope, used: set<string>, v: Vol, a: RestoreArgs, m: Manifest, i: nat)
    requires EnvOk(env) && Applicable(env, a, m) && FreshNames(env, used, v, a) && Rooted(env, v) && i < |env.files|
    ensures var site, p := SiteOf(env, ours), Begins(env, v, a, m);
            FreshSlot(site, used, p, site.spots[i], p.slots[i], CopyFiles(env, a, m)[i])
  {
    var t := Target(env.data, env.files[i]);
    TokenEnds(t, ".restore-", a.token);
    TokenEnds(t, ".pre-restore-", a.token);
    assert Staged(env.data, env.files[i], a.token) in UsedBy(env, a.token);
    assert Backup(env.data, env.files[i], a.token) in UsedBy(env, a.token);
    HexIsForeign(env, ours, used, Staged(env.data, env.files[i], a.token));
    HexIsForeign(env, ours, used, Backup(env.data, env.files[i], a.token));
    BeginsSlot(env, used, v, a, m, i);
    CopyNode(env, used, v, a, m, i);
  }

  lemma PrivateIsUsedBy(env: Env, v: Vol, a: RestoreArgs)
    requires |a.copies| == |env.files|
    ensures Private(SlotsOf(env, v, a)) == UsedBy(env, a.token)
  {
    var slots := SlotsOf(env, v, a);
    assert forall i :: 0 <= i < |slots| ==> slots[i].names.staged == Staged(env.data, env.files[i], a.token);
    assert forall i :: 0 <= i < |slots| ==> slots[i].names.backup == Backup(env.data, env.files[i], a.token);
  }

  lemma SameDirs(env: Env, v: Vol, a: RestoreArgs)
    requires |a.copies| == |env.files|
    ensures FileDirs(env) == Dirs(SlotsOf(env, v, a))
  {
  }

  /** A name at a target has a file behind it. */
  ghost predicate Rooted(env: Env, v: Vol) {
    forall i :: 0 <= i < |env.files| && InoAt(v, TargetAt(env, i)).Some? ==>
      InoAt(v, TargetAt(env, i)).value in v.nodes
  }

  /** Everything at a target is on disk. */
  ghost predicate OriginalsSynced(env: Env, v: Vol) {
    forall i :: 0 <= i < |env.files| && InoAt(v, TargetAt(env, i)).Some? ==>
      InoAt(v, TargetAt(env, i)).value !in v.dirty
  }

  /** The restore goes ahead, and everything it makes up is new when it is used. */
  ghost predicate Goes(env: Env, used: set<string>, v: Vol, a: RestoreArgs, m: Manifest) {
    && Applicable(env, a, m) && ManifestOk(env.files, m) && Present(env, v) == [] && Rooted(env, v)
    && FreshNames(env, used, v, a)
    && TempsOk(env, used + UsedBy(env, a.token), Midway(env, v, a, m), a.rest.t0, a.rest.t1)
  }

  ghost predicate FreshRestore(env: Env, used: set<string>, v: Vol, a: RestoreArgs) {
    var m := Approved(env, v, a);
    m.Some? ==> Goes(env, used, v, a, m.value)
  }

  /** All that `BeginSafe` asks for. */
  ghost predicate CanBegin(site: Site<string, Content>, used: set<string>, v: Vol, p: Pend,
                           files: seq<NewFile<string, Content>>,
                           f0: NewFile<string, Content>, f1: NewFile<string, Content>) {
    && Fresh(site, used, p, files) && StagedTo(v, p, 0) && site.ours(Some(p))
    && Usable(site, used + Private(p.slots), v, f0, f1) && f0.full.content == f1.full.content == p.doc
    && (forall i :: 0 <= i < |files| ==> files[i].ino != f0.ino && files[i].ino != f1.ino)
  }

  lemma BeginsCan(env: Env, ours: Scope, used: set<string>, v: Vol, a: RestoreArgs, m: Manifest, doc: Json)
    requires EnvOk(env) && Goes(env, used, v, a, m) && ours(Some(Begins(env, v, a, m)))
    requires doc == Encode(JournalFor(env, v, a, m))
    ensures var root := RootOf(env);
            CanBegin(SiteOf(env, ours), used, v, Begins(env, v, a, m), CopyFiles(env, a, m),
                     MarkerFile(env, root.m0, a.t0, doc), MarkerFile(env, root.m1, a.t1, doc))
  {
    var p := Begins(env, v, a, m);
    BeginsFresh(env, ours, used, v, a, m);
    PrivateIsUsedBy(env, v, a);
    TempUsable(env, ours, used + UsedBy(env, a.token), v, a.t0, a.t1, doc);
    BeginsUntouched(env, used, v, a, m);
  }

  lemma BeginsUntouched(env: Env, used: set<string>, v: Vol, a: RestoreArgs, m: Manifest)
    requires Applicable(env, a, m) && FreshNames(env, used, v, a) && Rooted(env, v)
    ensures StagedTo(v, Begins(env, v, a, m), 0)
  {
    var p := Begins(env, v, a, m);
    forall i | 0 <= i < |p.slots| ensures SlotAt(v, p, p.slots[i], false) { BeginsSlot(env, used, v, a, m, i); }
  }

  lemma CanBeginSafe(site: Site<string, Content>, used: set<string>, v: Vol, o: Option<Pend>, p: Pend,
                     files: seq<NewFile<string, Content>>,
                     f0: NewFile<string, Content>, f1: NewFile<string, Content>, dirs: seq<string>, all: set<string>)
    requires GoodWith(site, used, v, o) && !Marked(site.root, v.Live(site.root.dir))
    requires CanBegin(site, used, v, p, files, f0, f1)
    requires dirs == Dirs(p.slots) && all == used + Private(p.slots)
    ensures |dirs| == |files|
    ensures var ops := BeginOps(site.root, dirs, files, f0, f1);
            SafeRun(site, all, ops, v) && Begun(site, all, Exec(ops, v), p)
  {
    BeginSafe(site, used, v, o, p, files, f0, f1);
  }

  /** The first half of a restore is safe, and ends with both markers in place and everything ready. */
  lemma BeginRunSafe(env: Env, ours: Scope, used: set<string>, v: Vol, o: Option<Pend>, a: RestoreArgs, m: Manifest)
    requires EnvOk(env) && GoodWith(SiteOf(env, ours), used, v, o) && Goes(env, used, v, a, m)
    requires ours(Some(Begins(env, v, a, m)))
    ensures var all := used + UsedBy(env, a.token); var ops := BeginOpsOf(env, v, a, m);
            SafeRun(SiteOf(env, ours), all, ops, v) && Begun(SiteOf(env, ours), all, Exec(ops, v), Begins(env, v, a, m))
  {
    var root, p := RootOf(env), Begins(env, v, a, m);
    var doc := Encode(JournalFor(env, v, a, m));
    BeginsCan(env, ours, used, v, a, m, doc);
    PrivateIsUsedBy(env, v, a);
    SameDirs(env, v, a);
    CanBeginSafe(SiteOf(env, ours), used, v, o, p, CopyFiles(env, a, m), MarkerFile(env, root.m0, a.t0, doc),
                 MarkerFile(env, root.m1, a.t1, doc),
                 FileDirs(env), used + UsedBy(env, a.token));
  }

  lemma ThenSafe(env: Env, ours: Scope, used: set<string>, v: Vol, ops: seq<Op<string, Content>>, w: Vol, p: Pend,
                 j: Journal,
                 r: ResumeArgs, rest: seq<Op<string, Content>>)
    requires EnvOk(env) && SafeRun(SiteOf(env, ours), used, ops, v) && w == Exec(ops, v)
    requires Begun(SiteOf(env, ours), used, w, p)
    requires Wrote(env, p, j) && TempsOk(env, used, w, r.t0, r.t1) && rest == PlannedOps(env, w, r)
    ensures SafeRun(SiteOf(env, ours), used, ops + rest, v)
    ensures Readable(env, j) && Recognizes(w, j) && r.apply && r.anchored ==>
              Outcome(SiteOf(env, ours), used, Exec(ops + rest, v), p, r.inspected)
  {
    ResumeOpsSafe(env, ours, used, w, p, j, r);
    SafeConcat(SiteOf(env, ours), used, ops, rest, v);
    ExecConcat(ops, rest, v);
  }

  /** The operations of a restore are safe. */
  lemma RestoreOpsSafe(env: Env, ours: Scope, used: set<string>, v: Vol, o: Option<Pend>, a: RestoreArgs, m: Manifest)
    requires EnvOk(env) && GoodWith(SiteOf(env, ours), used, v, o) && Goes(env, used, v, a, m)
    requires ours(Some(Begins(env, v, a, m)))
    ensures SafeRun(SiteOf(env, ours), used + UsedBy(env, a.token), RestoreOps(env, v, a, m), v)
  {
    var w := Midway(env, v, a, m);
    BeginRunSafe(env, ours, used, v, o, a, m);
    BeginsWrote(env, used, v, a, m);
    ThenSafe(env, ours, used + UsedBy(env, a.token), v, BeginOpsOf(env, v, a, m), w, Begins(env, v, a, m),
             JournalFor(env, v, a, m), Rest(a),
             PlannedOps(env, w, Rest(a)));
  }

  /** A restore that goes ahead, wherever it is cut short, keeps the invariant. */
  lemma RestoreWithGood(env: Env, ours: Scope, used: set<string>, v: Vol, a: RestoreArgs, m: Manifest, cut: nat)
    requires EnvOk(env) && Good(SiteOf(env, ours), used, v) && Goes(env, used, v, a, m)
    requires ours(Some(Begins(env, v, a, m)))
    ensures Good(SiteOf(env, ours), used + UsedBy(env, a.token), RestoreWith(env, v, a, m, cut))
  {
    var o :| GoodWith(SiteOf(env, ours), used, v, o);
    RestoreOpsSafe(env, ours, used, v, o, a, m);
    CutSafe(SiteOf(env, ours), used + UsedBy(env, a.token), RestoreOps(env, v, a, m), v, cut);
  }
}
