/** What `resume` and `restore` insist on before they change anything, and what an uncut resume leaves: on any
    volume at all, tampered with or not. */
module Verdicts {
  import opened Volumes
  import opened Recoveries
  import opened Protocol
  import opened Swapping
  import opened SparseFile
  import opened Json
  import opened Manifests
  import opened Paths
  import opened Journals
  import opened Tool
  import opened Bystanders
  import opened Phases

  // ---------------------------------------------------------------------------------------------
  // When resume goes ahead

  /** The marker is there and holds this document, within the limit. */
  ghost predicate Says(env: Env, v: Vol, m: string, doc: Json) {
    var l := v.Live(env.data);
    && m in l && l[m] in v.nodes && v.nodes[l[m]].content.Doc?
    && v.nodes[l[m]].content.value == doc && v.nodes[l[m]].content.size <= MAX_METADATA
  }

  /** There is a marker, and every marker holds this document. */
  ghost predicate AllSay(env: Env, v: Vol, doc: Json) {
    && Marked(RootOf(env), v.Live(env.data))
    && (env.m0 in v.Live(env.data) ==> Says(env, v, env.m0, doc))
    && (env.m1 in v.Live(env.data) ==> Says(env, v, env.m1, doc))
  }

  ghost predicate FileFits(env: Env, v: Vol, j: Journal, i: nat, ph: Phase)
    requires i < |env.files|
  {
    && i < |j.changes| && env.files[i] in j.manifest.files
    && Fits(env, v, j.changes[i], j.manifest.files[env.files[i]], ph)
  }

  /** Every file is in its phase. */
  ghost predicate FilesFit(env: Env, v: Vol, j: Journal, phases: seq<Phase>) {
    |phases| == |env.files| && forall i :: 0 <= i < |env.files| ==> FileFits(env, v, j, i, phases[i])
  }

  /** The document is a journal of this tool for this data directory. */
  ghost predicate Accepted(env: Env, doc: Json, j: Journal) {
    JournalOk(env.data, env.files, j) && Documents(env.files, doc, j)
  }

  lemma TestsIff(env: Env, v: Vol, j: Journal, phases: seq<Phase>)
    requires HasRecords(env, j) && |phases| == |env.files|
    ensures Gather(Tests(env, v, j)) == Some(phases) <==> FilesFit(env, v, j, phases)
  {
    forall i | 0 <= i < |env.files|
      ensures Tests(env, v, j)[i] == Some(phases[i]) <==> FileFits(env, v, j, i, phases[i])
    {
      PhaseIff(env, v, j.changes[i], j.manifest.files[env.files[i]], phases[i]);
    }
    GatherIff(Tests(env, v, j), phases);
  }

  lemma PlanWithIff(env: Env, v: Vol, doc: Json, j: Journal, phases: seq<Phase>)
    requires HasRecords(env, j)
    ensures PlanWith(env, v, doc, Some(j)) == Planned(doc, j, phases) <==> FilesFit(env, v, j, phases)
  {
    if |phases| == |env.files| { TestsIff(env, v, j, phases); }
  }

  lemma PlanForIff(env: Env, v: Vol, doc: Json, j: Journal, phases: seq<Phase>)
    ensures PlanFor(env, v, doc) == Planned(doc, j, phases) <==> Accepted(env, doc, j) && FilesFit(env, v, j, phases)
  {
    JournalIff(env.data, env.files, doc, j);
    if RecoveryEntries(env.data, env.files, doc) == Some(j) {
      assert HasRecords(env, j);
      PlanWithIff(env, v, doc, j, phases);
    }
  }

  /** What the markers come to, before anything is made of it. */
  lemma MarkersIff(env: Env, v: Vol, doc: Json)
    ensures AllSay(env, v, doc) ==> MakePlan(env, v) == PlanFor(env, v, doc)
    ensures MakePlan(env, v).Planned? && MakePlan(env, v).doc == doc ==> AllSay(env, v, doc)
  {
  }

  /** On any volume, `resume` comes to this plan exactly if there is a marker, all markers hold this document, it is
      a journal of this tool, and every file is where its phase has it, verified and recognized. */
  lemma PlanIff(env: Env, v: Vol, doc: Json, j: Journal, phases: seq<Phase>)
    ensures MakePlan(env, v) == Planned(doc, j, phases) <==>
              AllSay(env, v, doc) && Accepted(env, doc, j) && FilesFit(env, v, j, phases)
  {
    MarkersIff(env, v, doc);
    PlanForIff(env, v, doc, j, phases);
  }

  /** The reasons for which `resume` refuses. */
  ghost predicate Objection(env: Env, v: Vol, why: Refusal) {
    var l := v.Live(env.data);
    match why
    case NoPending => !Marked(RootOf(env), l)
    case Unreadable =>
      (env.m0 in l && forall doc :: !Says(env, v, env.m0, doc))
          || (env.m1 in l && forall doc :: !Says(env, v, env.m1, doc))
    case Disagree => exists a, b :: Says(env, v, env.m0, a) && Says(env, v, env.m1, b) && a != b
    case InvalidJournal => exists doc :: AllSay(env, v, doc) && NoJournal(env, doc)
    case FileCheck => exists doc :: AllSay(env, v, doc) && Unfit(env, v, doc)
    case _ => false
  }

  ghost predicate NoJournal(env: Env, doc: Json) { forall j :: !Accepted(env, doc, j) }

  ghost predicate Unfit(env: Env, v: Vol, doc: Json) {
    exists j, i :: Accepted(env, doc, j) && Misfit(env, v, j, i)
  }

  /** The file is in no phase. */
  ghost predicate Misfit(env: Env, v: Vol, j: Journal, i: nat) {
    i < |env.files| && forall ph :: !FileFits(env, v, j, i, ph)
  }

  lemma TestsRefuse(env: Env, v: Vol, j: Journal)
    requires HasRecords(env, j)
    ensures Gather(Tests(env, v, j)).None? <==> exists i :: Misfit(env, v, j, i)
  {
    var tests := Tests(env, v, j);
    forall i: nat | i < |env.files| ensures tests[i].None? <==> Misfit(env, v, j, i) {
      var c, rec := j.changes[i], j.manifest.files[env.files[i]];
      forall ph ensures tests[i] == Some(ph) <==> FileFits(env, v, j, i, ph) { PhaseIff(env, v, c, rec, ph); }
      if tests[i].Some? { assert FileFits(env, v, j, i, tests[i].value); }
    }
    if Gather(tests).Some? {
      forall i: nat ensures !Misfit(env, v, j, i) { if i < |tests| { GatherAt(tests, i); } }
    } else if forall i :: 0 <= i < |tests| ==> tests[i].Some? {
      var phases := seq(|tests|, i requires 0 <= i < |tests| => tests[i].value);
      GatherAll(tests, phases);
    }
  }

  lemma PlanWithRefuses(env: Env, v: Vol, doc: Json, j: Journal)
    requires HasRecords(env, j)
    ensures PlanWith(env, v, doc, Some(j)) == Declined(FileCheck) <==> exists i :: Misfit(env, v, j, i)
    ensures PlanWith(env, v, doc, Some(j)).Declined? ==> PlanWith(env, v, doc, Some(j)).why == FileCheck
  {
    TestsRefuse(env, v, j);
  }

  lemma AcceptedIs(env: Env, doc: Json, j: Journal)
    ensures Accepted(env, doc, j) <==> RecoveryEntries(env.data, env.files, doc) == Some(j)
    ensures Accepted(env, doc, j) ==> HasRecords(env, j)
  {
    JournalIff(env.data, env.files, doc, j);
  }

  /** A document that is no journal, or whose files do not all fit, is refused for that. */
  lemma PlanForRefuses(env: Env, v: Vol, doc: Json)
    ensures PlanFor(env, v, doc) == Declined(InvalidJournal) <==> NoJournal(env, doc)
    ensures PlanFor(env, v, doc) == Declined(FileCheck) <==> Unfit(env, v, doc)
    ensures PlanFor(env, v, doc).Declined? ==> PlanFor(env, v, doc).why in {InvalidJournal, FileCheck}
  {
    var r := RecoveryEntries(env.data, env.files, doc);
    forall j ensures Accepted(env, doc, j) <==> r == Some(j) { AcceptedIs(env, doc, j); }
    if r.Some? {
      AcceptedIs(env, doc, r.value);
      PlanWithRefuses(env, v, doc, r.value);
    }
  }

  lemma SaysIff(env: Env, v: Vol, m: string, doc: Json)
    requires m in v.Live(env.data)
    ensures Says(env, v, m, doc) <==> ReadDoc(v, v.Live(env.data)[m]) == Some(doc)
  {
  }

  lemma OneDocument(env: Env, v: Vol, a: Json, b: Json)
    requires AllSay(env, v, a) && AllSay(env, v, b)
    ensures a == b
  {
  }

  /** The markers alone decide, unless they all hold one document. */
  lemma MarkersRefuse(env: Env, v: Vol, why: Refusal)
    requires forall doc :: !AllSay(env, v, doc)
    ensures MakePlan(env, v) == Declined(why) <==> Objection(env, v, why)
  {
    var l := v.Live(env.data);
    forall m, doc | m in l ensures Says(env, v, m, doc) <==> ReadDoc(v, l[m]) == Some(doc) { SaysIff(env, v, m, doc); }
    var ms := Present(env, v);
    if ms != [] {
      var first, last := ReadDoc(v, ms[0]), ReadDoc(v, ms[|ms| - 1]);
      if first.Some? && first == last { assert AllSay(env, v, first.value); }
    }
  }

  /** And it refuses for exactly these reasons: no marker, one that cannot be read, two that differ, a document that is
      no journal of this tool, and a file that is in no phase. */
  lemma RefusalIff(env: Env, v: Vol, why: Refusal)
    ensures MakePlan(env, v) == Declined(why) <==> Objection(env, v, why)
  {
    if doc :| AllSay(env, v, doc) {
      MarkersIff(env, v, doc);
      PlanForRefuses(env, v, doc);
      SaidOnce(env, v, doc, why);
    } else {
      MarkersRefuse(env, v, why);
    }
  }

  lemma SaidOnce(env: Env, v: Vol, doc: Json, why: Refusal)
    requires AllSay(env, v, doc)
    ensures Objection(env, v, InvalidJournal) <==> NoJournal(env, doc)
    ensures Objection(env, v, FileCheck) <==> Unfit(env, v, doc)
    ensures why != InvalidJournal && why != FileCheck ==> !Objection(env, v, why)
  {
    forall other | AllSay(env, v, other) ensures other == doc { OneDocument(env, v, other, doc); }
  }

  // ---------------------------------------------------------------------------------------------
  // What an accepted resume does to the files, wherever it is cut short

  /** The slot's copy is a verified file, and its original the recorded one. */
  ghost predicate Backs(env: Env, v: Vol, c: Change, rec: Record, s: Slot<string>) {
    && s.names == NamesOf(c) && HoldsCopy(env, v, map["" := s.copy], "", rec)
    && (if s.original.None? then c.original.None?
        else c.original.Some? && HoldsOriginal(v, map["" := s.original.value], "", c.original))
  }

  /** A file that fits a phase, as a slot. */
  function SlotIn(v: Vol, c: Change, ph: Phase): Slot<string> {
    var l := v.Live(Parent(c.target));
    var copy, place := if ph.Installed? then c.target else c.staged, if ph.Ready? then c.target else c.backup;
    Slot(NamesOf(c), if c.original.Some? && place in l then Some(l[place]) else None, if copy in l then l[copy] else 0)
  }

  lemma FitsIn(env: Env, v: Vol, c: Change, rec: Record, ph: Phase)
    requires Fits(env, v, c, rec, ph)
    ensures Backs(env, v, c, rec, SlotIn(v, c, ph)) && In(SlotIn(v, c, ph), v.Live(Parent(c.target)), ph)
  {
  }

  lemma InFits(env: Env, v: Vol, w: Vol, c: Change, rec: Record, s: Slot<string>, ph: Phase)
    requires Backs(env, v, c, rec, s) && Unchanged(v, w) && In(s, w.Live(s.names.dir), ph)
    ensures Fits(env, w, c, rec, ph)
  {
  }

  lemma NamesSeparate(env: Env, j: Journal, slots: seq<Slot<string>>)
    requires EnvOk(env) && JournalOk(env.data, env.files, j) && |slots| == |env.files|
    requires forall i :: 0 <= i < |slots| ==> slots[i].names == NamesOf(j.changes[i])
    ensures Separate(RootOf(env), slots)
  {
    MarkersApart(env, "", "");
    forall i | 0 <= i < |slots|
      ensures slots[i].names == NamesOf(ChangeFor(env.data, env.files[i], j.token, None))
    {
      assert Proper(env.data, env.files[i], j.token, j.changes[i]);
    }
    forall i | 0 <= i < |slots|
      ensures var n := slots[i].names;
              n.dir != env.data && n.target != n.staged && n.target != n.backup && n.staged != n.backup
    {
      OwnNames(env.data, env.files[i], j.token);
      NamesTogether(env.data, env.files[i], j.token);
    }
    forall i, k | 0 <= i < k < |slots| ensures slots[i].names.All() !! slots[k].names.All() {
      NamesApart(env.data, env.files[i], env.files[k], j.token);
    }
  }

  /** The slots behind an accepted plan. */
  ghost predicate Stands(env: Env, v: Vol, j: Journal, slots: seq<Slot<string>>) {
    |slots| == |env.files| == |j.changes| && forall i :: 0 <= i < |env.files| ==>
      env.files[i] in j.manifest.files && Backs(env, v, j.changes[i], j.manifest.files[env.files[i]], slots[i])
  }

  lemma PlanStands(env: Env, v: Vol, j: Journal, phases: seq<Phase>) returns (slots: seq<Slot<string>>)
    requires JournalOk(env.data, env.files, j) && FilesFit(env, v, j, phases)
    ensures Stands(env, v, j, slots) && Seen(v, slots, phases, 0)
  {
    slots := seq(|env.files|, i requires 0 <= i < |env.files| => SlotIn(v, j.changes[i], phases[i]));
    forall i | 0 <= i < |env.files|
      ensures Backs(env, v, j.changes[i], j.manifest.files[env.files[i]], slots[i])
      ensures In(slots[i], v.Live(slots[i].names.dir), phases[i])
    {
      assert FileFits(env, v, j, i, phases[i]);
      FitsIn(env, v, j.changes[i], j.manifest.files[env.files[i]], phases[i]);
    }
  }

  lemma StillFits(env: Env, v: Vol, w: Vol, j: Journal, slots: seq<Slot<string>>, phases: seq<Phase>)
    requires Stands(env, v, j, slots) && Unchanged(v, w) && Seen(w, slots, phases, 0)
    ensures FilesFit(env, w, j, phases)
  {
    forall i | 0 <= i < |env.files| ensures FileFits(env, w, j, i, phases[i]) {
      InFits(env, v, w, j.changes[i], j.manifest.files[env.files[i]], slots[i], phases[i]);
    }
  }

  lemma StandsTracks(env: Env, v: Vol, j: Journal, slots: seq<Slot<string>>)
    requires Stands(env, v, j, slots)
    ensures TracksOf(j) == Tracks(slots)
  {
    forall i | 0 <= i < |slots| ensures TracksOf(j)[i] == Tracks(slots)[i] {
      assert Backs(env, v, j.changes[i], j.manifest.files[env.files[i]], slots[i]);
    }
  }

  lemma PublishAside(root: Root<string>, m: string, f: NewFile<string, Content>)
    ensures OnlyIn(PublishOps(root, m, f), root.dir)
  {
  }

  lemma RemarkAside(root: Root<string>, live: map<string, Ino>, f0: NewFile<string, Content>,
                    f1: NewFile<string, Content>)
    ensures OnlyIn(RemarkOps(root, live, f0, f1), root.dir)
  {
    PublishAside(root, root.m0, f0);
    PublishAside(root, root.m1, f1);
    OnlyInConcat(if root.m0 in live then [] else PublishOps(root, root.m0, f0),
                 if root.m1 in live then [] else PublishOps(root, root.m1, f1), root.dir);
  }

  lemma UnmarkAside(root: Root<string>)
    ensures OnlyIn<string, Content>(UnmarkOps(root), root.dir)
  {
  }

  lemma FinishTracked(root: Root<string>, v: Vol, slots: seq<Slot<string>>, phases: seq<Phase>, inspected: bool)
    requires Separate(root, slots) && Seen(v, slots, phases, 0)
    ensures var ops: seq<Op<string, Content>> := FinishOps(root, Tracks(slots), phases, inspected);
            Tracked(ops, v, slots) && Seen(Exec(ops, v), slots, seq(|slots|, _ => Installed), 0)
  {
    var swaps := SwapsFrom<string, Content>(Tracks(slots), phases, 0);
    var last: seq<Op<string, Content>> := if inspected then UnmarkOps(root) else [];
    TrackedSwaps(v, root, slots, phases, phases, 0);
    UnmarkAside(root);
    TrackedAside(last, Exec(swaps, v), root, slots, seq(|slots|, _ => Installed));
    TrackedConcat(swaps, last, v, slots);
  }

  /** All operations of a resume: in the root, or from phase to phase. */
  lemma ResumeTracked(root: Root<string>, v: Vol, slots: seq<Slot<string>>, phases: seq<Phase>,
                      f0: NewFile<string, Content>, f1: NewFile<string, Content>, inspected: bool)
    requires Separate(root, slots) && Seen(v, slots, phases, 0)
    ensures var ops := ResumeOps(root, v.Live(root.dir), f0, f1, Tracks(slots), phases, inspected);
            Tracked(ops, v, slots) && Seen(Exec(ops, v), slots, seq(|slots|, _ => Installed), 0)
  {
    var first := RemarkOps(root, v.Live(root.dir), f0, f1);
    RemarkAside(root, v.Live(root.dir), f0, f1);
    TrackedAside(first, v, root, slots, phases);
    FinishTracked(root, Exec(first, v), slots, phases, inspected);
    TrackedConcat(first, FinishOps(root, Tracks(slots), phases, inspected), v, slots);
  }

  /** A resume writes nothing but new markers. */
  lemma ResumeUnchanged(env: Env, v: Vol, a: ResumeArgs, cut: nat)
    requires a.t0.ino !in v.nodes && a.t1.ino !in v.nodes
    ensures Unchanged(v, Resume(env, v, a, cut))
  {
    var p, root := MakePlan(env, v), RootOf(env);
    forall x | x in v.nodes
      ensures x in Resume(env, v, a, cut).nodes && Resume(env, v, a, cut).nodes[x] == v.nodes[x]
    {
      if p.Planned? && a.apply && a.anchored {
        ResumeAvoids(root, v.Live(env.data), MarkerFile(env, root.m0, a.t0, p.doc),
                     MarkerFile(env, root.m1, a.t1, p.doc),
                     TracksOf(p.journal), p.phases, a.inspected, v, x);
      }
      Avoided(PlannedOps(env, v, a), v, x, false, cut);
    }
  }

  lemma OpsTracked(env: Env, v: Vol, a: ResumeArgs, doc: Json, j: Journal, phases: seq<Phase>, slots: seq<Slot<string>>)
    requires EnvOk(env) && JournalOk(env.data, env.files, j) && Stands(env, v, j, slots) && Seen(v, slots, phases, 0)
    requires a.apply && a.anchored
    ensures var ops := OpsFor(env, v, a, Planned(doc, j, phases));
            Tracked(ops, v, slots) && Seen(Exec(ops, v), slots, seq(|slots|, _ => Installed), 0)
  {
    var root := RootOf(env);
    NamesSeparate(env, j, slots);
    StandsTracks(env, v, j, slots);
    ResumeTracked(root, v, slots, phases, MarkerFile(env, root.m0, a.t0, doc), MarkerFile(env, root.m1, a.t1, doc),
                  a.inspected);
  }

  /** On any volume: if `resume` accepts what it finds and applies it, then wherever it is cut short, every file is in
      one of its phases, with the copy verified and the original recognized; uncut, every target is the verified copy,
      every original the backup, and nothing is staged. */
  lemma ResumeFits(env: Env, v: Vol, a: ResumeArgs, cut: nat, doc: Json, j: Journal, phases: seq<Phase>)
    returns (now: seq<Phase>)
    requires EnvOk(env) && MakePlan(env, v) == Planned(doc, j, phases) && a.apply && a.anchored
    requires a.t0.ino !in v.nodes && a.t1.ino !in v.nodes
    ensures FilesFit(env, Resume(env, v, a, cut), j, now)
    ensures cut >= |PlannedOps(env, v, a)| ==> forall i :: 0 <= i < |now| ==> now[i] == Installed
  {
    PlanIff(env, v, doc, j, phases);
    var slots := PlanStands(env, v, j, phases);
    OpsTracked(env, v, a, doc, j, phases, slots);
    ResumeUnchanged(env, v, a, cut);
    now := FitsAlong(env, v, j, slots, PlannedOps(env, v, a), cut);
  }

  lemma FitsAlong(env: Env, v: Vol, j: Journal, slots: seq<Slot<string>>, ops: seq<Op<string, Content>>, cut: nat)
    returns (now: seq<Phase>)
    requires Stands(env, v, j, slots) && Unchanged(v, Exec(Cut(ops, cut), v)) && Tracked(ops, v, slots)
    requires Seen(Exec(ops, v), slots, seq(|slots|, _ => Installed), 0)
    ensures FilesFit(env, Exec(Cut(ops, cut), v), j, now)
    ensures cut >= |ops| ==> forall i :: 0 <= i < |now| ==> now[i] == Installed
  {
    if cut >= |ops| {
      now := seq(|slots|, _ => Installed);
    } else {
      now := TrackedCut(ops, v, slots, cut);
    }
    StillFits(env, v, Exec(Cut(ops, cut), v), j, slots, now);
  }

  // ---------------------------------------------------------------------------------------------
  // When restore goes ahead

  /** The checkpoint's manifest can be read and obeys the rules, and every file matches its record. */
  ghost predicate Restorable(env: Env, a: RestoreArgs, m: Manifest) {
    && env.printed(a.manifest) <= MAX_METADATA && ManifestOk(env.files, m)
    && Agrees(a.manifest, EncodeManifest(m)) && OnlyFiles(env.files, a.manifest)
    && forall i :: 0 <= i < |env.files| ==>
         var f := env.files[i];
         f in a.contents && f in m.files && Matches(a.contents[f], m.files[f], env.sha)
  }

  /** `restore` goes ahead with this manifest exactly if there is no marker, it was told to apply, nobody objects,
      there is room, and the checkpoint is in order. */
  lemma ApprovedIff(env: Env, v: Vol, a: RestoreArgs, m: Manifest)
    requires |a.copies| == |env.files|
    ensures Approved(env, v, a) == Some(m) <==>
              && !Marked(RootOf(env), v.Live(env.data)) && a.apply && a.usable && a.roomy && Restorable(env, a, m)
  {
    ManifestIff(env.files, a.manifest, m);
  }

  /** So a restore that has changed anything was told to apply, met no objection, found room and no marker, and had a
      checkpoint in which every file matches its record. */
  lemma RestoreActs(env: Env, v: Vol, a: RestoreArgs, cut: nat)
    ensures Restore(env, v, a, cut) != v ==>
              && a.apply && a.usable && a.roomy && !Marked(RootOf(env), v.Live(env.data))
              && exists m :: Restorable(env, a, m)
  {
    var m := Approved(env, v, a);
    if m.Some? { ApprovedIff(env, v, a, m.value); }
  }
}
