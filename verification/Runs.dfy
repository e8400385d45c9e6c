/** Whole histories: restores and resumes cut short anywhere, power losses, and, while nothing is
    pending, anything the node does to its files. */
module Runs {
  import opened Volumes
  import opened Recoveries
  import opened Protocol
  import opened Swapping
  import opened Staging
  import opened SparseFile
  import opened Json
  import opened Manifests
  import opened Paths
  import opened Journals
  import opened Tool
  import opened Bystanders
  import opened Safety
  import opened Tracking
  import opened Sessions
  import opened Generations

  datatype Event =
    | RestoreRun(restore: RestoreArgs, cut: nat)
    | ResumeRun(resume: ResumeArgs, cut: nat)
    | PowerLoss(cuts: string -> nat)
    | NodeRun

  /** The volume, and the private names handed out so far. */
  datatype State = State(vol: Vol, used: set<string>)

  /** A recovery of the tool, or none. */
  ghost function Any(env: Env): Scope { (o: Option<Pend>) => o.Some? ==> Own(env, o.value) }

  ghost predicate Sound(env: Env, s: State) {
    Good(SiteOf(env, Any(env)), s.used, s.vol)
  }

  ghost predicate Step(env: Env, s: State, e: Event, t: State) {
    match e
    case RestoreRun(a, cut) =>
      FreshRestore(env, s.used, s.vol, a) && t == State(Restore(env, s.vol, a, cut), s.used + UsedBy(env, a.token))
    case ResumeRun(a, cut) =>
      TempsOk(env, s.used, s.vol, a.t0, a.t1) && t == State(Resume(env, s.vol, a, cut), s.used)
    case PowerLoss(cuts) => Lost(s.vol, t.vol, cuts) && t.used == s.used
    case NodeRun => NodeMay(env, s.vol, t.vol) && t.used == s.used
  }

  /** What a run of the node may do. It starts if it sees no marker, leaves the markers alone, and may
      do anything else; in particular it may be killed with its files not synced. */
  ghost predicate NodeMay(env: Env, v: Vol, w: Vol) {
    var root := RootOf(env);
    && !Marked(root, v.Live(root.dir)) && !Marked(root, w.Live(root.dir))
    && forall k :: 0 <= k <= |w.Dir(root.dir).queue| ==>
         exists j :: 0 <= j <= |v.Dir(root.dir).queue|
             && SameMarks(root, v, v.Dir(root.dir).View(j), w, w.Dir(root.dir).View(k))
  }

  /** The markers of the two listings are the same files. */
  ghost predicate SameMarks(root: Root<string>, v: Vol, l: map<string, Ino>, w: Vol, k: map<string, Ino>) {
    forall m :: m in root.Marks() ==>
      && (m in l <==> m in k)
      && (m in l && l[m] in v.nodes && l[m] !in v.dirty ==>
            k[m] == l[m] && l[m] in w.nodes && w.nodes[l[m]] == v.nodes[l[m]] && l[m] !in w.dirty)
  }

  ghost predicate History(env: Env, states: seq<State>, events: seq<Event>) {
    |states| == |events| + 1 && forall i :: 0 <= i < |events| ==> Step(env, states[i], events[i], states[i + 1])
  }

  /** The node is only started where no marker can come back: see `NodeStarts.NodeStartIff`. */
  ghost predicate NodesWait(env: Env, states: seq<State>, events: seq<Event>)
    requires |states| == |events| + 1
  {
    forall i :: 0 <= i < |events| ==> Waits(env, states[i], events[i])
  }

  ghost predicate Waits(env: Env, s: State, e: Event) {
    e.NodeRun? ==> Unmarked(s.vol, RootOf(env))
  }

  lemma LossGood(site: Site<string, Content>, used: set<string>, v: Vol, w: Vol, cuts: string -> nat)
    requires Good(site, used, v) && Lost(v, w, cuts)
    ensures Good(site, used, w)
  {
    var o :| GoodWith(site, used, v, o);
    if o.Some? { LossActive(v, w, cuts, site.root, o.value); } else { LossRoot(v, w, cuts, site.root); }
    assert GoodWith(site, used, w, o);
  }

  lemma RestoreSound(env: Env, s: State, a: RestoreArgs, cut: nat)
    requires EnvOk(env) && Sound(env, s) && FreshRestore(env, s.used, s.vol, a)
    ensures Sound(env, State(Restore(env, s.vol, a, cut), s.used + UsedBy(env, a.token)))
  {
    var ours := Any(env);
    var o :| GoodWith(SiteOf(env, ours), s.used, s.vol, o);
    var m := Approved(env, s.vol, a);
    if m.Some? {
      BeginsWrote(env, s.used, s.vol, a, m.value);
      assert Own(env, Begins(env, s.vol, a, m.value));
      RestoreWithGood(env, ours, s.used, s.vol, a, m.value, cut);
    } else {
      GoodMore(SiteOf(env, ours), s.used, s.used + UsedBy(env, a.token), s.vol, o);
    }
  }

  lemma StepSound(env: Env, s: State, e: Event, t: State)
    requires EnvOk(env) && Sound(env, s) && Step(env, s, e, t) && Waits(env, s, e)
    ensures Sound(env, t)
  {
    match e {
      case RestoreRun(a, cut) => RestoreSound(env, s, a, cut);
      case ResumeRun(a, cut) => ResumeGood(env, Any(env), s.used, s.vol, a, cut);
      case PowerLoss(cuts) => LossGood(SiteOf(env, Any(env)), s.used, s.vol, t.vol, cuts);
      case NodeRun => assert GoodWith(SiteOf(env, Any(env)), t.used, t.vol, None);
    }
  }

  /** What every step keeps holds all along. */
  lemma {:induction false} Along(states: seq<State>, events: seq<Event>, step: (State, Event, State) -> bool,
                                 inv: State -> bool, i: nat)
    requires |states| == |events| + 1 && i < |states| && inv(states[0])
    requires forall k :: 0 <= k < |events| ==> step(states[k], events[k], states[k + 1])
    requires forall s, e, t :: inv(s) && step(s, e, t) ==> inv(t)
    ensures inv(states[i])
  {
    if i > 0 {
      Along(states, events, step, inv, i - 1);
      assert step(states[i - 1], events[i - 1], states[i - 1 + 1]);
    }
  }

  /** The invariant holds throughout every history. */
  lemma HistorySound(env: Env, states: seq<State>, events: seq<Event>, i: nat)
    requires EnvOk(env) && History(env, states, events) && NodesWait(env, states, events)
    requires Sound(env, states[0]) && i < |states|
    ensures Sound(env, states[i])
  {
    forall s, e, t | Sound(env, s) && Step(env, s, e, t) && Waits(env, s, e) ensures Sound(env, t) {
      StepSound(env, s, e, t);
    }
    Along(states, events, (s, e, t) => Step(env, s, e, t) && Waits(env, s, e), s => Sound(env, s), i);
  }

  // ---------------------------------------------------------------------------------------------
  // What the invariant gives

  /** Wherever a history has got to, a live marker belongs to one recovery of the tool, and `resume`
      accepts it with the true phase of every file, exactly if its journal can be read back and the
      originals are recognized. In particular markers never disagree. */
  lemma ResumeNeverMisreads(env: Env, s: State) returns (p: Pend, j: Journal, phases: seq<Phase>)
    requires Sound(env, s) && Marked(RootOf(env), s.vol.Live(env.data))
    ensures Kept(SiteOf(env, Any(env)), s.used, s.vol, p) && Wrote(env, p, j) && Seen(s.vol, p.slots, phases, 0)
    ensures MakePlan(env, s.vol) == TruePlan(env, s.vol, j, phases)
  {
    var o :| GoodWith(SiteOf(env, Any(env)), s.used, s.vol, o);
    if o.None? { UnmarkedLive(s.vol, RootOf(env)); }
    p := o.value;
    j :| Wrote(env, p, j);
    phases := TruePhases(s.vol, RootOf(env), p);
    PlanExact(env, s.vol, p, j, phases);
  }

  /** A pending recovery cannot be replaced by another: `restore` does nothing. */
  lemma RestoreWaits(env: Env, v: Vol, a: RestoreArgs, cut: nat)
    requires Marked(RootOf(env), v.Live(env.data))
    ensures Restore(env, v, a, cut) == v
  {
    assert Present(env, v) != [];
  }

  /** Where the original and the copy of a file are: each in exactly one place. */
  ghost predicate Accounted(s: Slot<string>, l: map<string, Ino>) {
    && Holds(l, s.names.staged, Some(s.copy)) != Holds(l, s.names.target, Some(s.copy))
    && (s.original.Some? ==> Holds(l, s.names.target, s.original) != Holds(l, s.names.backup, s.original))
    && (s.original.None? ==> s.names.backup !in l)
  }

  /** Nothing is lost, whatever a power loss leaves of the directory. */
  lemma NothingLost(v: Vol, root: Root<string>, p: Pend, i: nat, k: nat)
    requires Active(v, root, p) && i < |p.slots| && p.slots[i].original != Some(p.slots[i].copy)
    requires k <= |v.Dir(p.slots[i].names.dir).queue|
    ensures Accounted(p.slots[i], v.Dir(p.slots[i].names.dir).View(k))
  {
    var s := p.slots[i];
    assert Always(v, s, AnyPhase());
    assert InSome(s, v.Dir(s.names.dir).View(k), AnyPhase());
  }

  /** Every file is in this phase. */
  ghost predicate AllIn(v: Vol, p: Pend, ph: Phase) {
    forall i :: 0 <= i < |p.slots| ==> In(p.slots[i], v.Live(p.slots[i].names.dir), ph)
  }

  /** If a power loss leaves no marker, it leaves either every file as it was before the recovery or
      every file installed; a mixture always comes with a marker. */
  lemma NoMixtureUnmarked(env: Env, v: Vol, w: Vol, cuts: string -> nat, p: Pend)
    requires Active(v, RootOf(env), p) && Lost(v, w, cuts) && !Marked(RootOf(env), w.Live(env.data))
    ensures AllIn(w, p, Ready) || AllIn(w, p, Installed)
  {
    LossActive(v, w, cuts, RootOf(env), p);
    GuardedLive(w, RootOf(env));
    var ph := if AllAlways(w, p.slots, {Ready}) then Ready else Installed;
    forall i | 0 <= i < |p.slots| ensures In(p.slots[i], w.Live(p.slots[i].names.dir), ph) {
      assert Always(w, p.slots[i], {ph});
      AlwaysLive(w, p.slots[i], {ph});
    }
  }

  // ---------------------------------------------------------------------------------------------
  // Finishing

  /** What programs find at a path. */
  function Shows(v: Vol, dir: string, path: string): Option<Node<Content>> {
    var l := v.Live(dir);
    if path in l && l[path] in v.nodes then Some(v.nodes[l[path]]) else None
  }

  /** What a completed recovery shows at the names of one file. */
  lemma CompletedShows(env: Env, ours: Scope, v: Vol, p: Pend, i: nat)
    requires Completed(SiteOf(env, ours), v, p) && i < |p.slots| && Known(p, p.slots[i])
    ensures var s := p.slots[i]; var n := s.names;
            && Shows(v, n.dir, n.target) == Some(p.fixed[s.copy])
            && Holds(v.Live(n.dir), n.backup, s.original)
            && (s.original.Some? && s.original.value in p.fixed ==>
                  Shows(v, n.dir, n.backup) == Some(p.fixed[s.original.value]))
            && n.staged !in v.Live(n.dir) && !Marked(RootOf(env), v.Live(env.data))
  {
    var s := p.slots[i];
    assert Always(v, s, {Installed});
    AlwaysLive(v, s, {Installed});
    UnmarkedLive(v, RootOf(env));
  }

  /** From wherever a history has got to, one uninterrupted resume finishes a recovery it accepts. */
  lemma OneMoreResume(env: Env, s: State, a: ResumeArgs) returns (p: Pend, j: Journal)
    requires EnvOk(env) && Sound(env, s) && Marked(RootOf(env), s.vol.Live(env.data))
    requires TempsOk(env, s.used, s.vol, a.t0, a.t1) && a.apply && a.anchored && a.inspected
    ensures Active(s.vol, RootOf(env), p) && Wrote(env, p, j)
    ensures Readable(env, j) && Recognizes(s.vol, j) ==>
              Completed(SiteOf(env, Any(env)), Resume(env, s.vol, a, |PlannedOps(env, s.vol, a)|), p)
  {
    var phases;
    p, j, phases := ResumeNeverMisreads(env, s);
    ResumeOpsSafe(env, Any(env), s.used, s.vol, p, j, a);
  }

  ghost predicate HasMarker(env: Env, s: State) {
    Marked(RootOf(env), s.vol.Live(env.data))
  }

  // ---------------------------------------------------------------------------------------------
  // Following one recovery

  /** This recovery, and no other, is the one that is or was pending. */
  ghost predicate Held(env: Env, p: Pend, s: State) {
    Good(SiteOf(env, Just(p)), s.used, s.vol)
  }

  /** A resume, a power loss, or a restore that is refused. */
  ghost predicate Quiet(env: Env, s: State, e: Event) {
    match e
    case RestoreRun(a, _) => Approved(env, s.vol, a).None?
    case ResumeRun(_, _) => true
    case PowerLoss(_) => true
    case NodeRun => false
  }

  ghost predicate QuietAlong(env: Env, states: seq<State>, events: seq<Event>)
    requires |states| == |events| + 1
  {
    forall k :: 0 <= k < |events| ==> Quiet(env, states[k], events[k])
  }

  /** While a marker is there, nothing else can happen. */
  lemma MarkedIsQuiet(env: Env, s: State, e: Event, t: State)
    requires HasMarker(env, s) && Step(env, s, e, t)
    ensures Quiet(env, s, e)
  {
    assert Present(env, s.vol) != [];
  }

  /** The recovery is held on to even when its markers are gone. */
  lemma HeldStep(env: Env, p: Pend, j: Journal, s: State, e: Event, t: State)
    requires EnvOk(env) && Wrote(env, p, j) && Step(env, s, e, t) && Held(env, p, s) && Quiet(env, s, e)
    ensures Held(env, p, t)
  {
    match e {
      case RestoreRun(a, cut) =>
        var o :| GoodWith(SiteOf(env, Just(p)), s.used, s.vol, o);
        GoodMore(SiteOf(env, Just(p)), s.used, t.used, s.vol, o);
      case ResumeRun(a, cut) => ResumeGood(env, Just(p), s.used, s.vol, a, cut);
      case PowerLoss(cuts) => LossGood(SiteOf(env, Just(p)), s.used, s.vol, t.vol, cuts);
    }
  }

  lemma HeldAlong(env: Env, p: Pend, j: Journal, states: seq<State>, events: seq<Event>, i: nat)
    requires EnvOk(env) && Wrote(env, p, j) && History(env, states, events) && i < |states| && Held(env, p, states[0])
    requires QuietAlong(env, states, events)
    ensures Held(env, p, states[i])
  {
    forall s, e, t | Held(env, p, s) && Step(env, s, e, t) && Quiet(env, s, e) ensures Held(env, p, t) {
      HeldStep(env, p, j, s, e, t);
    }
    Along(states, events, (s, e, t) => Step(env, s, e, t) && Quiet(env, s, e), s => Held(env, p, s), i);
  }

  /** The state a restore leaves when it is cut short. */
  ghost function After(env: Env, s: State, a: RestoreArgs, m: Manifest, cut: nat): State
    requires Applicable(env, a, m)
  {
    State(RestoreWith(env, s.vol, a, m, cut), s.used + UsedBy(env, a.token))
  }

  /** A restore that has left a marker has left its own, whatever there was before. */
  lemma RestoreHolds(env: Env, s: State, a: RestoreArgs, m: Manifest, cut: nat, p: Pend)
    requires EnvOk(env) && Goes(env, s.used, s.vol, a, m) && HasMarker(env, After(env, s, a, m, cut))
    requires p == Begins(env, s.vol, a, m)
    ensures Held(env, p, After(env, s, a, m, cut))
  {
    MarkerMeansPast(env, s.used, s.vol, a, m, cut);
    HeldFromMarks(env, s.used, s.vol, a, m, cut, p);
  }

  /** The power fails somewhere along the way. */
  ghost predicate PowerFails(events: seq<Event>) {
    exists k :: 0 <= k < |events| && events[k].PowerLoss?
  }

  lemma UnchangedStep(env: Env, v: Vol, s: State, e: Event, t: State)
    requires Unchanged(v, s.vol) && Step(env, s, e, t) && Quiet(env, s, e) && !e.PowerLoss?
    ensures Unchanged(v, t.vol)
  {
    if e.ResumeRun? {
      forall x | x in v.nodes ensures x in t.vol.nodes && t.vol.nodes[x] == v.nodes[x] {
        ResumeKeepsFile(env, s.used, s.vol, e.resume, e.cut, x);
      }
    }
  }

  /** Without a power loss, no run changes a file that was there. */
  lemma UnchangedAlong(env: Env, s0: State, a: RestoreArgs, m: Manifest, cut: nat, states: seq<State>,
                       events: seq<Event>, i: nat)
    requires Goes(env, s0.used, s0.vol, a, m) && History(env, states, events) && QuietAlong(env, states, events)
    requires states[0] == After(env, s0, a, m, cut) && i < |states| && !PowerFails(events)
    ensures Unchanged(s0.vol, states[i].vol)
  {
    forall x | x in s0.vol.nodes ensures x in states[0].vol.nodes && states[0].vol.nodes[x] == s0.vol.nodes[x] {
      RestoreKeepsFile(env, s0.used, s0.vol, a, m, cut, x);
    }
    forall s: State, e, t | Unchanged(s0.vol, s.vol) && Step(env, s, e, t) && Quiet(env, s, e) && !e.PowerLoss?
      ensures Unchanged(s0.vol, t.vol)
    {
      UnchangedStep(env, s0.vol, s, e, t);
    }
    Along(states, events, (s, e: Event, t) => Step(env, s, e, t) && Quiet(env, s, e) && !e.PowerLoss?,
          (s: State) => Unchanged(s0.vol, s.vol), i);
  }

  /** Unchanged originals are recognized. */
  lemma UnchangedRecognizes(env: Env, used: set<string>, v: Vol, a: RestoreArgs, m: Manifest, w: Vol)
    requires Goes(env, used, v, a, m) && Unchanged(v, w)
    ensures Recognizes(w, JournalFor(env, v, a, m))
  {
    var j := JournalFor(env, v, a, m);
    forall i | 0 <= i < |j.changes| ensures Recognized(w, j.changes[i]) {
      if SlotOf(env, v, a, i).original.Some? { OriginalNode(env, used, v, a, m, i); }
    }
  }

  /** Originals that were on disk when the restore began are recognized ever after. */
  lemma SyncedRecognizes(env: Env, used: set<string>, v: Vol, a: RestoreArgs, m: Manifest, w: Vol)
    requires Goes(env, used, v, a, m) && OriginalsSynced(env, v) && Fixed(w, Begins(env, v, a, m).fixed)
    ensures Recognizes(w, JournalFor(env, v, a, m))
  {
    var j := JournalFor(env, v, a, m);
    forall i | 0 <= i < |j.changes| ensures Recognized(w, j.changes[i]) {
      if SlotOf(env, v, a, i).original.Some? {
        assert InoAt(v, TargetAt(env, i)).Some?;
        OriginalNode(env, used, v, a, m, i);
      }
    }
  }

  /** What stands at the end of a history behind a restore's first marker. */
  lemma HeldAtEnd(env: Env, s0: State, a: RestoreArgs, m: Manifest, cut: nat, states: seq<State>, events: seq<Event>,
                  i: nat, p: Pend, j: Journal)
    requires EnvOk(env) && Goes(env, s0.used, s0.vol, a, m) && History(env, states, events)
    requires QuietAlong(env, states, events) && states[0] == After(env, s0, a, m, cut) && HasMarker(env, states[0])
    requires p == Begins(env, s0.vol, a, m) && j == JournalFor(env, s0.vol, a, m) && i < |states|
    ensures Held(env, p, states[i]) && Wrote(env, p, j)
  {
    BeginsWrote(env, s0.used, s0.vol, a, m);
    RestoreHolds(env, s0, a, m, cut, p);
    HeldAlong(env, p, j, states, events, i);
  }

  /** The originals are recognized unless the power has failed and one of them was not on disk. */
  lemma RecognizedAtEnd(env: Env, s0: State, a: RestoreArgs, m: Manifest, cut: nat, states: seq<State>,
                        events: seq<Event>, i: nat, p: Pend)
    requires Goes(env, s0.used, s0.vol, a, m) && History(env, states, events) && QuietAlong(env, states, events)
    requires states[0] == After(env, s0, a, m, cut) && i < |states|
    requires p == Begins(env, s0.vol, a, m) && Held(env, p, states[i])
    ensures OriginalsSynced(env, s0.vol) || !PowerFails(events) ==>
              Recognizes(states[i].vol, JournalFor(env, s0.vol, a, m))
  {
    assert GoodWith(SiteOf(env, Just(p)), states[i].used, states[i].vol, Some(p));
    if OriginalsSynced(env, s0.vol) {
      SyncedRecognizes(env, s0.used, s0.vol, a, m, states[i].vol);
    } else if !PowerFails(events) {
      UnchangedAlong(env, s0, a, m, cut, states, events, i);
      UnchangedRecognizes(env, s0.used, s0.vol, a, m, states[i].vol);
    }
  }

  /** A restore cut short anywhere behind its first marker, then any number of resumes cut short anywhere,
      refused restores and power losses, and then, if a marker is there, one uninterrupted resume: this ends
      exactly where the restore would have ended uninterrupted, with that restore's recovery completed, if
      and only if the journal can be read back and the originals are still recognized. They are unless the
      power has failed and one of them was not on disk when the restore began. */
  lemma InterruptedEndsTheSame(env: Env, s0: State, a: RestoreArgs, m: Manifest, cut: nat,
                               states: seq<State>, events: seq<Event>, fin: ResumeArgs)
    requires EnvOk(env) && Goes(env, s0.used, s0.vol, a, m)
    requires History(env, states, events) && QuietAlong(env, states, events) && states[0] == After(env, s0, a, m, cut)
    requires HasMarker(env, states[0]) && HasMarker(env, states[|states| - 1])
    requires var s := states[|states| - 1]; TempsOk(env, s.used, s.vol, fin.t0, fin.t1)
    requires fin.apply && fin.anchored && fin.inspected
    ensures var v := states[|states| - 1].vol; var p, j := Begins(env, s0.vol, a, m), JournalFor(env, s0.vol, a, m);
            Completed(SiteOf(env, Just(p)), Resume(env, v, fin, |PlannedOps(env, v, fin)|), p) <==>
              Readable(env, j) && Recognizes(v, j)
    ensures OriginalsSynced(env, s0.vol) || !PowerFails(events) ==>
              Recognizes(states[|states| - 1].vol, JournalFor(env, s0.vol, a, m))
    ensures var v := states[|states| - 1].vol;
            !PowerFails(events) ==> Unchanged(s0.vol, Resume(env, v, fin, |PlannedOps(env, v, fin)|))
    ensures var p := Begins(env, s0.vol, a, m);
            forall n: nat :: a.rest.anchored && a.rest.inspected && n >= |RestoreOps(env, s0.vol, a, m)| ==>
              (Completed(SiteOf(env, Just(p)), RestoreWith(env, s0.vol, a, m, n), p) <==>
                 Readable(env, JournalFor(env, s0.vol, a, m)))
  {
    var p, j, n := Begins(env, s0.vol, a, m), JournalFor(env, s0.vol, a, m), |states| - 1;
    HeldAtEnd(env, s0, a, m, cut, states, events, n, p, j);
    RecognizedAtEnd(env, s0, a, m, cut, states, events, n, p);
    FinishHeld(env, p, j, states[n], fin);
    if !PowerFails(events) {
      UnchangedAlong(env, s0, a, m, cut, states, events, n);
      FinishUnchanged(env, s0.vol, states[n], fin, |PlannedOps(env, states[n].vol, fin)|);
    }
    forall n: nat | a.rest.anchored && a.rest.inspected && n >= |RestoreOps(env, s0.vol, a, m)|
      ensures Completed(SiteOf(env, Just(p)), RestoreWith(env, s0.vol, a, m, n), p) <==> Readable(env, j)
    {
      RestoreFinishesIff(env, s0.used, s0.vol, a, m, n, p);
    }
  }

  lemma FinishUnchanged(env: Env, v: Vol, s: State, fin: ResumeArgs, cut: nat)
    requires Unchanged(v, s.vol) && TempsOk(env, s.used, s.vol, fin.t0, fin.t1)
    ensures Unchanged(v, Resume(env, s.vol, fin, cut))
  {
    UnchangedStep(env, v, s, ResumeRun(fin, cut), State(Resume(env, s.vol, fin, cut), s.used));
  }

  lemma FinishHeld(env: Env, p: Pend, j: Journal, s: State, fin: ResumeArgs)
    requires EnvOk(env) && Wrote(env, p, j) && Held(env, p, s) && HasMarker(env, s)
    requires TempsOk(env, s.used, s.vol, fin.t0, fin.t1) && fin.apply && fin.anchored && fin.inspected
    ensures Completed(SiteOf(env, Just(p)), Resume(env, s.vol, fin, |PlannedOps(env, s.vol, fin)|), p) <==>
              Readable(env, j) && Recognizes(s.vol, j)
  {
    var o :| GoodWith(SiteOf(env, Just(p)), s.used, s.vol, o);
    if Readable(env, j) && Recognizes(s.vol, j) {
      ResumeOpsSafe(env, Just(p), s.used, s.vol, p, j, fin);
    } else {
      RefusedStays(env, p, j, s.vol, fin);
    }
  }

  /** A resume that refuses leaves the marker that was there. */
  lemma RefusedStays(env: Env, p: Pend, j: Journal, v: Vol, fin: ResumeArgs)
    requires Active(v, RootOf(env), p) && Wrote(env, p, j) && Marked(RootOf(env), v.Live(env.data))
    requires !(Readable(env, j) && Recognizes(v, j))
    ensures PlannedOps(env, v, fin) == [] && !Completed(SiteOf(env, Just(p)), v, p)
  {
    PlannedIff(env, v, p, j);
    if Unmarked(v, RootOf(env)) { UnmarkedLive(v, RootOf(env)); }
  }

  /** From the first marker of a restore on, through any number of resumes cut short anywhere, refused
      restores and power losses, and long after the markers are gone: whatever a further power loss
      leaves, no original and no copy is lost, the copies and the originals that were on disk when the
      restore began are unchanged, and the files are all as before or all installed, unless a marker is
      there. */
  lemma AllOrNothing(env: Env, s0: State, a: RestoreArgs, m: Manifest, cut: nat, states: seq<State>,
                     events: seq<Event>, i: nat, w: Vol, cuts: string -> nat)
    requires EnvOk(env) && Goes(env, s0.used, s0.vol, a, m)
    requires History(env, states, events) && QuietAlong(env, states, events) && states[0] == After(env, s0, a, m, cut)
    requires HasMarker(env, states[0]) && i < |states| && Lost(states[i].vol, w, cuts)
    ensures var p := Begins(env, s0.vol, a, m);
            && (Marked(RootOf(env), w.Live(env.data)) || AllIn(w, p, Ready) || AllIn(w, p, Installed))
            && (forall k :: 0 <= k < |p.slots| ==> Accounted(p.slots[k], w.Live(p.slots[k].names.dir)))
            && Fixed(w, p.fixed)
  {
    var p := Begins(env, s0.vol, a, m);
    HeldAtEnd(env, s0, a, m, cut, states, events, i, p, JournalFor(env, s0.vol, a, m));
    HeldOutcome(env, p, states[i], w, cuts);
    forall k | 0 <= k < |p.slots| ensures p.slots[k].original != Some(p.slots[k].copy) {
      if p.slots[k].original.Some? { OriginalNode(env, s0.used, s0.vol, a, m, k); }
    }
  }

  lemma HeldOutcome(env: Env, p: Pend, s: State, w: Vol, cuts: string -> nat)
    requires Held(env, p, s) && Lost(s.vol, w, cuts)
    ensures Marked(RootOf(env), w.Live(env.data)) || AllIn(w, p, Ready) || AllIn(w, p, Installed)
    ensures forall k :: 0 <= k < |p.slots| && p.slots[k].original != Some(p.slots[k].copy) ==>
              Accounted(p.slots[k], w.Live(p.slots[k].names.dir))
    ensures Fixed(w, p.fixed)
  {
    assert GoodWith(SiteOf(env, Just(p)), s.used, s.vol, Some(p));
    if !Marked(RootOf(env), w.Live(env.data)) { NoMixtureUnmarked(env, s.vol, w, cuts, p); }
    LossActive(s.vol, w, cuts, RootOf(env), p);
    forall k | 0 <= k < |p.slots| && p.slots[k].original != Some(p.slots[k].copy)
      ensures Accounted(p.slots[k], w.Live(p.slots[k].names.dir))
    {
      NothingLost(w, RootOf(env), p, k, |w.Dir(p.slots[k].names.dir).queue|);
    }
  }

  /** A completed recovery is not undone by any of this. */
  lemma CompletedStep(env: Env, p: Pend, s: State, e: Event, t: State)
    requires Completed(SiteOf(env, Just(p)), s.vol, p) && Step(env, s, e, t) && Quiet(env, s, e)
    ensures Completed(SiteOf(env, Just(p)), t.vol, p)
  {
    match e {
      case RestoreRun(a, cut) =>
      case ResumeRun(a, cut) =>
        UnmarkedLive(s.vol, RootOf(env));
        NothingPending(env, s.vol, a);
      case PowerLoss(cuts) =>
        AllAlwaysLost(s.vol, t.vol, cuts, p.slots, {Installed});
        LossRoot(s.vol, t.vol, cuts, RootOf(env));
    }
  }

  /** Once completed, completed for good: every target stays the checkpoint copy, every backup the original,
      and no marker comes back. */
  lemma CompletedForGood(env: Env, p: Pend, states: seq<State>, events: seq<Event>, i: nat)
    requires History(env, states, events) && QuietAlong(env, states, events) && i < |states|
    requires Completed(SiteOf(env, Just(p)), states[0].vol, p)
    ensures Completed(SiteOf(env, Just(p)), states[i].vol, p)
  {
    forall s: State, e, t | Completed(SiteOf(env, Just(p)), s.vol, p) && Step(env, s, e, t) && Quiet(env, s, e)
      ensures Completed(SiteOf(env, Just(p)), t.vol, p)
    {
      CompletedStep(env, p, s, e, t);
    }
    Along(states, events, (s, e, t) => Step(env, s, e, t) && Quiet(env, s, e),
          (s: State) => Completed(SiteOf(env, Just(p)), s.vol, p), i);
  }

  // ---------------------------------------------------------------------------------------------
  // Contents

  /** What the restore that began the recovery puts at a target: the checkpoint's file. */
  lemma RestoredContents(env: Env, used: set<string>, v: Vol, a: RestoreArgs, m: Manifest, w: Vol, i: nat)
    requires Goes(env, used, v, a, m) && i < |env.files|
    requires var p := Begins(env, v, a, m); Completed(SiteOf(env, Just(p)), w, p)
    ensures var f := env.files[i]; var t := Target(env.data, f); var d := Parent(t);
            && Shows(w, d, t).Some? && Shows(w, d, t).value.content == Bytes(a.contents[f])
            && Holds(w.Live(d), Backup(env.data, f, a.token), InoAt(v, t))
            && (OriginalsSynced(env, v) || Unchanged(v, w) ==>
                  Shows(w, d, Backup(env.data, f, a.token)) == Shows(v, d, t))
            && Staged(env.data, f, a.token) !in w.Live(d)
            && !Marked(RootOf(env), w.Live(env.data))
  {
    var p := Begins(env, v, a, m);
    CopyNode(env, used, v, a, m, i);
    if SlotOf(env, v, a, i).original.Some? {
      assert InoAt(v, TargetAt(env, i)).Some?;
      OriginalNode(env, used, v, a, m, i);
    }
    CompletedShows(env, Just(p), w, p, i);
  }

  /** Two completed runs of one recovery have the same files at all its names. */
  lemma CompletedAgree(env: Env, ours: Scope, v: Vol, w: Vol, p: Pend, i: nat)
    requires Completed(SiteOf(env, ours), v, p) && Completed(SiteOf(env, ours), w, p) && i < |p.slots|
    requires Known(p, p.slots[i])
    ensures var n := p.slots[i].names;
            forall x :: x in n.All() ==>
              && (x in v.Live(n.dir) <==> x in w.Live(n.dir))
              && (x in v.Live(n.dir) ==> v.Live(n.dir)[x] == w.Live(n.dir)[x])
              && ((p.slots[i].original.Some? ==> p.slots[i].original.value in p.fixed) ==>
                    Shows(v, n.dir, x) == Shows(w, n.dir, x))
  {
    CompletedShows(env, ours, v, p, i);
    CompletedShows(env, ours, w, p, i);
  }

  /** From the data files at creation, through a complete generation, a restore and whatever finished
      it, to the targets: the contents are the same. */
  lemma CheckpointToTarget(env: Env, sources: map<string, Generations.Source>, t: Tree, used: set<string>, v: Vol,
                           a: RestoreArgs, m: Manifest, w: Vol, i: nat)
    requires Complete(env, t) && Faithful(env, sources, t) && a.manifest == t.manifest.value && a.contents == t.files
    requires Goes(env, used, v, a, m) && i < |env.files|
    requires var p := Begins(env, v, a, m); Completed(SiteOf(env, Just(p)), w, p)
    requires var s := sources[env.files[i]]; Honest(s.layout, s.content)
    ensures var target := Target(env.data, env.files[i]);
            Shows(w, Parent(target), target).Some?
                && Shows(w, Parent(target), target).value.content == Bytes(sources[env.files[i]].content)
  {
    RestoredContents(env, used, v, a, m, w, i);
  }

  /** A complete generation is approved whenever nothing is pending and nobody objects. */
  lemma CompleteIsApproved(env: Env, t: Tree, v: Vol, a: RestoreArgs)
    requires Complete(env, t) && a.manifest == t.manifest.value && a.contents == t.files && |a.copies| == |env.files|
    requires !Marked(RootOf(env), v.Live(env.data)) && a.apply && a.usable && a.roomy
    ensures Approved(env, v, a).Some?
  {
  }

  /** On a sound volume nothing but an interruption can stop a resume that has decided to apply. */
  lemma SoundIsRunnable(env: Env, s: State, a: ResumeArgs)
    requires EnvOk(env) && Sound(env, s) && TempsOk(env, s.used, s.vol, a.t0, a.t1)
    ensures Runnable(PlannedOps(env, s.vol, a), s.vol)
  {
    if Marked(RootOf(env), s.vol.Live(env.data)) {
      var p, j, phases := ResumeNeverMisreads(env, s);
      ResumeOpsSafe(env, Any(env), s.used, s.vol, p, j, a);
      SafeIsRunnable(SiteOf(env, Any(env)), s.used, PlannedOps(env, s.vol, a), s.vol);
    } else {
      NothingPending(env, s.vol, a);
    }
  }

  /** One file that fails its check keeps `resume` from touching any. */
  lemma OneBadFileStopsAll(env: Env, v: Vol, doc: Json, j: Journal, i: nat, a: ResumeArgs, cut: nat)
    requires Present(env, v) != [] && forall k :: 0 <= k < |Present(env, v)| ==>
               ReadDoc(v, Present(env, v)[k]) == Some(doc)
    requires RecoveryEntries(env.data, env.files, doc) == Some(j) && i < |env.files| && PhaseAt(env, v, j, i).None?
    ensures MakePlan(env, v) == Declined(FileCheck) && Resume(env, v, a, cut) == v
  {
    BadFilePlan(env, v, doc, j, i);
    DeclinedChangesNothing(env, v, a, cut);
  }

  lemma BadFilePlan(env: Env, v: Vol, doc: Json, j: Journal, i: nat)
    requires Present(env, v) != [] && forall k :: 0 <= k < |Present(env, v)| ==>
               ReadDoc(v, Present(env, v)[k]) == Some(doc)
    requires RecoveryEntries(env.data, env.files, doc) == Some(j) && i < |env.files| && PhaseAt(env, v, j, i).None?
    ensures MakePlan(env, v) == Declined(FileCheck)
  {
    PlanReads(env, v, Some(doc));
    BadPlan(env, v, doc, j, i);
  }

  lemma DeclinedChangesNothing(env: Env, v: Vol, a: ResumeArgs, cut: nat)
    ensures MakePlan(env, v).Declined? ==> Resume(env, v, a, cut) == v
  {
  }
}
