/** Which names a resume may touch, on any volume at all, whatever its journal says. */
module Frame {
  import opened Volumes
  import opened Recoveries
  import opened Protocol
  import opened Swapping
  import opened Staging
  import opened Json
  import opened Manifests
  import opened Paths
  import opened Journals
  import opened Tool

  /** The names an operation changes in its directory. */
  function NamesIn(op: Op<string, Content>): set<string> {
    match op
    case Create(_, path, _, _) => {path}
    case Write(_, _, _) => {}
    case SyncFile(_, _) => {}
    case SyncDir(_) => {}
    case Rename(_, from, to) => {from, to}
    case Unlink(_, path) => {path}
  }

  ghost predicate Within(ops: seq<Op<string, Content>>, allowed: set<string>) {
    forall i :: 0 <= i < |ops| ==> NamesIn(ops[i]) <= allowed
  }

  lemma WithinConcat(a: seq<Op<string, Content>>, b: seq<Op<string, Content>>, allowed: set<string>)
    requires Within(a, allowed) && Within(b, allowed)
    ensures Within(a + b, allowed)
  {
  }

  ghost predicate SameAt(v: Vol, w: Vol, d: string, x: string) {
    (x in v.Live(d) <==> x in w.Live(d)) && (x in v.Live(d) ==> v.Live(d)[x] == w.Live(d)[x])
  }

  /** None of the operations concerns this name of this directory. */
  ghost predicate Spares(ops: seq<Op<string, Content>>, d: string, x: string) {
    forall i :: 0 <= i < |ops| ==> ops[i].dir != d || x !in NamesIn(ops[i])
  }

  lemma ApplyElsewhere(op: Op<string, Content>, v: Vol, d: string, x: string)
    requires op.dir != d || x !in NamesIn(op)
    ensures SameAt(v, Apply(op, v), d, x)
  {
    var q := v.Dir(op.dir);
    SyncedViews(q, 0);
    match op {
      case Create(_, path, ino, _) => QueuedViews(q, Link(path, ino), |q.queue| + 1);
      case Rename(_, from, to) => QueuedViews(q, Move(from, to), |q.queue| + 1);
      case Unlink(_, path) => QueuedViews(q, Drop(path), |q.queue| + 1);
      case _ =>
    }
    if d != op.dir { assert Apply(op, v).Dir(d) == v.Dir(d); }
  }

  lemma {:induction false} ExecElsewhere(ops: seq<Op<string, Content>>, v: Vol, d: string, x: string)
    requires Spares(ops, d, x)
    ensures SameAt(v, Exec(ops, v), d, x)
  {
    if ops != [] {
      ApplyElsewhere(ops[0], v, d, x);
      ExecElsewhere(ops[1..], Apply(ops[0], v), d, x);
    }
  }

  /** The whitelist's names with the journal's token, the markers, and the two temporary names. */
  function Allowed(env: Env, token: string, a: ResumeArgs): set<string> {
    var root := RootOf(env);
    (set i | 0 <= i < |env.files| :: Target(env.data, env.files[i]))
    + (set i | 0 <= i < |env.files| :: Staged(env.data, env.files[i], token))
    + (set i | 0 <= i < |env.files| :: Backup(env.data, env.files[i], token))
    + {root.m0, root.m1, root.m0 + ".writing-" + a.t0.suffix, root.m1 + ".writing-" + a.t1.suffix}
  }

  lemma {:induction false} SwapsWithin(tracks: seq<(Names<string>, bool)>, phases: seq<Phase>, i: nat,
                                       allowed: set<string>)
    requires |tracks| == |phases| && i <= |tracks|
    requires forall k :: 0 <= k < |tracks| ==> tracks[k].0.All() <= allowed
    ensures Within(SwapsFrom(tracks, phases, i), allowed)
    decreases |tracks| - i
  {
    if i < |tracks| {
      SwapsWithin(tracks, phases, i + 1, allowed);
      assert tracks[i].0.All() <= allowed;
      WithinConcat(SwapOps(tracks[i].0, tracks[i].1, phases[i]), SwapsFrom(tracks, phases, i + 1), allowed);
    }
  }

  lemma PublishWithin(root: Root<string>, m: string, f: NewFile<string, Content>, allowed: set<string>)
    requires m in allowed && f.path in allowed
    ensures Within(PublishOps(root, m, f), allowed)
  {
  }

  lemma MarkersWithin(env: Env, live: map<string, Ino>, token: string, a: ResumeArgs, doc: Json)
    ensures var root := RootOf(env);
            Within(RemarkOps(root, live, MarkerFile(env, root.m0, a.t0, doc), MarkerFile(env, root.m1, a.t1, doc)),
                   Allowed(env, token, a))
    ensures Within(UnmarkOps(RootOf(env)), Allowed(env, token, a))
  {
    var root := RootOf(env);
    PublishWithin(root, root.m0, MarkerFile(env, root.m0, a.t0, doc), Allowed(env, token, a));
    PublishWithin(root, root.m1, MarkerFile(env, root.m1, a.t1, doc), Allowed(env, token, a));
  }

  /** The names of an accepted journal are those of the whitelist. */
  lemma TracksWithin(env: Env, doc: Json, a: ResumeArgs)
    requires EnvOk(env) && RecoveryEntries(env.data, env.files, doc).Some?
    ensures var j := RecoveryEntries(env.data, env.files, doc).value;
            forall k :: 0 <= k < |TracksOf(j)| ==> TracksOf(j)[k].0.All() <= Allowed(env, j.token, a)
  {
    var j := RecoveryEntries(env.data, env.files, doc).value;
    forall k | 0 <= k < |TracksOf(j)|
      ensures TracksOf(j)[k].0.All() <= Allowed(env, j.token, a)
    {
      AcceptedNames(env.data, env.files, doc, k, k);
      var f := env.files[k];
      assert Target(env.data, f) in (set i | 0 <= i < |env.files| :: Target(env.data, env.files[i]));
      assert Staged(env.data, f, j.token) in (set i | 0 <= i < |env.files| :: Staged(env.data, env.files[i], j.token));
      assert Backup(env.data, f, j.token) in (set i | 0 <= i < |env.files| :: Backup(env.data, env.files[i], j.token));
    }
  }

  lemma OpsWithin(env: Env, v: Vol, a: ResumeArgs, p: Plan)
    requires EnvOk(env) && p.Planned? && |p.phases| == |p.journal.changes|
    requires RecoveryEntries(env.data, env.files, p.doc) == Some(p.journal)
    ensures Within(OpsFor(env, v, a, p), Allowed(env, p.journal.token, a))
  {
    var root, allowed, tracks := RootOf(env), Allowed(env, p.journal.token, a), TracksOf(p.journal);
    TracksWithin(env, p.doc, a);
    SwapsWithin(tracks, p.phases, 0, allowed);
    MarkersWithin(env, v.Live(env.data), p.journal.token, a, p.doc);
    WithinConcat(SwapsFrom(tracks, p.phases, 0), if a.inspected then UnmarkOps(root) else [], allowed);
    WithinConcat(RemarkOps(root, v.Live(env.data), MarkerFile(env, root.m0, a.t0, p.doc),
                           MarkerFile(env, root.m1, a.t1, p.doc)),
                 FinishOps(root, tracks, p.phases, a.inspected), allowed);
  }

  lemma PlannedDoc(env: Env, v: Vol)
    requires MakePlan(env, v).Planned?
    ensures RecoveryEntries(env.data, env.files, MakePlan(env, v).doc) == Some(MakePlan(env, v).journal)
  {
  }

  lemma WithinCut(ops: seq<Op<string, Content>>, n: nat, allowed: set<string>)
    requires Within(ops, allowed)
    ensures Within(Cut(ops, n), allowed)
  {
  }

  /** On any volume, tampered with or not: if `resume` accepts what it finds, then wherever it is cut
      short, every other name in every directory leads to the same file as before. If it does not accept,
      the volume is untouched. */
  lemma ResumeStaysWithin(env: Env, v: Vol, a: ResumeArgs, cut: nat, d: string, x: string)
    requires EnvOk(env)
    ensures MakePlan(env, v).Declined? || !a.anchored || !a.apply ==> Resume(env, v, a, cut) == v
    ensures MakePlan(env, v).Planned? && x !in Allowed(env, MakePlan(env, v).journal.token, a) ==>
              SameAt(v, Resume(env, v, a, cut), d, x)
  {
    var p := MakePlan(env, v);
    if p.Planned? && x !in Allowed(env, p.journal.token, a) {
      PlannedDoc(env, v);
      OpsWithin(env, v, a, p);
      ResumeElsewhere(env, v, a, p, cut, d, x);
    }
  }

  lemma ResumeElsewhere(env: Env, v: Vol, a: ResumeArgs, p: Plan, cut: nat, d: string, x: string)
    requires p.Planned? && |p.phases| == |p.journal.changes| && x !in Allowed(env, p.journal.token, a)
    requires Within(OpsFor(env, v, a, p), Allowed(env, p.journal.token, a))
    ensures SameAt(v, Exec(Cut(OpsFor(env, v, a, p), cut), v), d, x)
  {
    WithinCut(OpsFor(env, v, a, p), cut, Allowed(env, p.journal.token, a));
    ExecElsewhere(Cut(OpsFor(env, v, a, p), cut), v, d, x);
  }

  // ---------------------------------------------------------------------------------------------
  // Before the markers stand

  lemma {:induction false} StageSpares(dirs: seq<string>, files: seq<NewFile<string, Content>>, i: nat, d: string,
                                       x: string)
    requires |dirs| == |files| && i <= |files| && forall k :: 0 <= k < |files| ==> files[k].path != x
    ensures Spares(StageFrom(dirs, files, i), d, x)
    decreases |files| - i
  {
    if i < |files| { StageSpares(dirs, files, i + 1, d, x); }
  }

  lemma PublishSpares(root: Root<string>, m: string, f: NewFile<string, Content>, d: string, x: string)
    requires d != root.dir || (x != m && x != f.path)
    ensures Spares(PublishOps(root, m, f), d, x)
  {
  }

  /** The staged copies have names of their own. */
  lemma CopiesApart(env: Env, a: RestoreArgs, m: Manifest, x: string)
    requires Applicable(env, a, m) && IsHex(a.token, 32) && !EndsInHex(x)
    ensures forall k :: 0 <= k < |CopyFiles(env, a, m)| ==> CopyFiles(env, a, m)[k].path != x
  {
    forall k | 0 <= k < |env.files| ensures Staged(env.data, env.files[k], a.token) != x {
      TokenEnds(Target(env.data, env.files[k]), ".restore-", a.token);
    }
  }

  /** Every copy is staged and both markers stand before a restore touches the first target: as long as it
      has not got that far, every target leads to the same file as before, on any volume. */
  lemma RestoreStagesFirst(env: Env, v: Vol, a: RestoreArgs, m: Manifest, cut: nat, i: nat)
    requires EnvOk(env) && Applicable(env, a, m) && IsHex(a.token, 32) && i < |env.files|
    requires cut <= |BeginOpsOf(env, v, a, m)|
    ensures var t := Target(env.data, env.files[i]); SameAt(v, RestoreWith(env, v, a, m, cut), Parent(t), t)
  {
    var t := Target(env.data, env.files[i]);
    var root, doc, files := RootOf(env), Encode(JournalFor(env, v, a, m)), CopyFiles(env, a, m);
    var f0, f1 := MarkerFile(env, root.m0, a.t0, doc), MarkerFile(env, root.m1, a.t1, doc);
    ParentBelow(env.data + "/", env.files[i]);
    TargetEnds(env.data, env.files[i]);
    CopiesApart(env, a, m, t);
    StageSpares(FileDirs(env), files, 0, Parent(t), t);
    PublishSpares(root, root.m0, f0, Parent(t), t);
    PublishSpares(root, root.m1, f1, Parent(t), t);
    BeginElsewhere(v, BeginOpsOf(env, v, a, m), PlannedOps(env, Midway(env, v, a, m), Rest(a)), cut, Parent(t), t);
  }

  lemma BeginElsewhere(v: Vol, first: seq<Op<string, Content>>, second: seq<Op<string, Content>>, cut: nat, d: string,
                       x: string)
    requires Spares(first, d, x) && cut <= |first|
    ensures SameAt(v, Exec(Cut(first + second, cut), v), d, x)
  {
    assert Cut(first + second, cut) == first[..cut];
    ExecElsewhere(first[..cut], v, d, x);
  }
}
