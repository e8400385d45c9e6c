/** The tool as it runs: `resume`, `restore` and their helpers, one file operation after the other.
    A session has so many operations left before it is interrupted; every one may be the last. */
module Sessions {
  import opened Volumes
  import opened Recoveries
  import opened Protocol
  import opened Swapping
  import opened Staging
  import opened SparseFile
  import opened Json
  import opened Manifests
  import opened Journals
  import opened Tool

  /** How a run ends: refused, a preview, interrupted or stopped by an exception, with the markers kept
      because the inspector objected to the result, or finished. */
  datatype Ending = Rejected(why: Refusal) | Preview | Interrupted | Retained | Finished

  lemma {:induction false} SafeIsRunnable(site: Site<string, Content>, used: set<string>,
                                          ops: seq<Op<string, Content>>, v: Vol)
    requires SafeRun(site, used, ops, v)
    ensures Runnable(ops, v)
  {
    if ops != [] { SafeIsRunnable(site, used, ops[1..], Apply(ops[0], v)); }
  }

  /** Publishing one marker does not concern the other. */
  lemma PublishOther(v: Vol, root: Root<string>, m: string, f: NewFile<string, Content>, x: string)
    requires x != m && x != f.path
    ensures x in Exec(PublishOps(root, m, f), v).Live(root.dir) <==> x in v.Live(root.dir)
  {
    var d := root.dir;
    ExecConcat(NewFileOps(d, f), [Rename(d, f.path, m)] + [SyncDir(d)], v);
    NewFileLive(v, d, f);
    var w := Exec(NewFileOps(d, f), v);
    QueuedViews(w.Dir(d), Move(f.path, m), |w.Dir(d).queue| + 1);
    var w1 := Apply(Op<string, Content>.Rename(d, f.path, m), w);
    SyncedViews(w1.Dir(d), 0);
    ExecCons(Rename(d, f.path, m), [SyncDir(d)], w);
    ExecOne(SyncDir(d), w1);
  }

  lemma MadeLive(v: Vol, d: string, f: NewFile<string, Content>)
    ensures Apply(SyncDir(d),
                  Apply(SyncFile(d, f.path),
                        Apply(Write(d, f.path, f.full), Apply(Create(d, f.path, f.ino, f.blank), v)))).Live(d)
         == v.Live(d)[f.path := f.ino]
  {
    QueuedViews(v.Dir(d), Link(f.path, f.ino), |v.Dir(d).queue| + 1);
    var v1 := Apply(Op<string, Content>.Create(d, f.path, f.ino, f.blank), v);
    var v3 := Apply(SyncFile(d, f.path), Apply(Op<string, Content>.Write(d, f.path, f.full), v1));
    assert v3.dirs == v1.dirs;
    assert v3.Live(d) == v.Live(d)[f.path := f.ino];
    SyncedViews(v3.Dir(d), 0);
  }

  lemma NewFileLive(v: Vol, d: string, f: NewFile<string, Content>)
    ensures Exec(NewFileOps(d, f), v).Live(d) == v.Live(d)[f.path := f.ino]
  {
    var op0, op1, op2, op3: Op<string, Content> := Create(d, f.path, f.ino, f.blank), Write(d, f.path, f.full),
        SyncFile(d, f.path), SyncDir(d);
    var v1 := Apply(op0, v);
    var v3 := Apply(op2, Apply(op1, v1));
    MadeLive(v, d, f);
    ExecCons(op0, [op1] + ([op2] + [op3]), v);
    ExecCons(op1, [op2] + [op3], v1);
    ExecCons(op2, [op3], Apply(op1, v1));
    ExecOne(op3, v3);
  }

  lemma TempApart(env: Env, t: Temp)
    requires Apart(env)
    ensures env.m0 + ".writing-" + t.suffix != env.m1 && env.m0 != env.m1
  {
    MarkersApart(env, ".writing-" + t.suffix, "");
    assert env.m0 + ".writing-" + t.suffix == env.m0 + (".writing-" + t.suffix) && env.m1 + "" == env.m1;
  }

  /** How a resume ends, from what its checks came to and the answers it was given. */
  predicate EndsAs(p: Plan, a: ResumeArgs, r: Ending) {
    match r
    case Rejected(why) => if p.Declined? then why == p.why else !a.anchored && why == Inspector
    case Preview => p.Planned? && a.anchored && !a.apply
    case Interrupted => p.Planned? && a.anchored && a.apply
    case Retained => p.Planned? && a.anchored && a.apply && !a.inspected
    case Finished => p.Planned? && a.anchored && a.apply && a.inspected
  }

  /** `verify(checkpoint)` raises nothing. */
  predicate CheckpointGood(env: Env, a: RestoreArgs) {
    env.printed(a.manifest) <= MAX_METADATA && var m := DecodeManifest(env.files, a.manifest);
    m.Some? && CheckpointOk(env, m.value, a.contents)
  }

  /** How a restore ends that does not go ahead: its checks in order. */
  predicate Spurned(env: Env, v: Vol, a: RestoreArgs, r: Ending) {
    var pending := env.m0 in v.Live(env.data) || env.m1 in v.Live(env.data);
    match r
    case Rejected(why) =>
      if pending then why == MarkerExists
      else if !CheckpointGood(env, a) then why == BadCheckpoint
      else if !a.usable then why == Inspector
      else a.apply && !a.roomy && why == NoRoom
    case Preview => !pending && CheckpointGood(env, a) && a.usable && !a.apply
    case _ => false
  }

  class Session {
    const env: Env
    var vol: Vol
    var fuel: nat
    ghost const start: Vol
    ghost const budget: nat
    /** What the checks of `resume` come to and what it then does; which manifest `restore` goes ahead with, and
        what it then does: `Tool.MakePlan`, `Tool.PlannedOps`, `Tool.Approved` and `Tool.RestoreOps`. */
    ghost const planner: Vol -> Plan
    ghost const doer: (Vol, ResumeArgs) -> seq<Op<string, Content>>
    ghost const chooser: (Vol, RestoreArgs) -> Option<Manifest>
    ghost const restorer: (Vol, RestoreArgs, Manifest) -> seq<Op<string, Content>>
    /** The operations done so far, and those that are to follow. */
    ghost var log: seq<Op<string, Content>>
    ghost var plan: seq<Op<string, Content>>

    ghost predicate Valid()
      reads this
    {
      vol == Exec(log, start) && fuel + |log| == budget
    }

    ghost predicate Mirrors() {
      && Apart(env)
      && (forall v {:trigger MakePlan(env, v)} :: planner(v) == MakePlan(env, v))
      && (forall v, a {:trigger PlannedOps(env, v, a)} :: doer(v, a) == PlannedOps(env, v, a))
      && (forall v, a {:trigger Approved(env, v, a)} :: chooser(v, a) == Approved(env, v, a))
      && (forall v, a, m {:trigger RestoreOps(env, v, a, m)} :: Applicable(env, a, m) ==>
            restorer(v, a, m) == RestoreOps(env, v, a, m))
    }

    /** Nothing stands in the way of what is planned. */
    ghost predicate Ample()
      reads this
    {
      Runnable(plan, vol) && fuel >= |plan|
    }

    constructor (env: Env, vol: Vol, fuel: nat)
      requires Apart(env)
      ensures Valid() && Mirrors() && this.env == env && this.vol == vol && this.fuel == fuel && log == []
    {
      this.env, this.vol, this.fuel, this.start, this.budget, this.log, this.plan := env, vol, fuel, vol, fuel, [], [];
      this.planner, this.doer := v => MakePlan(env, v), (v, a) => PlannedOps(env, v, a);
      this.chooser := (v, a) => Approved(env, v, a);
      this.restorer := (v, a, m) => if Applicable(env, a, m) then RestoreOps(env, v, a, m) else [];
    }

    /** One file operation: it happens, or the run ends here. */
    method Do(op: Op<string, Content>) returns (ok: bool)
      requires Valid() && plan != [] && plan[0] == op
      modifies this`vol, this`fuel, this`log, this`plan
      ensures Valid() && log + plan == old(log + plan) && old(log) <= log
      ensures ok ==> plan == old(plan)[1..] && vol == Apply(op, old(vol)) && Enabled(op, old(vol))
      ensures !ok ==> vol == old(vol)
      ensures old(Ample()) ==> ok && Ample()
    {
      ok := fuel > 0 && Enabled(op, vol);
      if ok {
        ExecConcat(log, [op], start);
        vol := Apply(op, vol);
        fuel := fuel - 1;
        log := log + [op];
        plan := plan[1..];
      }
    }

    /** `path.open("x")`, the writes, `sync_file`, and `sync_dir` of the parent. */
    method NewFileAt(d: string, f: NewFile<string, Content>) returns (ok: bool)
      requires Valid() && NewFileOps(d, f) <= plan
      modifies this`vol, this`fuel, this`log, this`plan
      ensures Valid() && log + plan == old(log + plan) && old(log) <= log
      ensures ok ==> plan == old(plan)[4..] && vol.Live(d) == old(vol).Live(d)[f.path := f.ino]
      ensures old(Ample()) ==> ok && Ample()
    {
      ghost var v := vol;
      FirstFour(Create(d, f.path, f.ino, f.blank), Write(d, f.path, f.full), SyncFile(d, f.path), SyncDir(d), plan);
      ok := Do(Create(d, f.path, f.ino, f.blank));
      if !ok { return; }
      ok := Do(Write(d, f.path, f.full));
      if !ok { return; }
      ok := Do(SyncFile(d, f.path));
      if !ok { return; }
      ok := Do(SyncDir(d));
      if ok { MadeLive(v, d, f); }
    }

    /** `publish_journal`. */
    method PublishJournal(m: string, f: NewFile<string, Content>) returns (ok: bool)
      requires Valid() && PublishOps(RootOf(env), m, f) <= plan
      modifies this`vol, this`fuel, this`log, this`plan
      ensures Valid() && log + plan == old(log + plan) && old(log) <= log
      ensures ok ==> plan == old(plan)[6..] && vol == Exec(PublishOps(RootOf(env), m, f), old(vol))
      ensures m in old(vol).Live(env.data) ==> !ok
      ensures old(Ample()) ==> ok && Ample()
    {
      ghost var ops, before, rest := PublishOps(RootOf(env), m, f), log, plan[6..];
      assert plan == ops + rest;
      ok := NewFileAt(env.data, f);
      if !ok { return; }
      assert plan[0] == Rename(env.data, f.path, m) && plan[1] == SyncDir(env.data);
      if m in vol.Live(env.data) { return false; }
      ok := Do(Rename(env.data, f.path, m));
      if !ok { return; }
      ok := Do(SyncDir(env.data));
      if ok {
        Done(before, log, ops, rest);
        ExecConcat(before, ops, start);
      }
    }

    /** Whichever marker is missing is published again. */
    method Remark(f0: NewFile<string, Content>, f1: NewFile<string, Content>) returns (ok: bool)
      requires Valid() && RemarkOps(RootOf(env), vol.Live(env.data), f0, f1) <= plan && env.m0 != env.m1
      requires f0.path != env.m1
      modifies this`vol, this`fuel, this`log, this`plan
      ensures Valid() && log + plan == old(log + plan) && old(log) <= log
      ensures ok ==> plan == old(plan)[|RemarkOps(RootOf(env), old(vol).Live(env.data), f0, f1)|..]
      ensures old(Ample()) ==> ok && Ample()
    {
      ghost var pub0, pub1 := MissingOps(env.m0, f0), MissingOps(env.m1, f1);
      FirstTwo(plan, pub0, pub1);
      PublishOther(vol, RootOf(env), env.m0, f0, env.m1);
      ok := RemarkOne(env.m0, f0);
      if !ok { return; }
      assert MissingOps(env.m1, f1) == pub1;
      ok := RemarkOne(env.m1, f1);
    }

    ghost function MissingOps(m: string, f: NewFile<string, Content>): seq<Op<string, Content>>
      reads this
    {
      if m in vol.Live(env.data) then [] else PublishOps(RootOf(env), m, f)
    }

    method RemarkOne(m: string, f: NewFile<string, Content>) returns (ok: bool)
      requires Valid() && MissingOps(m, f) <= plan
      modifies this`vol, this`fuel, this`log, this`plan
      ensures Valid() && log + plan == old(log + plan) && old(log) <= log
      ensures ok ==> plan == old(plan)[|old(MissingOps(m, f))|..]
      ensures ok ==> vol == if m in old(vol).Live(env.data) then old(vol)
              else Exec(PublishOps(RootOf(env), m, f), old(vol))
      ensures old(Ample()) ==> ok && Ample()
    {
      ok := true;
      if m !in vol.Live(env.data) { ok := PublishJournal(m, f); }
    }

    /** The original is renamed to its backup. */
    method Save(n: Names<string>) returns (ok: bool)
      requires Valid() && [Rename(n.dir, n.target, n.backup)] + [SyncDir(n.dir)] <= plan
      modifies this`vol, this`fuel, this`log, this`plan
      ensures Valid() && log + plan == old(log + plan) && old(log) <= log
      ensures ok ==> plan == old(plan)[2..]
      ensures old(Ample()) ==> ok && Ample()
    {
      ok := Do(Rename(n.dir, n.target, n.backup));
      if !ok { return; }
      ok := Do(SyncDir(n.dir));
    }

    /** The copy is installed unless it already is, and synced in any case. */
    method Install(n: Names<string>, phase: Phase) returns (ok: bool)
      requires Valid()
      requires (if phase.Installed? then [] else [Rename(n.dir, n.staged, n.target)])
               + ([SyncFile(n.dir, n.target)] + [SyncDir(n.dir)]) <= plan
      modifies this`vol, this`fuel, this`log, this`plan
      ensures Valid() && log + plan == old(log + plan) && old(log) <= log
      ensures ok ==> plan == old(plan)[if phase.Installed? then 2 else 3..]
      ensures old(Ample()) ==> ok && Ample()
    {
      if !phase.Installed? {
        ok := Do(Rename(n.dir, n.staged, n.target));
        if !ok { return; }
      }
      ok := Do(SyncFile(n.dir, n.target));
      if !ok { return; }
      ok := Do(SyncDir(n.dir));
    }

    /** The renames one file still needs. */
    method Swap(n: Names<string>, hadOriginal: bool, phase: Phase) returns (ok: bool)
      requires Valid() && SwapOps(n, hadOriginal, phase) <= plan
      modifies this`vol, this`fuel, this`log, this`plan
      ensures Valid() && log + plan == old(log + plan) && old(log) <= log
      ensures ok ==> plan == old(plan)[|SwapOps<string, Content>(n, hadOriginal, phase)|..]
      ensures old(Ample()) ==> ok && Ample()
    {
      if phase.Ready? && hadOriginal {
        ok := Save(n);
        if !ok { return; }
      }
      ok := Install(n, phase);
    }

    method SwapAll(tracks: seq<(Names<string>, bool)>, phases: seq<Phase>) returns (ok: bool)
      requires Valid() && |tracks| == |phases| && SwapsFrom(tracks, phases, 0) <= plan
      modifies this`vol, this`fuel, this`log, this`plan
      ensures Valid() && log + plan == old(log + plan) && old(log) <= log
      ensures ok ==> plan == old(plan)[|SwapsFrom<string, Content>(tracks, phases, 0)|..]
      ensures old(Ample()) ==> ok && Ample()
    {
      ghost var rest := plan[|SwapsFrom<string, Content>(tracks, phases, 0)|..];
      var i := 0;
      while i < |tracks|
        invariant i <= |tracks| && Valid() && log + plan == old(log + plan) && old(log) <= log
        invariant plan == SwapsFrom(tracks, phases, i) + rest
        invariant old(Ample()) ==> Ample()
      {
        ghost var here := SwapOps<string, Content>(tracks[i].0, tracks[i].1, phases[i]);
        assert plan == here + (SwapsFrom(tracks, phases, i + 1) + rest);
        ok := Swap(tracks[i].0, tracks[i].1, phases[i]);
        if !ok { return; }
        i := i + 1;
      }
      ok := true;
    }

    /** The markers are removed one after the other, with a sync after each. */
    method Unmark() returns (ok: bool)
      requires Valid() && UnmarkOps(RootOf(env)) <= plan
      modifies this`vol, this`fuel, this`log, this`plan
      ensures Valid() && log + plan == old(log + plan) && old(log) <= log
      ensures ok ==> plan == old(plan)[4..]
      ensures old(Ample()) ==> ok && Ample()
    {
      FirstFour(Unlink(env.data, env.m0), SyncDir(env.data), Unlink(env.data, env.m1), SyncDir(env.data), plan);
      var i := 0;
      while i < |Markers(env)|
        invariant i <= |Markers(env)| && Valid() && log + plan == old(log + plan) && old(log) <= log
        invariant plan == old(plan)[2 * i..]
        invariant old(Ample()) ==> Ample()
      {
        assert plan[0] == Unlink(env.data, Markers(env)[i]) && plan[1] == SyncDir(env.data);
        ok := Do(Unlink(env.data, Markers(env)[i]));
        if !ok { return; }
        ok := Do(SyncDir(env.data));
        if !ok { return; }
        i := i + 1;
      }
      ok := true;
    }

    /** `resume` up to the point where it applies anything. */
    method Check() returns (p: Plan)
      ensures p == MakePlan(env, vol)
    {
      var docs: seq<Json> := [];
      ghost var ms := Present(env, vol);
      var i := 0;
      while i < |Markers(env)|
        invariant i <= |Markers(env)|
        invariant i == 0 ==> docs == []
        invariant i == 1 ==> |docs| == (if env.m0 in vol.Live(env.data) then 1 else 0)
        invariant i == 2 ==> |docs| == |ms|
        invariant forall k :: 0 <= k < |docs| ==> k < |ms| && ReadDoc(vol, ms[k]) == Some(docs[k])
      {
        var m := Markers(env)[i];
        if m in vol.Live(env.data) {
          var doc := ReadDoc(vol, vol.Live(env.data)[m]);
          assert ms[|docs|] == vol.Live(env.data)[m];
          if doc.None? { return Declined(Unreadable); }
          docs := docs + [doc.value];
        }
        i := i + 1;
      }
      if docs == [] { return Declined(NoPending); }
      assert ReadDoc(vol, ms[0]) == Some(docs[0]) && ReadDoc(vol, ms[|ms| - 1]) == Some(docs[|docs| - 1]);
      if k :| 0 <= k < |docs| && docs[k] != docs[0] { return Declined(Disagree); }
      p := CheckFiles(docs[0]);
    }

    method Decide(a: ResumeArgs) returns (p: Plan, ghost ops: seq<Op<string, Content>>)
      requires Mirrors()
      ensures p == planner(vol) && (p.Planned? ==> |p.phases| == |p.journal.changes|)
      ensures ops == doer(vol, a) == OpsFor(env, vol, a, p)
    {
      p := Check();
      ops := PlannedOps(env, vol, a);
    }

    /** `recovery_entries`, then every file, before the first rename. */
    method CheckFiles(doc: Json) returns (p: Plan)
      ensures p == PlanFor(env, vol, doc)
    {
      var j := RecoveryEntries(env.data, env.files, doc);
      if j.None? { return Declined(InvalidJournal); }
      var phases := FindPhases(j.value);
      if phases.None? { return Declined(FileCheck); }
      return Planned(doc, j.value, phases.value);
    }

    /** The phase of every file, or nothing if one of them cannot be told. */
    method FindPhases(j: Journal) returns (r: Option<seq<Phase>>)
      requires HasRecords(env, j)
      ensures r == Gather(Tests(env, vol, j))
      ensures r.Some? ==> |r.value| == |env.files| && forall i :: 0 <= i < |env.files| ==>
                Fits(env, vol, j.changes[i], j.manifest.files[env.files[i]], r.value[i])
      ensures r.None? ==> exists i :: 0 <= i < |env.files| && PhaseAt(env, vol, j, i).None?
    {
      ghost var tests := Tests(env, vol, j);
      var phases: seq<Phase> := [];
      while |phases| < |env.files|
        invariant |phases| <= |env.files|
        invariant forall i :: 0 <= i < |phases| ==> tests[i] == Some(phases[i])
        invariant forall i :: 0 <= i < |phases| ==>
                    Fits(env, vol, j.changes[i], j.manifest.files[env.files[i]], phases[i])
      {
        var phase := PhaseAt(env, vol, j, |phases|);
        if phase.None? {
          GatherNone(tests, |phases|);
          return None;
        }
        PhaseIff(env, vol, j.changes[|phases|], j.manifest.files[env.files[|phases|]], phase.value);
        phases := phases + [phase.value];
      }
      GatherAll(tests, phases);
      return Some(phases);
    }

    /** `resume`. Whatever the ending, the volume is that of `Tool.Resume` after as many operations as were
        done, all of them if it finishes; `p` is what its checks came to. */
    method ResumeRun(a: ResumeArgs) returns (r: Ending, ghost p: Plan, ghost ops: seq<Op<string, Content>>)
      requires Valid() && Mirrors()
      modifies this`vol, this`fuel, this`log, this`plan
      ensures p == planner(old(vol)) && ops == doer(old(vol), a)
      ensures Valid() && fuel <= old(fuel) <= fuel + |ops| && Reached(old(vol), ops, old(fuel) - fuel, vol)
      ensures r.Finished? || r.Retained? ==> old(fuel) == fuel + |ops|
      ensures r.Rejected? || r.Preview? ==> vol == old(vol)
      ensures Runnable(ops, old(vol)) && old(fuel) >= |ops| ==> !r.Interrupted?
      ensures EndsAs(p, a, r)
    {
      ghost var before, full := log, fuel;
      ops := doer(vol, a);
      r, p := Run(a, ops);
      LogReached(start, before, ops, log, full - fuel);
    }

    method Run(a: ResumeArgs, ghost ops: seq<Op<string, Content>>) returns (r: Ending, ghost p: Plan)
      requires Valid() && Mirrors() && ops == doer(vol, a)
      modifies this`vol, this`fuel, this`log, this`plan
      ensures Valid() && old(log) <= log <= old(log) + ops && p == planner(old(vol))
      ensures r.Finished? || r.Retained? ==> log == old(log) + ops
      ensures r.Rejected? || r.Preview? ==> vol == old(vol)
      ensures Runnable(ops, old(vol)) && old(fuel) >= |ops| ==> !r.Interrupted?
      ensures EndsAs(p, a, r)
    {
      ghost var same;
      var q;
      q, same := Decide(a);
      p := q;
      r := ResumeFrom(q, a, ops);
    }

    method ResumeFrom(p: Plan, a: ResumeArgs, ghost ops: seq<Op<string, Content>>) returns (r: Ending)
      requires Valid() && Apart(env) && (p.Planned? ==> |p.phases| == |p.journal.changes|)
      requires ops == OpsFor(env, vol, a, p)
      modifies this`vol, this`fuel, this`log, this`plan
      ensures Valid() && old(log) <= log <= old(log) + ops
      ensures r.Finished? || r.Retained? ==> log == old(log) + ops
      ensures r.Rejected? || r.Preview? ==> vol == old(vol)
      ensures Runnable(ops, old(vol)) && old(fuel) >= |ops| ==> !r.Interrupted?
      ensures EndsAs(p, a, r)
    {
      if p.Declined? { return Rejected(p.why); }
      if !a.anchored { return Rejected(Inspector); }
      if !a.apply { return Preview; }
      TempApart(env, a.t0);
      r := Proceed(p, MarkerFile(env, env.m0, a.t0, p.doc), MarkerFile(env, env.m1, a.t1, p.doc), a.inspected, ops);
    }

    method Proceed(p: Plan, f0: NewFile<string, Content>, f1: NewFile<string, Content>, inspected: bool,
                   ghost ops: seq<Op<string, Content>>)
      returns (r: Ending)
      requires Valid() && p.Planned? && |p.phases| == |p.journal.changes| && env.m0 != env.m1 && f0.path != env.m1
      requires ops == ResumeOps(RootOf(env), vol.Live(env.data), f0, f1, TracksOf(p.journal), p.phases, inspected)
      modifies this`vol, this`fuel, this`log, this`plan
      ensures Valid() && old(log) <= log <= old(log) + ops
      ensures r.Interrupted? || (r == (if inspected then Finished else Retained) && log == old(log) + ops)
      ensures Runnable(ops, old(vol)) && old(fuel) >= |ops| ==> !r.Interrupted?
    {
      ghost var before := log;
      plan := ops;
      r := ApplyPlan(TracksOf(p.journal), p.phases, f0, f1, inspected);
      DoneSoFar(before, log, ops, plan);
    }

    /** `resume` once it applies: the markers, then the rest. */
    method ApplyPlan(tracks: seq<(Names<string>, bool)>, phases: seq<Phase>, f0: NewFile<string, Content>,
                     f1: NewFile<string, Content>,
                     inspected: bool)
      returns (r: Ending)
      requires Valid() && |tracks| == |phases| && env.m0 != env.m1 && f0.path != env.m1
      requires plan == ResumeOps(RootOf(env), vol.Live(env.data), f0, f1, tracks, phases, inspected)
      modifies this`vol, this`fuel, this`log, this`plan
      ensures Valid() && log + plan == old(log + plan) && old(log) <= log
      ensures r.Interrupted? || (plan == [] && r == if inspected then Finished else Retained)
      ensures old(Ample()) ==> !r.Interrupted?
    {
      ghost var marks, rest := RemarkOps(RootOf(env), vol.Live(env.data), f0, f1),
          FinishOps(RootOf(env), tracks, phases, inspected);
      assert plan == marks + rest;
      var ok := Remark(f0, f1);
      if !ok { return Interrupted; }
      assert plan == rest;
      r := Finish(tracks, phases, inspected);
    }

    /** The files, the inspection, the markers. */
    method Finish(tracks: seq<(Names<string>, bool)>, phases: seq<Phase>, inspected: bool) returns (r: Ending)
      requires Valid() && |tracks| == |phases| && plan == FinishOps(RootOf(env), tracks, phases, inspected)
      modifies this`vol, this`fuel, this`log, this`plan
      ensures Valid() && log + plan == old(log + plan) && old(log) <= log
      ensures r.Interrupted? || (plan == [] && r == if inspected then Finished else Retained)
      ensures old(Ample()) ==> !r.Interrupted?
    {
      ghost var last: seq<Op<string, Content>> := if inspected then UnmarkOps(RootOf(env)) else [];
      assert plan == SwapsFrom(tracks, phases, 0) + last;
      var ok := SwapAll(tracks, phases);
      if !ok { return Interrupted; }
      assert plan == last;
      if !inspected { return Retained; }
      ok := Unmark();
      if !ok { return Interrupted; }
      return Finished;
    }

    /** `verify(checkpoint)`: the manifest, then every file against it. */
    method VerifyCheckpoint(a: RestoreArgs) returns (m: Option<Manifest>)
      ensures m == (var d := DecodeManifest(env.files, a.manifest);
                    if env.printed(a.manifest) <= MAX_METADATA && d.Some? && CheckpointOk(env, d.value, a.contents)
                        then d else None)
    {
      if env.printed(a.manifest) > MAX_METADATA { return None; }
      m := DecodeManifest(env.files, a.manifest);
      if m.None? { return; }
      var ok := VerifyFiles(a, m.value);
      if !ok { m := None; }
    }

    method VerifyFiles(a: RestoreArgs, m: Manifest) returns (ok: bool)
      ensures ok <==> CheckpointOk(env, m, a.contents)
    {
      var i := 0;
      while i < |env.files|
        invariant i <= |env.files|
        invariant forall k :: 0 <= k < i ==>
                    var f := env.files[k];
                        f in a.contents && f in m.files && Matches(a.contents[f], m.files[f], env.sha)
      {
        var f := env.files[i];
        if f !in a.contents || f !in m.files || !Matches(a.contents[f], m.files[f], env.sha) { return false; }
        i := i + 1;
      }
      return true;
    }

    /** Every replacement is staged before anything is renamed. A copy is byte for byte its source
        (`SparseFile.CopySparse`), so it passes the verification its source has passed. */
    method StageAll(dirs: seq<string>, files: seq<NewFile<string, Content>>) returns (ok: bool)
      requires Valid() && |dirs| == |files| && StageFrom(dirs, files, 0) <= plan
      modifies this`vol, this`fuel, this`log, this`plan
      ensures Valid() && log + plan == old(log + plan) && old(log) <= log
      ensures ok ==> plan == old(plan)[|StageFrom(dirs, files, 0)|..]
      ensures old(Ample()) ==> ok && Ample()
    {
      ghost var rest := plan[|StageFrom(dirs, files, 0)|..];
      var i := 0;
      while i < |files|
        invariant i <= |files| && Valid() && log + plan == old(log + plan) && old(log) <= log
        invariant plan == StageFrom(dirs, files, i) + rest
        invariant old(Ample()) ==> Ample()
      {
        assert plan == NewFileOps(dirs[i], files[i]) + (StageFrom(dirs, files, i + 1) + rest);
        ok := NewFileAt(dirs[i], files[i]);
        if !ok { return; }
        i := i + 1;
      }
      ok := true;
    }

    /** `restore` from the first copy to the second marker. */
    method Begin(dirs: seq<string>, files: seq<NewFile<string, Content>>, f0: NewFile<string, Content>,
                 f1: NewFile<string, Content>,
                 ghost ops: seq<Op<string, Content>>)
      returns (ok: bool)
      requires Valid() && |dirs| == |files| && ops == BeginOps(RootOf(env), dirs, files, f0, f1)
      modifies this`vol, this`fuel, this`log, this`plan
      ensures Valid() && old(log) <= log <= old(log) + ops
      ensures ok ==> log == old(log) + ops
      ensures Runnable(ops, old(vol)) && old(fuel) >= |ops| ==> ok
    {
      ghost var before := log;
      plan := ops;
      assert plan == StageFrom(dirs, files, 0)
             + (PublishOps(RootOf(env), env.m0, f0) + PublishOps(RootOf(env), env.m1, f1));
      ok := StageAll(dirs, files);
      if ok { ok := PublishBoth(f0, f1); }
      DoneSoFar(before, log, ops, plan);
    }

    method PublishBoth(f0: NewFile<string, Content>, f1: NewFile<string, Content>) returns (ok: bool)
      requires Valid() && plan == PublishOps(RootOf(env), RootOf(env).m0, f0)
               + PublishOps(RootOf(env), RootOf(env).m1, f1)
      modifies this`vol, this`fuel, this`log, this`plan
      ensures Valid() && log + plan == old(log + plan) && old(log) <= log
      ensures ok ==> plan == []
      ensures old(Ample()) ==> ok && Ample()
    {
      ok := PublishJournal(RootOf(env).m0, f0);
      if !ok { return; }
      assert plan == PublishOps(RootOf(env), RootOf(env).m1, f1);
      ok := PublishJournal(RootOf(env).m1, f1);
    }

    /** `restore` up to the point where it applies anything: the manifest it goes ahead with, or how it ends. */
    method Approve(a: RestoreArgs) returns (m: Option<Manifest>, r: Option<Ending>)
      requires |a.copies| == |env.files|
      ensures m == Approved(env, vol, a) && (m.Some? <==> r.None?)
      ensures r.Some? ==> Spurned(env, vol, a, r.value)
      ensures r.None? ==> !Marked(RootOf(env), vol.Live(env.data)) && CheckpointGood(env, a)
      ensures r.None? ==> a.apply && a.usable && a.roomy
    {
      if env.m0 in vol.Live(env.data) || env.m1 in vol.Live(env.data) {
        assert Present(env, vol) != [];
        return None, Some(Rejected(MarkerExists));
      }
      m := VerifyCheckpoint(a);
      if m.None? { return None, Some(Rejected(BadCheckpoint)); }
      if !a.usable { return None, Some(Rejected(Inspector)); }
      if !a.apply { return None, Some(Preview); }
      if !a.roomy { return None, Some(Rejected(NoRoom)); }
      r := None;
    }

    /** `restore` once `Approve` has returned a manifest. Whatever the ending, the volume is that of
        `Tool.RestoreWith` after as many operations as were done, all of them if it finishes. */
    method RestoreRun(a: RestoreArgs, m: Manifest) returns (r: Ending, ghost ops: seq<Op<string, Content>>)
      requires Valid() && Mirrors() && Applicable(env, a, m)
      modifies this`vol, this`fuel, this`log, this`plan
      ensures ops == restorer(old(vol), a, m)
      ensures Valid() && fuel <= old(fuel) && Reached(old(vol), ops, old(fuel) - fuel, vol)
      ensures EndsBegun(old(vol), a, m, r, old(fuel) - fuel)
      ensures Runnable(ops, old(vol)) && old(fuel) >= |ops| ==> !r.Interrupted?
    {
      var doc := Encode(JournalFor(env, vol, a, m));
      var f0, f1 := MarkerFile(env, env.m0, a.t0, doc), MarkerFile(env, env.m1, a.t1, doc);
      ghost var first, second := RestorerIs(a, m, f0, f1);
      ops := first + second;
      r := RunBoth(FileDirs(env), CopyFiles(env, a, m), f0, f1, Rest(a), first, second);
    }

    lemma RestorerIs(a: RestoreArgs, m: Manifest, f0: NewFile<string, Content>, f1: NewFile<string, Content>)
      returns (first: seq<Op<string, Content>>, second: seq<Op<string, Content>>)
      requires Mirrors() && Applicable(env, a, m)
      requires var doc := Encode(JournalFor(env, vol, a, m));
               f0 == MarkerFile(env, env.m0, a.t0, doc) && f1 == MarkerFile(env, env.m1, a.t1, doc)
      ensures first == BeginOps(RootOf(env), FileDirs(env), CopyFiles(env, a, m), f0, f1)
      ensures Exec(first, vol) == Midway(env, vol, a, m)
      ensures second == doer(Exec(first, vol), Rest(a)) && restorer(vol, a, m) == first + second
    {
      first, second := BeginOpsOf(env, vol, a, m), PlannedOps(env, Midway(env, vol, a, m), Rest(a));
      assert RestoreOps(env, vol, a, m) == first + second;
    }

    /** What `restore` has come to after `n` operations. */
    ghost predicate Restored(v: Vol, a: RestoreArgs, n: nat, w: Vol) {
      var m := chooser(v, a);
      if m.None? then w == v else Reached(v, restorer(v, a, m.value), n, w)
    }

    /** That is `Tool.Restore`. */
    lemma RestoredIs(v: Vol, a: RestoreArgs, n: nat, w: Vol)
      requires Mirrors()
      ensures Restored(v, a, n, w) <==> w == Restore(env, v, a, n)
    {
      var m := Approved(env, v, a);
      if m.Some? { assert restorer(v, a, m.value) == RestoreOps(env, v, a, m.value); }
    }

    method Choose(a: RestoreArgs) returns (m: Option<Manifest>, r: Option<Ending>)
      requires Mirrors() && |a.copies| == |env.files|
      ensures m == chooser(vol, a) && (m.Some? <==> r.None?) && (m.Some? ==> Applicable(env, a, m.value))
      ensures r.Some? ==> Spurned(env, vol, a, r.value)
      ensures r.None? ==> a.apply && a.usable && a.roomy && CheckpointGood(env, a)
    {
      m, r := Approve(a);
    }

    /** How a restore ends, after so many operations: spurned, or as the resume it goes on with, all operations
        done if it says so. */
    ghost predicate EndsRestore(v: Vol, a: RestoreArgs, r: Ending, n: nat) {
      var m := chooser(v, a);
      if m.None? then Spurned(env, v, a, r) && n == 0
      else Applicable(env, a, m.value) && EndsBegun(v, a, m.value, r, n)
    }

    ghost predicate EndsBegun(v: Vol, a: RestoreArgs, m: Manifest, r: Ending, n: nat)
      requires Applicable(env, a, m)
    {
      && (r.Interrupted? || EndsAs(planner(Midway(env, v, a, m)), Rest(a), r))
      && (r.Finished? || r.Retained? ==> n == |restorer(v, a, m)|)
    }

    /** `restore`. */
    method RestoreAll(a: RestoreArgs) returns (r: Ending)
      requires Valid() && Mirrors() && |a.copies| == |env.files|
      modifies this`vol, this`fuel, this`log, this`plan
      ensures Valid() && fuel <= old(fuel) && Restored(old(vol), a, old(fuel) - fuel, vol)
      ensures !a.apply || !a.usable || !a.roomy || !CheckpointGood(env, a) ==>
                vol == old(vol) && Spurned(env, old(vol), a, r)
      ensures EndsRestore(old(vol), a, r, old(fuel) - fuel)
    {
      var m, refused := Choose(a);
      if refused.Some? { return refused.value; }
      r := GoAhead(a, m.value);
    }

    method GoAhead(a: RestoreArgs, m: Manifest) returns (r: Ending)
      requires Valid() && Mirrors() && Applicable(env, a, m) && chooser(vol, a) == Some(m)
      modifies this`vol, this`fuel, this`log, this`plan
      ensures Valid() && fuel <= old(fuel) && Restored(old(vol), a, old(fuel) - fuel, vol)
      ensures EndsRestore(old(vol), a, r, old(fuel) - fuel)
    {
      ghost var ops;
      r, ops := RestoreRun(a, m);
    }

    method RunBoth(dirs: seq<string>, files: seq<NewFile<string, Content>>, f0: NewFile<string, Content>,
                   f1: NewFile<string, Content>, a: ResumeArgs, ghost first: seq<Op<string, Content>>,
                   ghost second: seq<Op<string, Content>>)
      returns (r: Ending)
      requires Valid() && Mirrors() && |dirs| == |files| && first == BeginOps(RootOf(env), dirs, files, f0, f1)
      requires a.apply && second == doer(Exec(first, vol), a)
      modifies this`vol, this`fuel, this`log, this`plan
      ensures Valid() && fuel <= old(fuel) && Reached(old(vol), first + second, old(fuel) - fuel, vol)
      ensures r.Interrupted? || EndsAs(planner(Exec(first, old(vol))), a, r)
      ensures r.Finished? || r.Retained? ==> old(fuel) == fuel + |first + second|
      ensures Runnable(first + second, old(vol)) && old(fuel) >= |first + second| ==> !r.Interrupted?
    {
      ghost var before, full := log, fuel;
      RunnableParts(first, second, vol);
      r := BeginThenResume(dirs, files, f0, f1, a, first, second);
      LogReached(start, before, first + second, log, full - fuel);
    }

    method BeginThenResume(dirs: seq<string>, files: seq<NewFile<string, Content>>, f0: NewFile<string, Content>,
                           f1: NewFile<string, Content>,
                           a: ResumeArgs, ghost ops: seq<Op<string, Content>>, ghost rest: seq<Op<string, Content>>)
      returns (r: Ending)
      requires Valid() && Mirrors() && |dirs| == |files| && ops == BeginOps(RootOf(env), dirs, files, f0, f1)
      requires a.apply && rest == doer(Exec(ops, vol), a)
      modifies this`vol, this`fuel, this`log, this`plan
      ensures Valid() && old(log) <= log <= old(log) + (ops + rest)
      ensures r.Interrupted? || EndsAs(planner(Exec(ops, old(vol))), a, r)
      ensures r.Finished? || r.Retained? ==> log == old(log) + (ops + rest)
      ensures Runnable(ops, old(vol)) && Runnable(rest, Exec(ops, old(vol))) && old(fuel) >= |ops| + |rest| ==>
                !r.Interrupted?
    {
      ghost var before := log;
      var ok := Begin(dirs, files, f0, f1, ops);
      if !ok {
        Prefixes(before, ops, rest, log);
        return Interrupted;
      }
      ExecConcat(before, ops, start);
      Regrouped(before, ops, rest);
      ghost var p;
      r, p := Run(a, rest);
    }
  }
}
