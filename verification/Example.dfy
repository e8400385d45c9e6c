/** The hypotheses of the results about histories can be met, all together. */
module Examples {
  import opened Volumes
  import opened Recoveries
  import opened Protocol
  import opened Staging
  import opened SparseFile
  import opened Json
  import opened Manifests
  import opened Paths
  import opened Journals
  import opened Tool
  import opened Safety
  import opened Tracking
  import opened Runs
  import opened Frame
  import opened NodeStarts
  import opened Unsynced

  // ---------------------------------------------------------------------------------------------
  // New inodes can always be found; new names are asked for

  /** A temporary name nobody has. */
  ghost predicate NewTemp(env: Env, used: set<string>, v: Vol, m: string, suffix: string) {
    IsHex(suffix, 32) && m + ".writing-" + suffix !in v.Live(env.data) && m + ".writing-" + suffix !in used
  }

  /** Every name the restore makes up is new. */
  ghost predicate NewNames(env: Env, used: set<string>, v: Vol, a: RestoreArgs) {
    && IsHex(a.token, 32) && UsedBy(env, a.token) !! used
    && (forall i :: 0 <= i < |env.files| ==>
          var t := Target(env.data, env.files[i]);
          Staged(env.data, env.files[i], a.token) !in v.Live(Parent(t))
              && Backup(env.data, env.files[i], a.token) !in v.Live(Parent(t)))
    && NewTemp(env, used + UsedBy(env, a.token), v, env.m0, a.t0.suffix)
    && NewTemp(env, used + UsedBy(env, a.token), v, env.m1, a.t1.suffix)
  }

  /** With new names, a restore of a fitting checkpoint can begin. */
  lemma CanStart(env: Env, used: set<string>, v: Vol, a: RestoreArgs) returns (b: RestoreArgs)
    requires NewNames(env, used, v, a)
    ensures |b.copies| == |env.files| && FreshNames(env, used, v, b)
    ensures b == a.(copies := b.copies, t0 := a.t0.(ino := b.t0.ino), t1 := a.t1.(ino := b.t1.ino))
  {
    var n := Bound(v.nodes.Keys);
    var copies := seq(|env.files|, i requires 0 <= i < |env.files| => Temp("", n + i, 0, 0));
    b := a.(copies := copies, t0 := a.t0.(ino := n + |copies|), t1 := a.t1.(ino := n + |copies| + 1));
    forall i | 0 <= i < |env.files|
      ensures SlotOf(env, v, b, i).names == NamesOf(ChangeFor(env.data, env.files[i], a.token, None))
    {
    }
  }

  /** Another temporary name is still new when both markers stand. */
  lemma StaysNew(env: Env, v: Vol, a: RestoreArgs, m: Manifest, x: string)
    requires Applicable(env, a, m) && x !in v.Live(env.data) && x !in UsedBy(env, a.token) && x != env.m0 && x != env.m1
    requires x != env.m0 + ".writing-" + a.t0.suffix && x != env.m1 + ".writing-" + a.t1.suffix
    ensures x !in Midway(env, v, a, m).Live(env.data)
  {
    var root, doc, files := RootOf(env), Encode(JournalFor(env, v, a, m)), CopyFiles(env, a, m);
    forall k | 0 <= k < |files| ensures files[k].path != x {
      assert Staged(env.data, env.files[k], a.token) in UsedBy(env, a.token);
    }
    StageSpares(FileDirs(env), files, 0, env.data, x);
    PublishSpares(root, root.m0, MarkerFile(env, root.m0, a.t0, doc), env.data, x);
    PublishSpares(root, root.m1, MarkerFile(env, root.m1, a.t1, doc), env.data, x);
    ExecElsewhere(BeginOpsOf(env, v, a, m), v, env.data, x);
  }

  lemma TempStaysNew(env: Env, used: set<string>, v: Vol, a: RestoreArgs, m: Manifest, first: bool, suffix: string)
    requires EnvOk(env) && Applicable(env, a, m)
    requires NewTemp(env, used + UsedBy(env, a.token), v, if first then env.m0 else env.m1, suffix)
    requires suffix != if first then a.t0.suffix else a.t1.suffix
    ensures NewTemp(env, used + UsedBy(env, a.token), Midway(env, v, a, m), if first then env.m0 else env.m1, suffix)
  {
    var marker := if first then env.m0 else env.m1;
    var x := marker + ".writing-" + suffix;
    TokenEnds(marker, ".writing-", suffix);
    if first {
      MarkersApart(env, ".writing-" + suffix, ".writing-" + a.t1.suffix);
      SuffixesApart(marker, suffix, a.t0.suffix);
    } else {
      MarkersApart(env, ".writing-" + a.t0.suffix, ".writing-" + suffix);
      SuffixesApart(marker, suffix, a.t1.suffix);
    }
    assert forall n, t :: n + ".writing-" + t == n + (".writing-" + t);
    StaysNew(env, v, a, m, x);
  }

  lemma SuffixesApart(m: string, s: string, t: string)
    requires s != t
    ensures m + ".writing-" + s != m + ".writing-" + t
  {
    if m + ".writing-" + s == m + ".writing-" + t { CancelFront(m + ".writing-", s, t); }
  }

  /** With new names, a restore of a fitting checkpoint can go ahead. */
  lemma CanGo(env: Env, used: set<string>, v: Vol, a: RestoreArgs, m: Manifest) returns (b: RestoreArgs)
    requires EnvOk(env) && Present(env, v) == [] && ManifestOk(env.files, m) && CheckpointOk(env, m, a.contents)
    requires Rooted(env, v) && NewNames(env, used, v, a)
    requires a.rest.t0.suffix != a.t0.suffix && a.rest.t1.suffix != a.t1.suffix
    requires NewTemp(env, used + UsedBy(env, a.token), v, env.m0, a.rest.t0.suffix)
    requires NewTemp(env, used + UsedBy(env, a.token), v, env.m1, a.rest.t1.suffix)
    ensures Goes(env, used, v, b, m)
    ensures b.t0.suffix == a.t0.suffix && b.t1.suffix == a.t1.suffix
    ensures b.rest.(t0 := a.rest.t0, t1 := a.rest.t1) == a.rest
    ensures b == a.(copies := b.copies, t0 := b.t0, t1 := b.t1, rest := b.rest)
  {
    var c := CanStart(env, used, v, a);
    TempStaysNew(env, used, v, c, m, true, a.rest.t0.suffix);
    TempStaysNew(env, used, v, c, m, false, a.rest.t1.suffix);
    var n := Bound(Midway(env, v, c, m).nodes.Keys);
    b := c.(rest := a.rest.(t0 := a.rest.t0.(ino := n), t1 := a.rest.t1.(ino := n + 1)));
    SameBegin(env, v, b, c, m);
  }

  /** What a restore does up to the markers does not depend on what its resume will use. */
  lemma SameBegin(env: Env, v: Vol, a: RestoreArgs, b: RestoreArgs, m: Manifest)
    requires Applicable(env, a, m) && b == a.(rest := b.rest)
    ensures Midway(env, v, a, m) == Midway(env, v, b, m)
    ensures forall used :: FreshNames(env, used, v, b) ==> FreshNames(env, used, v, a)
  {
    assert CopyFiles(env, a, m) == CopyFiles(env, b, m);
    forall i | 0 <= i < |env.files| ensures SlotOf(env, v, a, i) == SlotOf(env, v, b, i) {}
  }

  // ---------------------------------------------------------------------------------------------
  // One concrete restore

  function Digits(c: char, n: nat): (r: string)
    ensures |r| == n && forall i :: 0 <= i < n ==> r[i] == c
  {
    seq(n, _ => c)
  }

  lemma {:induction false} ZeroValue(n: nat)
    ensures HexValue(Digits('0', n)) == 0
  {
    if n > 0 {
      assert Digits('0', n)[..n - 1] == Digits('0', n - 1);
      ZeroValue(n - 1);
    }
  }

  function ExampleRecord(): Record { Record(1, [Entry(0, 1, Digits('0', 64))]) }

  function ExampleManifest(): Manifest {
    Manifest(Identity(Digits('0', 64), Digits('0', 7) + Digits('1', 57), 1), map f | f in FILES :: ExampleRecord())
  }

  /** A digest that is always the same will do here. Documents are short or, if asked for, as long as may be,
      with journals one byte longer. */
  function ExampleEnv(long: bool): Env {
    Standard("data", (_: seq<byte>) => Digits('0', 64),
             (d: Json) => if !long then 0
                          else if d.Obj? && "changes" in d.fields then MAX_METADATA + 1 else MAX_METADATA)
  }

  lemma ExampleIsOk(long: bool)
    ensures ManifestOk(FILES, ExampleManifest()) && Matches([1], ExampleRecord(), ExampleEnv(long).sha)
  {
    var id := ExampleManifest().state;
    ZeroValue(7);
    assert id.headId[..8][..7] == Digits('0', 7) && id.headId[..8][7] == '1';
    var rec := ExampleRecord();
    assert Placed(rec, 0);
    forall j: nat | j < 1 ensures InExtent(rec.extents, j) {
      assert rec.extents[0].offset <= j < rec.extents[0].offset + rec.extents[0].length;
    }
  }

  function ExampleArgs(): RestoreArgs {
    var t1, t2 := Temp(Digits('1', 32), 0, 0, 0), Temp(Digits('2', 32), 0, 0, 0);
    RestoreArgs(true, true, true, "checkpoint", EncodeManifest(ExampleManifest()), map f | f in FILES :: [1],
                Digits('0', 32), [], t1, t1,
                ResumeArgs(true, true, true, t2, t2))
  }

  /** A volume with the first data file in place, dated `mtime`, on disk or not. */
  function OneFile(env: Env, mtime: int, synced: bool): Vol
    requires env.files != []
  {
    var t := Target(env.data, env.files[0]);
    Volume(map[Parent(t) := Directory(map[t := 0], [])], map[0 := Node(1, mtime, Bytes([7]))],
           if synced then {} else {0})
  }

  lemma OneFileShows(env: Env, mtime: int, synced: bool)
    requires EnvOk(env) && env.files != []
    ensures var v, t := OneFile(env, mtime, synced), Target(env.data, env.files[0]);
            && v.Dir(env.data) == Directory(map[], []) && v.Live(env.data) == map[]
            && (forall d :: v.Dir(d).queue == [] && v.Live(d) == if d == Parent(t) then map[t := 0] else map[])
  {
    ParentBelow(env.data + "/", env.files[0]);
  }

  lemma OneFileRooted(env: Env, mtime: int, synced: bool)
    requires EnvOk(env) && env.files != []
    ensures Rooted(env, OneFile(env, mtime, synced)) && (OriginalsSynced(env, OneFile(env, mtime, synced)) <==> synced)
  {
    var v := OneFile(env, mtime, synced);
    OneFileShows(env, mtime, synced);
    assert InoAt(v, TargetAt(env, 0)) == Some(0);
    forall i | 0 <= i < |env.files| && InoAt(v, TargetAt(env, i)).Some? ensures InoAt(v, TargetAt(env, i)) == Some(0) {}
  }

  /** Names that end like a token are not in the way. */
  lemma OneFileFresh(env: Env, mtime: int, synced: bool, d: string, x: string)
    requires EnvOk(env) && env.files != [] && EndsInHex(x)
    ensures x !in OneFile(env, mtime, synced).Live(d)
  {
    OneFileShows(env, mtime, synced);
    TargetEnds(env.data, env.files[0]);
  }

  /** The journal records the one file that is there. */
  lemma OneFileRecorded(env: Env, mtime: int, synced: bool, a: RestoreArgs, m: Manifest, i: nat)
    requires EnvOk(env) && env.files != [] && i < |env.files|
    ensures JournalFor(env, OneFile(env, mtime, synced), a, m).changes[i].original
         == if i == 0 then Some(Fingerprint(1, 0, 1, mtime)) else None
  {
    OneFileShows(env, mtime, synced);
    if i > 0 && Target(env.data, env.files[i]) == Target(env.data, env.files[0]) {
      CancelFront(env.data + "/", env.files[i], env.files[0]);
    }
  }

  lemma OneFileReadable(env: Env, mtime: int, synced: bool, a: RestoreArgs, m: Manifest)
    requires EnvOk(env) && env.files != []
    ensures var j := JournalFor(env, OneFile(env, mtime, synced), a, m);
            Readable(env, j) <==> mtime >= 0 && env.printed(Encode(j)) <= MAX_METADATA
  {
    var j := JournalFor(env, OneFile(env, mtime, synced), a, m);
    forall i | 0 <= i < |env.files| ensures NonNegative(j.changes[i].original) <==> i > 0 || mtime >= 0 {
      OneFileRecorded(env, mtime, synced, a, m, i);
    }
    assert NonNegative(j.changes[0].original) <==> mtime >= 0;
  }

  lemma NotUsed(env: Env, token: string, x: string)
    requires IsHex(token, 32) && x != "" && x[|x| - 1] != token[31]
    ensures x !in UsedBy(env, token)
  {
    forall i | 0 <= i < |env.files|
      ensures Staged(env.data, env.files[i], token) != x && Backup(env.data, env.files[i], token) != x
    {
      var s, b := Staged(env.data, env.files[i], token), Backup(env.data, env.files[i], token);
      assert s[|s| - 1] == token[31] && b[|b| - 1] == token[31];
    }
  }

  lemma ExampleTemp(env: Env, mtime: int, synced: bool, m: string, c: char)
    requires EnvOk(env) && env.files != [] && HexDigit(c) && c != '0'
    ensures NewTemp(env, {} + UsedBy(env, Digits('0', 32)), OneFile(env, mtime, synced), m, Digits(c, 32))
  {
    var x := m + ".writing-" + Digits(c, 32);
    assert x[|x| - 1] == c;
    NotUsed(env, Digits('0', 32), x);
    OneFileShows(env, mtime, synced);
  }

  lemma ExampleNames(env: Env, mtime: int, synced: bool, a: RestoreArgs)
    requires EnvOk(env) && env.files != [] && a.token == Digits('0', 32)
    requires a.t0.suffix == a.t1.suffix == Digits('1', 32)
    ensures NewNames(env, {}, OneFile(env, mtime, synced), a)
  {
    forall i | 0 <= i < |env.files|
      ensures var d := Parent(Target(env.data, env.files[i]));
              && Staged(env.data, env.files[i], a.token) !in OneFile(env, mtime, synced).Live(d)
              && Backup(env.data, env.files[i], a.token) !in OneFile(env, mtime, synced).Live(d)
    {
      var t := Target(env.data, env.files[i]);
      TokenEnds(t, ".restore-", a.token);
      TokenEnds(t, ".pre-restore-", a.token);
      OneFileFresh(env, mtime, synced, Parent(t), Staged(env.data, env.files[i], a.token));
      OneFileFresh(env, mtime, synced, Parent(t), Backup(env.data, env.files[i], a.token));
    }
    ExampleTemp(env, mtime, synced, env.m0, '1');
    ExampleTemp(env, mtime, synced, env.m1, '1');
  }

  lemma ExampleFits(long: bool)
    ensures CheckpointOk(ExampleEnv(long), ExampleManifest(), ExampleArgs().contents)
  {
    ExampleIsOk(long);
    var env, m, contents := ExampleEnv(long), ExampleManifest(), ExampleArgs().contents;
    forall i | 0 <= i < |env.files|
      ensures var f := env.files[i]; f in contents && f in m.files && Matches(contents[f], m.files[f], env.sha)
    {
      assert env.files[i] in FILES;
    }
  }

  lemma ExampleCanGo(env: Env, mtime: int, synced: bool, a: RestoreArgs, m: Manifest) returns (b: RestoreArgs)
    requires EnvOk(env) && env.files != [] && ManifestOk(env.files, m) && CheckpointOk(env, m, a.contents)
    requires a.token == Digits('0', 32) && a.t0.suffix == a.t1.suffix == Digits('1', 32)
    requires a.rest.t0.suffix == a.rest.t1.suffix == Digits('2', 32)
    ensures Goes(env, {}, OneFile(env, mtime, synced), b, m)
    ensures b.t0.suffix == b.t1.suffix == Digits('1', 32)
    ensures b.rest.(t0 := a.rest.t0, t1 := a.rest.t1) == a.rest
    ensures b == a.(copies := b.copies, t0 := b.t0, t1 := b.t1, rest := b.rest)
  {
    OneFileRooted(env, mtime, synced);
    ExampleNames(env, mtime, synced, a);
    OneFileUnmarked(env, mtime, synced);
    ExampleSuffixes(env, mtime, synced);
    b := CanGo(env, {}, OneFile(env, mtime, synced), a, m);
  }

  lemma OneFileUnmarked(env: Env, mtime: int, synced: bool)
    requires EnvOk(env) && env.files != []
    ensures Present(env, OneFile(env, mtime, synced)) == []
  {
    OneFileShows(env, mtime, synced);
  }

  lemma ExampleSuffixes(env: Env, mtime: int, synced: bool)
    requires EnvOk(env) && env.files != []
    ensures Digits('1', 32) != Digits('2', 32)
    ensures var used := {} + UsedBy(env, Digits('0', 32)); var v := OneFile(env, mtime, synced);
            NewTemp(env, used, v, env.m0, Digits('2', 32)) && NewTemp(env, used, v, env.m1, Digits('2', 32))
  {
    assert Digits('1', 32)[0] != Digits('2', 32)[0];
    ExampleTemp(env, mtime, synced, env.m0, '2');
    ExampleTemp(env, mtime, synced, env.m1, '2');
  }

  /** All that the example needs of the tool's surroundings and of the restore that is asked for. */
  ghost predicate Setting(env: Env, m: Manifest, ex: RestoreArgs, long: bool) {
    && EnvOk(env) && env.files == FILES && ManifestOk(env.files, m) && Asked(env, m, ex)
    && env.printed(EncodeManifest(m)) <= MAX_METADATA && Lengths(env, long)
  }

  ghost predicate Asked(env: Env, m: Manifest, ex: RestoreArgs) {
    && CheckpointOk(env, m, ex.contents) && ex.manifest == EncodeManifest(m) && ex.apply && ex.usable && ex.roomy
    && ex.token == Digits('0', 32) && ex.t0.suffix == ex.t1.suffix == Digits('1', 32)
    && ex.rest.t0.suffix == ex.rest.t1.suffix == Digits('2', 32) && ex.rest.anchored && ex.rest.inspected
  }

  ghost predicate Lengths(env: Env, long: bool) {
    forall j: Journal :: env.printed(Encode(j)) > MAX_METADATA <==> long
  }

  lemma ExampleSetting(long: bool)
    ensures Setting(ExampleEnv(long), ExampleManifest(), ExampleArgs(), long)
  {
    var env := ExampleEnv(long);
    StandardIsOk("data", env.sha, env.printed);
    ExampleIsOk(long);
    ExampleFits(long);
    forall j: Journal ensures env.printed(Encode(j)) > MAX_METADATA <==> long {
      assert "changes" in Encode(j).fields;
    }
  }

  lemma SettingApproves(env: Env, m: Manifest, v: Vol, a: RestoreArgs)
    requires ManifestOk(env.files, m) && Applicable(env, a, m) && Present(env, v) == []
    requires a.manifest == EncodeManifest(m) && env.printed(a.manifest) <= MAX_METADATA
    requires a.apply && a.usable && a.roomy
    ensures Approved(env, v, a) == Some(m)
  {
    ManifestRoundTrip(env.files, m);
  }

  lemma SettingGoes(env: Env, m: Manifest, ex: RestoreArgs, mtime: int, synced: bool) returns (a: RestoreArgs)
    requires EnvOk(env) && env.files != [] && ManifestOk(env.files, m) && Asked(env, m, ex)
    requires env.printed(EncodeManifest(m)) <= MAX_METADATA
    ensures Goes(env, {}, OneFile(env, mtime, synced), a, m) && Approved(env, OneFile(env, mtime, synced), a) == Some(m)
    ensures a.rest.anchored && a.rest.inspected
    ensures a.token == Digits('0', 32) && a.t0.suffix == a.t1.suffix == Digits('1', 32)
  {
    a := ExampleCanGo(env, mtime, synced, ex, m);
    SettingApproves(env, m, OneFile(env, mtime, synced), a);
  }

  /** With the tool's own files and `state/shared_memory.bin` in place, on disk or not, dated `mtime`, with short
      documents or long ones, there is a restore that is approved and goes ahead, and is cut short behind its
      markers, and a resume after it: `Runs.InterruptedEndsTheSame` and `Runs.AllOrNothing` apply. */
  lemma HypothesesMet(mtime: int, synced: bool, long: bool)
    returns (env: Env, s0: State, a: RestoreArgs, m: Manifest, cut: nat, fin: ResumeArgs)
    ensures EnvOk(env) && env.files == FILES && Approved(env, s0.vol, a) == Some(m)
    ensures Goes(env, s0.used, s0.vol, a, m) && a.rest.anchored && a.rest.inspected
    ensures OriginalsSynced(env, s0.vol) <==> synced
    ensures env.printed(Encode(JournalFor(env, s0.vol, a, m))) > MAX_METADATA <==> long
    ensures Readable(env, JournalFor(env, s0.vol, a, m)) <==> mtime >= 0 && !long
    ensures cut == |BeginOpsOf(env, s0.vol, a, m)|
    ensures var s := After(env, s0, a, m, cut); HasMarker(env, s) && TempsOk(env, s.used, s.vol, fin.t0, fin.t1)
    ensures fin.apply && fin.anchored && fin.inspected
  {
    env, m := ExampleEnv(long), ExampleManifest();
    ExampleSetting(long);
    s0, a, cut, fin := SettingMet(env, m, ExampleArgs(), long, mtime, synced);
  }

  lemma SettingMet(env: Env, m: Manifest, ex: RestoreArgs, long: bool, mtime: int, synced: bool)
    returns (s0: State, a: RestoreArgs, cut: nat, fin: ResumeArgs)
    requires Setting(env, m, ex, long)
    ensures Approved(env, s0.vol, a) == Some(m) && Goes(env, s0.used, s0.vol, a, m)
    ensures a.rest.anchored && a.rest.inspected && (OriginalsSynced(env, s0.vol) <==> synced)
    ensures Readable(env, JournalFor(env, s0.vol, a, m)) <==> mtime >= 0 && !long
    ensures cut == |BeginOpsOf(env, s0.vol, a, m)|
    ensures var s := After(env, s0, a, m, cut); HasMarker(env, s) && TempsOk(env, s.used, s.vol, fin.t0, fin.t1)
    ensures fin.apply && fin.anchored && fin.inspected
  {
    s0 := State(OneFile(env, mtime, synced), {});
    a := SettingGoes(env, m, ex, mtime, synced);
    OneFileRooted(env, mtime, synced);
    OneFileReadable(env, mtime, synced, a, m);
    cut, fin := CutBehind(env, mtime, synced, a, m);
  }

  lemma CutBehind(env: Env, mtime: int, synced: bool, a: RestoreArgs, m: Manifest) returns (cut: nat, fin: ResumeArgs)
    requires EnvOk(env) && env.files != [] && Goes(env, {}, OneFile(env, mtime, synced), a, m)
    requires a.token == Digits('0', 32) && a.t0.suffix == a.t1.suffix == Digits('1', 32)
    ensures cut == |BeginOpsOf(env, OneFile(env, mtime, synced), a, m)|
    ensures var s := After(env, State(OneFile(env, mtime, synced), {}), a, m, cut);
            HasMarker(env, s) && TempsOk(env, s.used, s.vol, fin.t0, fin.t1)
    ensures fin.apply && fin.anchored && fin.inspected
  {
    cut := |BeginOpsOf(env, OneFile(env, mtime, synced), a, m)|;
    fin := ExampleFinish(env, mtime, synced, a, m);
    BothMarked(env, State(OneFile(env, mtime, synced), {}), a, m);
    CutAtMarkers(env, OneFile(env, mtime, synced), a, m);
  }

  lemma CutAtMarkers(env: Env, v: Vol, a: RestoreArgs, m: Manifest)
    requires Applicable(env, a, m)
    ensures RestoreWith(env, v, a, m, |BeginOpsOf(env, v, a, m)|) == Midway(env, v, a, m)
  {
    var first, w := BeginOpsOf(env, v, a, m), Midway(env, v, a, m);
    ReachedFirst(v, first, PlannedOps(env, w, Rest(a)), |first|, w);
  }

  lemma ExampleFinish(env: Env, mtime: int, synced: bool, a: RestoreArgs, m: Manifest) returns (fin: ResumeArgs)
    requires EnvOk(env) && env.files != [] && Applicable(env, a, m) && a.token == Digits('0', 32)
    requires a.t0.suffix == a.t1.suffix == Digits('1', 32)
    ensures TempsOk(env, {} + UsedBy(env, a.token), Midway(env, OneFile(env, mtime, synced), a, m), fin.t0, fin.t1)
    ensures fin.apply && fin.anchored && fin.inspected
  {
    var s, v := Digits('3', 32), OneFile(env, mtime, synced);
    assert s[0] != Digits('1', 32)[0];
    ExampleTemp(env, mtime, synced, env.m0, '3');
    ExampleTemp(env, mtime, synced, env.m1, '3');
    TempStaysNew(env, {}, v, a, m, true, s);
    TempStaysNew(env, {}, v, a, m, false, s);
    var n := Bound(Midway(env, v, a, m).nodes.Keys);
    fin := ResumeArgs(true, true, true, Temp(s, n, 0, 0), Temp(s, n + 1, 0, 0));
  }

  lemma BothMarked(env: Env, s: State, a: RestoreArgs, m: Manifest)
    requires EnvOk(env) && Goes(env, s.used, s.vol, a, m)
    ensures Marked(RootOf(env), Midway(env, s.vol, a, m).Live(env.data))
  {
    BegunHere(env, s.used, s.vol, a, m, Begins(env, s.vol, a, m), JournalFor(env, s.vol, a, m));
  }

  /** With the file dated one nanosecond before 1970 (`long` false), or with a manifest that is just short
      enough and a journal that is not, a restore that is approved, cut short or not once its markers stand,
      leaves them for good. */
  lemma UnreadableStrands(long: bool) returns (env: Env, s0: State, a: RestoreArgs, m: Manifest)
    ensures EnvOk(env) && env.files == FILES && Approved(env, s0.vol, a) == Some(m)
    ensures Goes(env, s0.used, s0.vol, a, m) && OriginalsSynced(env, s0.vol)
    ensures env.printed(Encode(JournalFor(env, s0.vol, a, m))) > MAX_METADATA <==> long
    ensures forall cut: nat :: cut >= |BeginOpsOf(env, s0.vol, a, m)| ==>
              Stranded(env, RestoreWith(env, s0.vol, a, m, cut))
  {
    var n, fin;
    env, s0, a, m, n, fin := HypothesesMet(if long then 0 else -1, true, long);
    forall cut: nat | cut >= |BeginOpsOf(env, s0.vol, a, m)|
      ensures Stranded(env, RestoreWith(env, s0.vol, a, m, cut))
    {
      StrandedAt(env, s0, a, m, cut);
    }
  }

  lemma StrandedAt(env: Env, s: State, a: RestoreArgs, m: Manifest, cut: nat)
    requires EnvOk(env) && Goes(env, s.used, s.vol, a, m)
    requires !Readable(env, JournalFor(env, s.vol, a, m)) && cut >= |BeginOpsOf(env, s.vol, a, m)|
    ensures Stranded(env, RestoreWith(env, s.vol, a, m, cut))
  {
    UnreadableIsStuck(env, s.used, s.vol, a, m, cut, Rest(a), 0);
  }

  /** With the file in place but not on disk, a power loss behind the markers strands the recovery. */
  lemma UnsyncedFileStrands() returns (env: Env, s0: State, a: RestoreArgs, m: Manifest, w: Vol, cuts: string -> nat)
    ensures EnvOk(env) && env.files == FILES && Approved(env, s0.vol, a) == Some(m)
    ensures Goes(env, s0.used, s0.vol, a, m) && Readable(env, JournalFor(env, s0.vol, a, m))
    ensures Lost(Midway(env, s0.vol, a, m), w, cuts) && Stranded(env, w)
  {
    var n, fin;
    env, s0, a, m, n, fin := HypothesesMet(0, false, false);
    var i :| 0 <= i < |env.files| && InoAt(s0.vol, TargetAt(env, i)).Some?
        && InoAt(s0.vol, TargetAt(env, i)).value in s0.vol.dirty;
    w, cuts := UnsyncedStrands(env, s0.used, s0.vol, a, m, i, InoAt(s0.vol, TargetAt(env, i)).value);
  }

  lemma BehindMarkers(env: Env, s0: State, a: RestoreArgs, m: Manifest, s: State)
    requires EnvOk(env) && Goes(env, s0.used, s0.vol, a, m) && Readable(env, JournalFor(env, s0.vol, a, m))
    requires s == State(Midway(env, s0.vol, a, m), s0.used + UsedBy(env, a.token))
    ensures Sound(env, s) && MakePlan(env, s.vol).Planned?
  {
    var p, j := Begins(env, s0.vol, a, m), JournalFor(env, s0.vol, a, m);
    BegunHere(env, s0.used, s0.vol, a, m, p, j);
    RecognizedThere(env, s0.used, s0.vol, a, m);
    PlannedIff(env, s.vol, p, j);
    BegunSound(env, s, p, j);
  }

  lemma BegunSound(env: Env, s: State, p: Pend, j: Journal)
    requires Begun(SiteOf(env, Just(p)), s.used, s.vol, p) && Wrote(env, p, j)
    ensures Sound(env, s)
  {
    assert GoodWith(SiteOf(env, Any(env)), s.used, s.vol, Some(p));
  }

  /** And a history in which a node run strands the recovery: the restore has got to its markers, the resume is
      cut short before its last sync, the node runs, the power fails. */
  lemma NodeRunStrands() returns (env: Env, states: seq<State>, a: ResumeArgs, cut: nat, cuts: string -> nat)
    ensures EnvOk(env) && env.files == FILES && |states| == 4 && Sound(env, states[0])
    ensures History(env, states, [ResumeRun(a, cut), NodeRun, PowerLoss(cuts)]) && Stranded(env, states[3].vol)
  {
    var s0, b, m, n;
    env, s0, b, m, n, a := HypothesesMet(0, true, false);
    var s := After(env, s0, b, m, n);
    CutAtMarkers(env, s0.vol, b, m);
    BehindMarkers(env, s0, b, m, s);
    states, cut, cuts := StrandedHistory(env, s, a);
  }
}
