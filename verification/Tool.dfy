/** The decisions of `resume` and `restore`: what they read, when they refuse, and which file operations
    they then carry out. Everything here is a function of the volume, so a run cut short after `cut`
    operations is the first `cut` of them. */
module Tool {
  import opened Volumes
  import opened Recoveries
  import opened Protocol
  import opened Swapping
  import opened Staging
  import opened SparseFile
  import opened Json
  import opened Manifests
  import opened Paths
  import opened Journals

  /** What a file holds: data, a finished JSON document with its length, or a document still being written. */
  datatype Content = Bytes(data: seq<byte>) | Doc(value: Json, size: nat) | Torn

  type Vol = Volume<string, Content>

  /** The data directory, the whitelist, the two marker paths, SHA-256, and how long a document is when printed. */
  datatype Env = Env(data: string, files: seq<string>, m0: string, m1: string, sha: Sha, printed: Json -> nat)

  const MAX_METADATA: nat := 16 * 1024 * 1024

  /** The two markers in the order in which they are published, read and removed. */
  function Markers(env: Env): seq<string> { [env.m0, env.m1] }

  function RootOf(env: Env): Root<string> { Root(env.data, env.m0, env.m1) }

  /** All that is used of the names: neither marker begins with the other, none ends like a token. */
  ghost predicate EnvOk(env: Env) {
    Whitelist(env.files) && !EndsInHex(env.m0) && !EndsInHex(env.m1) && Apart(env)
  }

  predicate Apart(env: Env) { !(env.m0 <= env.m1) && !(env.m1 <= env.m0) }

  /** The tool's own files and markers. */
  function Standard(data: string, sha: Sha, printed: Json -> nat): Env {
    Env(data, FILES, Target(data, "state.restore.pending"), Target(data, "blocks.restore.pending"), sha, printed)
  }

  lemma StandardIsOk(data: string, sha: Sha, printed: Json -> nat)
    ensures EnvOk(Standard(data, sha, printed))
  {
    FilesAreWhitelist();
    var env := Standard(data, sha, printed);
    assert env.m0[|env.m0| - 1] == 'g' && env.m1[|env.m1| - 1] == 'g';
    assert env.m0[|data| + 1] == 's' && env.m1[|data| + 1] == 'b';
  }

  /** Strings with a common extension are one the beginning of the other. */
  lemma CommonExtension(a: string, b: string, x: string, y: string)
    requires a + x == b + y
    ensures a <= b || b <= a
  {
    var n := if |a| <= |b| then |a| else |b|;
    assert a[..n] == (a + x)[..n] == (b + y)[..n] == b[..n];
  }

  /** Whatever is appended to the markers, they stay different. */
  lemma MarkersApart(env: Env, x: string, y: string)
    requires Apart(env)
    ensures env.m0 + x != env.m1 + y && env.m0 != env.m1
  {
    if env.m0 + x == env.m1 + y { CommonExtension(env.m0, env.m1, x, y); }
  }

  datatype Refusal = MarkerExists | NoPending | Unreadable | Disagree | InvalidJournal | FileCheck | BadCheckpoint
    | Inspector | NoRoom

  // ---------------------------------------------------------------------------------------------
  // Reading the volume

  function SizeOf(c: Content): nat {
    match c
    case Bytes(data) => |data|
    case Doc(_, size) => size
    case Torn => 0
  }

  function FingerprintOf(ino: Ino, node: Node<Content>): Fingerprint {
    Fingerprint(node.device, ino, SizeOf(node.content), node.mtime)
  }

  predicate Identified(v: Vol, ino: Ino, fp: Fingerprint) {
    ino in v.nodes && FingerprintOf(ino, v.nodes[ino]) == fp
  }

  /** `verify_file`; `SparseFile.VerifyFile` is the loop that decides it. */
  predicate Verified(env: Env, v: Vol, ino: Ino, rec: Record) {
    ino in v.nodes && v.nodes[ino].content.Bytes? && Matches(v.nodes[ino].content.data, rec, env.sha)
  }

  /** `read_json`: only a finished document of at most 16 MiB is read. */
  function ReadDoc(v: Vol, ino: Ino): Option<Json> {
    if ino in v.nodes && v.nodes[ino].content.Doc? && v.nodes[ino].content.size <= MAX_METADATA
    then Some(v.nodes[ino].content.value) else None
  }

  /** The phase of one file from the presence of its names and the identity of the original. */
  function TestPhase(env: Env, v: Vol, c: Change, rec: Record): Option<Phase> {
    var l := v.Live(Parent(c.target));
    if c.staged in l then
      if !Verified(env, v, l[c.staged], rec) then None
      else if c.original.None? then
        if c.target !in l && c.backup !in l then Some(Ready) else None
      else if c.target in l && c.backup !in l then
        if Identified(v, l[c.target], c.original.value) then Some(Ready) else None
      else if c.target !in l && c.backup in l && Identified(v, l[c.backup], c.original.value) then Some(Saved)
      else None
    else if c.target !in l || !Verified(env, v, l[c.target], rec) then None
    else if c.original.None? && c.backup !in l then Some(Installed)
    else if c.original.Some? && c.backup in l && Identified(v, l[c.backup], c.original.value) then Some(Installed)
    else None
  }

  /** The name leads to a file with the recorded size and digests and zeroes elsewhere. */
  ghost predicate HoldsCopy(env: Env, v: Vol, l: map<string, Ino>, path: string, rec: Record) {
    && path in l && l[path] in v.nodes && v.nodes[l[path]].content.Bytes?
    && Matches(v.nodes[l[path]].content.data, rec, env.sha)
  }

  /** The name leads to the file with the recorded device, inode, size and time, or to nothing if none is recorded. */
  ghost predicate HoldsOriginal(v: Vol, l: map<string, Ino>, path: string, original: Option<Fingerprint>) {
    if original.None? then path !in l
    else
      path in l && l[path] in v.nodes && var node, o := v.nodes[l[path]], original.value;
      && o.device == node.device && o.inode == l[path] && o.mtime == node.mtime
      && (node.content.Bytes? ==> o.size == |node.content.data|)
      && (node.content.Doc? ==> o.size == node.content.size) && (node.content.Torn? ==> o.size == 0)
  }

  /** What the three names of a file have to lead to in each phase. */
  ghost predicate Fits(env: Env, v: Vol, c: Change, rec: Record, ph: Phase) {
    var l := v.Live(Parent(c.target));
    match ph
    case Ready =>
      HoldsCopy(env, v, l, c.staged, rec) && HoldsOriginal(v, l, c.target, c.original) && c.backup !in l
    case Saved =>
      c.original.Some? && HoldsCopy(env, v, l, c.staged, rec) && c.target !in l
          && HoldsOriginal(v, l, c.backup, c.original)
    case Installed =>
      c.staged !in l && HoldsCopy(env, v, l, c.target, rec) && HoldsOriginal(v, l, c.backup, c.original)
  }

  /** On any volume the test finds a phase exactly if everything is where that phase has it, with the copy verified
      byte for byte and the original recognized. */
  lemma PhaseIff(env: Env, v: Vol, c: Change, rec: Record, ph: Phase)
    ensures TestPhase(env, v, c, rec) == Some(ph) <==> Fits(env, v, c, rec, ph)
  {
  }

  // ---------------------------------------------------------------------------------------------
  // resume

  datatype Plan = Declined(why: Refusal) | Planned(doc: Json, journal: Journal, phases: seq<Phase>)

  /** The journals of the markers that exist, in order. */
  function Present(env: Env, v: Vol): seq<Ino> {
    var l := v.Live(env.data);
    var root := RootOf(env);
    (if root.m0 in l then [l[root.m0]] else []) + (if root.m1 in l then [l[root.m1]] else [])
  }

  predicate HasRecords(env: Env, j: Journal) {
    |j.changes| == |env.files| && forall i :: 0 <= i < |env.files| ==> env.files[i] in j.manifest.files
  }

  function PhaseAt(env: Env, v: Vol, j: Journal, i: nat): Option<Phase>
    requires HasRecords(env, j) && i < |env.files|
  {
    TestPhase(env, v, j.changes[i], j.manifest.files[env.files[i]])
  }

  function Tests(env: Env, v: Vol, j: Journal): (r: seq<Option<Phase>>)
    requires HasRecords(env, j)
    ensures |r| == |env.files| && forall i :: 0 <= i < |r| ==> r[i] == PhaseAt(env, v, j, i)
  {
    seq(|env.files|, i requires 0 <= i < |env.files| => PhaseAt(env, v, j, i))
  }

  /** The decision once the journal has been read: every file has to pass its check. */
  function PlanWith(env: Env, v: Vol, doc: Json, j: Option<Journal>): (r: Plan)
    requires j.Some? ==> HasRecords(env, j.value)
    ensures r.Planned? ==> |r.phases| == |r.journal.changes|
  {
    if j.None? then Declined(InvalidJournal)
    else
      var phases := Gather(Tests(env, v, j.value));
      if phases.None? then Declined(FileCheck) else Planned(doc, j.value, phases.value)
  }

  function PlanFor(env: Env, v: Vol, doc: Json): (r: Plan)
    ensures r.Planned? ==> |r.phases| == |r.journal.changes|
  {
    PlanWith(env, v, doc, RecoveryEntries(env.data, env.files, doc))
  }

  /** Everything `resume` checks before it touches anything. */
  function MakePlan(env: Env, v: Vol): (r: Plan)
    ensures r.Planned? ==> |r.phases| == |r.journal.changes|
  {
    var ms := Present(env, v);
    if ms == [] then Declined(NoPending)
    else
      var first, last := ReadDoc(v, ms[0]), ReadDoc(v, ms[|ms| - 1]);
      if first.None? || last.None? then Declined(Unreadable)
      else if first != last then Declined(Disagree)
      else PlanFor(env, v, first.value)
  }

  /** A temporary file for a marker: its random suffix, and the inode it will get. */
  datatype Temp = Temp(suffix: string, ino: Ino, device: nat, mtime: int)

  function MarkerFile(env: Env, m: string, t: Temp, doc: Json): NewFile<string, Content> {
    NewFile(m + ".writing-" + t.suffix, t.ino, Node(t.device, t.mtime, Torn),
            Node(t.device, t.mtime, Doc(doc, env.printed(doc))))
  }

  /** The operator's and the inspector's answers, and the temporary files the run would use. */
  datatype ResumeArgs = ResumeArgs(apply: bool, anchored: bool, inspected: bool, t0: Temp, t1: Temp)

  function NamesOf(c: Change): Names<string> {
    Names(Parent(c.target), c.target, c.staged, c.backup)
  }

  function TracksOf(j: Journal): (r: seq<(Names<string>, bool)>)
    ensures |r| == |j.changes|
  {
    seq(|j.changes|, i requires 0 <= i < |j.changes| => (NamesOf(j.changes[i]), j.changes[i].original.Some?))
  }

  /** The operations that follow from a plan and the answers. */
  function OpsFor(env: Env, v: Vol, a: ResumeArgs, p: Plan): seq<Op<string, Content>>
    requires p.Planned? ==> |p.phases| == |p.journal.changes|
  {
    if p.Declined? || !a.anchored || !a.apply then []
    else
      var root := RootOf(env);
      ResumeOps(root, v.Live(env.data), MarkerFile(env, root.m0, a.t0, p.doc), MarkerFile(env, root.m1, a.t1, p.doc),
                TracksOf(p.journal), p.phases, a.inspected)
  }

  function PlannedOps(env: Env, v: Vol, a: ResumeArgs): seq<Op<string, Content>> {
    OpsFor(env, v, a, MakePlan(env, v))
  }

  /** The volume after a resume that got through `cut` operations. */
  function Resume(env: Env, v: Vol, a: ResumeArgs, cut: nat): Vol {
    Exec(Cut(PlannedOps(env, v, a), cut), v)
  }

  // ---------------------------------------------------------------------------------------------
  // restore

  /** The checkpoint, the answers, and the names and inodes the run would use. `usable` stands for the
      checkpoint's layout and the inspector's three answers, `roomy` for the space check. */
  datatype RestoreArgs = RestoreArgs(apply: bool, usable: bool, roomy: bool, checkpoint: string, manifest: Json,
                                     contents: map<string, seq<byte>>,
                                     token: string, copies: seq<Temp>, t0: Temp, t1: Temp, rest: ResumeArgs)

  /** `restore` goes on with a resume that applies. */
  function Rest(a: RestoreArgs): ResumeArgs { a.rest.(apply := true) }

  function Originals(env: Env, v: Vol): (r: seq<Option<Fingerprint>>)
    ensures |r| == |env.files|
  {
    seq(|env.files|, i requires 0 <= i < |env.files| => OriginalAt(v, Target(env.data, env.files[i])))
  }

  function OriginalAt(v: Vol, path: string): Option<Fingerprint> {
    var l := v.Live(Parent(path));
    if path in l && l[path] in v.nodes then Some(FingerprintOf(l[path], v.nodes[l[path]])) else None
  }

  /** `verify(checkpoint)`, apart from the inspector. */
  predicate CheckpointOk(env: Env, m: Manifest, contents: map<string, seq<byte>>) {
    forall i :: 0 <= i < |env.files| ==>
      var f := env.files[i];
      f in contents && f in m.files && Matches(contents[f], m.files[f], env.sha)
  }

  function JournalFor(env: Env, v: Vol, a: RestoreArgs, m: Manifest): Journal {
    Build(env.data, env.files, a.token, a.checkpoint, m, Originals(env, v))
  }

  function CopyFile(env: Env, a: RestoreArgs, i: nat): NewFile<string, Content>
    requires i < |env.files| && i < |a.copies| && env.files[i] in a.contents
  {
    var t := a.copies[i];
    NewFile(Staged(env.data, env.files[i], a.token), t.ino, Node(t.device, t.mtime, Torn),
            Node(t.device, t.mtime, Bytes(a.contents[env.files[i]])))
  }

  function CopyFiles(env: Env, a: RestoreArgs, m: Manifest): (r: seq<NewFile<string, Content>>)
    requires |a.copies| == |env.files| && CheckpointOk(env, m, a.contents)
    ensures |r| == |env.files|
  {
    seq(|env.files|, i requires 0 <= i < |env.files| => CopyFile(env, a, i))
  }

  function FileDirs(env: Env): (r: seq<string>)
    ensures |r| == |env.files|
  {
    seq(|env.files|, i requires 0 <= i < |env.files| => Parent(Target(env.data, env.files[i])))
  }

  /** The checkpoint fits its manifest, and there is an inode for every copy. */
  predicate Applicable(env: Env, a: RestoreArgs, m: Manifest) {
    |a.copies| == |env.files| && CheckpointOk(env, m, a.contents)
  }

  /** The manifest `restore` accepts, if it goes ahead. */
  function Approved(env: Env, v: Vol, a: RestoreArgs): (r: Option<Manifest>)
    ensures r.Some? ==> Present(env, v) == [] && Applicable(env, a, r.value) && ManifestOk(env.files, r.value)
  {
    var m := DecodeManifest(env.files, a.manifest);
    if Present(env, v) == [] && a.apply && a.usable && a.roomy && env.printed(a.manifest) <= MAX_METADATA && m.Some?
        && Applicable(env, a, m.value)
    then m else None
  }

  function BeginOpsOf(env: Env, v: Vol, a: RestoreArgs, m: Manifest): seq<Op<string, Content>>
    requires Applicable(env, a, m)
  {
    var root := RootOf(env);
    var doc := Encode(JournalFor(env, v, a, m));
    BeginOps(root, FileDirs(env), CopyFiles(env, a, m), MarkerFile(env, root.m0, a.t0, doc),
             MarkerFile(env, root.m1, a.t1, doc))
  }

  /** The volume when the second marker is published. */
  function Midway(env: Env, v: Vol, a: RestoreArgs, m: Manifest): Vol
    requires Applicable(env, a, m)
  {
    Exec(BeginOpsOf(env, v, a, m), v)
  }

  /** The operations of a restore that goes ahead: its own, then those its resume decides on. */
  function RestoreOps(env: Env, v: Vol, a: RestoreArgs, m: Manifest): seq<Op<string, Content>>
    requires Applicable(env, a, m)
  {
    BeginOpsOf(env, v, a, m) + PlannedOps(env, Midway(env, v, a, m), Rest(a))
  }

  /** The volume after `cut` operations of a restore that goes ahead. */
  function RestoreWith(env: Env, v: Vol, a: RestoreArgs, m: Manifest, cut: nat): Vol
    requires Applicable(env, a, m)
  {
    Exec(Cut(RestoreOps(env, v, a, m), cut), v)
  }

  /** The volume after a restore that got through `cut` operations. */
  function Restore(env: Env, v: Vol, a: RestoreArgs, cut: nat): Vol {
    var m := Approved(env, v, a);
    if m.None? then v else RestoreWith(env, v, a, m.value, cut)
  }
}
