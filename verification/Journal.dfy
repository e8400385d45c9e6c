/** Path names, and the recovery journal that `restore` writes and `recovery_entries` accepts. */
module Paths {
  import opened Json

  /** Everything before the last slash. */
  function Parent(p: string): string {
    if p == "" then ""
    else if p[|p| - 1] == '/' then p[..|p| - 1]
    else Parent(p[..|p| - 1])
  }

  /** Appending to the last component stays in the same directory. */
  lemma {:induction false} ParentAppend(p: string, s: string)
    requires '/' !in s
    ensures Parent(p + s) == Parent(p)
  {
    if s == "" {
      assert p + s == p;
    } else {
      var n := |s| - 1;
      assert s[n] in s;
      assert (p + s)[..|p| + n] == p + s[..n];
      ParentAppend(p, s[..n]);
    }
  }

  lemma {:induction false} ParentBelow(p: string, s: string)
    requires '/' in s
    ensures |Parent(p + s)| >= |p|
  {
    var n := |s| - 1;
    assert s == s[..n] + [s[n]];
    if s[n] != '/' {
      assert (p + s)[..|p| + n] == p + s[..n];
      ParentBelow(p, s[..n]);
    }
  }

  predicate EndsInHex(s: string) { s != "" && HexDigit(s[|s| - 1]) }

  function Target(data: string, name: string): string { data + "/" + name }
  function Staged(data: string, name: string, token: string): string { Target(data, name) + ".restore-" + token }
  function Backup(data: string, name: string, token: string): string { Target(data, name) + ".pre-restore-" + token }

  /** The files the tool may touch: distinct, below the data directory, and not ending like a token. */
  ghost predicate Whitelist(files: seq<string>) {
    && (forall i, j :: 0 <= i < j < |files| ==> files[i] != files[j])
    && (forall i :: 0 <= i < |files| ==> files[i] != "" && !EndsInHex(files[i]) && '/' in files[i])
  }

  const FILES: seq<string> := ["state/shared_memory.bin", "state/chain_head.dat", "blocks/reversible/fork_db.dat"]

  lemma FilesAreWhitelist()
    ensures Whitelist(FILES)
  {
    assert FILES[0][5] == '/' && FILES[1][5] == '/' && FILES[2][6] == '/';
  }

  lemma Cancel(a: string, b: string, s: string)
    requires a + s == b + s
    ensures a == b
  {
    assert |a + s| == |b + s|;
    assert a == (a + s)[..|a|] && b == (b + s)[..|b|];
  }

  lemma CancelFront(p: string, a: string, b: string)
    requires p + a == p + b
    ensures a == b
  {
    assert a == (p + a)[|p|..] && b == (p + b)[|p|..];
  }

  lemma TokenEnds(p: string, s: string, token: string)
    requires IsHex(token, 32)
    ensures EndsInHex(p + s + token) && '/' !in token
  {
    assert (p + s + token)[|p + s + token| - 1] == token[31];
  }

  lemma TargetEnds(data: string, name: string)
    requires name != "" && !EndsInHex(name)
    ensures !EndsInHex(Target(data, name))
  {
    assert Target(data, name)[|Target(data, name)| - 1] == name[|name| - 1];
  }

  /** The three names of a file are distinct. */
  lemma OwnNames(data: string, name: string, token: string)
    ensures Target(data, name) != Staged(data, name, token)
    ensures Target(data, name) != Backup(data, name, token)
    ensures Staged(data, name, token) != Backup(data, name, token)
  {
    var t := Target(data, name);
    assert |Staged(data, name, token)| == |t| + 9 + |token|;
    assert |Backup(data, name, token)| == |t| + 13 + |token|;
  }

  /** A staged name is never a backup name: they differ in the character before "restore-". */
  lemma StagedIsNotBackup(data: string, a: string, b: string, token: string)
    ensures Staged(data, a, token) != Backup(data, b, token)
  {
    var s, t := Target(data, a) + ".restore-", Target(data, b) + ".pre-restore-";
    assert s[|s| - 9] == '.' && t[|t| - 9] == '-';
    if Staged(data, a, token) == Backup(data, b, token) { Cancel(s, t, token); }
  }

  /** The names of two files never meet. */
  lemma NamesApart(data: string, a: string, b: string, token: string)
    requires a != b && a != "" && b != "" && !EndsInHex(a) && !EndsInHex(b) && IsHex(token, 32)
    ensures {Target(data, a), Staged(data, a, token), Backup(data, a, token)}
         !! {Target(data, b), Staged(data, b, token), Backup(data, b, token)}
  {
    var ta, tb := Target(data, a), Target(data, b);
    TargetEnds(data, a);
    TargetEnds(data, b);
    TokenEnds(ta, ".restore-", token);
    TokenEnds(tb, ".restore-", token);
    TokenEnds(ta, ".pre-restore-", token);
    TokenEnds(tb, ".pre-restore-", token);
    StagedIsNotBackup(data, a, b, token);
    StagedIsNotBackup(data, b, a, token);
    if ta == tb { CancelFront(data + "/", a, b); }
    if Staged(data, a, token) == Staged(data, b, token) {
      Cancel(ta + ".restore-", tb + ".restore-", token);
      Cancel(ta, tb, ".restore-");
    }
    if Backup(data, a, token) == Backup(data, b, token) {
      Cancel(ta + ".pre-restore-", tb + ".pre-restore-", token);
      Cancel(ta, tb, ".pre-restore-");
    }
  }

  /** All three names of a file lie in one directory, which is not the data directory itself. */
  lemma NamesTogether(data: string, name: string, token: string)
    requires IsHex(token, 32) && '/' in name
    ensures Parent(Staged(data, name, token)) == Parent(Backup(data, name, token)) == Parent(Target(data, name)) != data
  {
    TokenEnds("", "", token);
    var t := Target(data, name);
    assert t + ".restore-" + token == t + (".restore-" + token);
    ParentAppend(t, ".restore-" + token);
    assert t + ".pre-restore-" + token == t + (".pre-restore-" + token);
    ParentAppend(t, ".pre-restore-" + token);
    ParentBelow(data + "/", name);
  }
}

module Journals {
  import opened Volumes
  import opened Json
  import opened Manifests
  import opened Paths

  /** What `fingerprint` reads from lstat. The time may be before 1970. */
  datatype Fingerprint = Fingerprint(device: int, inode: int, size: int, mtime: int)

  datatype Change = Change(name: string, target: string, staged: string, backup: string, original: Option<Fingerprint>)

  datatype Journal = Journal(token: string, dataDir: string, checkpoint: string, manifest: Manifest,
                             changes: seq<Change>)

  // ---------------------------------------------------------------------------------------------
  // Writing

  function ChangeFor(data: string, name: string, token: string, original: Option<Fingerprint>): Change {
    Change(name, Target(data, name), Staged(data, name, token), Backup(data, name, token), original)
  }

  /** The journal `restore` builds. */
  function Build(data: string, files: seq<string>, token: string, checkpoint: string, manifest: Manifest,
                 originals: seq<Option<Fingerprint>>): Journal
    requires |originals| == |files|
  {
    Journal(token, data, checkpoint, manifest,
            seq(|files|, i requires 0 <= i < |files| => ChangeFor(data, files[i], token, originals[i])))
  }

  function EncodeFingerprint(o: Option<Fingerprint>): Json {
    if o.None? then Null
    else Obj(map["device" := Int(o.value.device), "inode" := Int(o.value.inode), "size" := Int(o.value.size),
        "mtime_ns" := Int(o.value.mtime)])
  }

  function EncodeChange(c: Change): Json {
    Obj(map["name" := Str(c.name), "target" := Str(c.target), "staged" := Str(c.staged), "backup" := Str(c.backup),
            "original" := EncodeFingerprint(c.original)])
  }

  function Encode(j: Journal): Json {
    Obj(map["format" := Int(2), "token" := Str(j.token), "data_dir" := Str(j.dataDir),
        "checkpoint" := Str(j.checkpoint),
            "manifest" := EncodeManifest(j.manifest),
            "changes" := List(seq(|j.changes|, i requires 0 <= i < |j.changes| => EncodeChange(j.changes[i])))])
  }

  // ---------------------------------------------------------------------------------------------
  // Reading

  /** An identity that cannot be read is `None`; an absent original is `Some(None)`. */
  function DecodeFingerprint(j: Json): Option<Option<Fingerprint>> {
    if j.Null? then Some(None)
    else if j.Obj? && j.fields.Keys == {"device", "inode", "size", "mtime_ns"}
         && Natural(j.fields["device"]) && Natural(j.fields["inode"]) && Natural(j.fields["size"])
            && Natural(j.fields["mtime_ns"]) then
      Some(Some(Fingerprint(j.fields["device"].n, j.fields["inode"].n, j.fields["size"].n, j.fields["mtime_ns"].n)))
    else None
  }

  predicate Natural(j: Json) { j.Int? && j.n >= 0 }

  function DecodeChange(data: string, token: string, name: string, j: Json): Option<Change> {
    if j.Obj? && Get(j, "name") == Str(name) && "original" in j.fields
       && Get(j, "target") == Str(Target(data, name)) && Get(j, "staged") == Str(Staged(data, name, token))
       && Get(j, "backup") == Str(Backup(data, name, token)) then
      var o := DecodeFingerprint(j.fields["original"]);
      if o.Some? then Some(ChangeFor(data, name, token, o.value)) else None
    else None
  }

  /** The entries, matched up with the whitelist in order. */
  function DecodeChanges(data: string, token: string, files: seq<string>, items: seq<Json>): (r: Option<seq<Change>>)
    requires |files| == |items|
    ensures r.Some? ==> |r.value| == |files|
  {
    Gather(seq(|files|, i requires 0 <= i < |files| => DecodeChange(data, token, files[i], items[i])))
  }

  /** `recovery_entries`: the journal, or nothing if any check fails. */
  function RecoveryEntries(data: string, files: seq<string>, j: Json): (r: Option<Journal>)
    ensures r.Some? ==> |r.value.changes| == |files| && ManifestOk(files, r.value.manifest)
  {
    if j.Obj? && Get(j, "format") == Int(2) && Get(j, "data_dir") == Str(data) && Get(j, "checkpoint").Str?
       && Get(j, "token").Str? && IsHex(Get(j, "token").s, 32) && Get(j, "changes").List?
          && |Get(j, "changes").items| == |files| then
      var m := DecodeManifest(files, Get(j, "manifest"));
      var cs := DecodeChanges(data, Get(j, "token").s, files, Get(j, "changes").items);
      if m.Some? && cs.Some? then Some(Journal(Get(j, "token").s, data, Get(j, "checkpoint").s, m.value, cs.value))
          else None
    else None
  }

  // ---------------------------------------------------------------------------------------------
  // Round trip

  predicate NonNegative(o: Option<Fingerprint>) {
    o.Some? ==> o.value.device >= 0 && o.value.inode >= 0 && o.value.size >= 0 && o.value.mtime >= 0
  }

  lemma FingerprintRoundTrip(o: Option<Fingerprint>)
    ensures DecodeFingerprint(EncodeFingerprint(o)) == if NonNegative(o) then Some(o) else None
  {
    if o.Some? {
      var f := EncodeFingerprint(o).fields;
      assert f["device"] == Int(o.value.device) && f["inode"] == Int(o.value.inode);
      assert f["size"] == Int(o.value.size) && f["mtime_ns"] == Int(o.value.mtime);
      assert f.Keys == {"device", "inode", "size", "mtime_ns"};
    }
  }

  lemma FingerprintDetermines(a: Option<Fingerprint>, b: Option<Fingerprint>)
    requires EncodeFingerprint(a) == EncodeFingerprint(b)
    ensures a == b
  {
    if a.Some? && b.Some? {
      var f, g := EncodeFingerprint(a).fields, EncodeFingerprint(b).fields;
      assert f["device"] == Int(a.value.device) && f["inode"] == Int(a.value.inode);
      assert f["size"] == Int(a.value.size) && f["mtime_ns"] == Int(a.value.mtime);
      assert g["device"] == Int(b.value.device) && g["inode"] == Int(b.value.inode);
      assert g["size"] == Int(b.value.size) && g["mtime_ns"] == Int(b.value.mtime);
    }
  }

  lemma ChangeParts(c: Change)
    ensures var j := EncodeChange(c);
            && Get(j, "name") == Str(c.name) && Get(j, "target") == Str(c.target) && Get(j, "staged") == Str(c.staged)
            && Get(j, "backup") == Str(c.backup) && "original" in j.fields
               && j.fields["original"] == EncodeFingerprint(c.original)
  {
  }

  lemma ChangeRoundTrip(data: string, name: string, token: string, o: Option<Fingerprint>)
    ensures var c := ChangeFor(data, name, token, o);
            DecodeChange(data, token, name, EncodeChange(c)) == if NonNegative(o) then Some(c) else None
  {
    ChangeParts(ChangeFor(data, name, token, o));
    FingerprintRoundTrip(o);
  }

  lemma JournalParts(j: Journal)
    ensures var e := Encode(j);
            && Get(e, "format") == Int(2) && Get(e, "token") == Str(j.token) && Get(e, "data_dir") == Str(j.dataDir)
            && Get(e, "checkpoint") == Str(j.checkpoint) && Get(e, "manifest") == EncodeManifest(j.manifest)
            && Get(e, "changes")
               == List(seq(|j.changes|, i requires 0 <= i < |j.changes| => EncodeChange(j.changes[i])))
  {
  }

  /** A document belongs to one token and one list of originals. */
  lemma DocumentDetermines(a: Journal, b: Journal)
    requires Encode(a) == Encode(b)
    ensures a.token == b.token && |a.changes| == |b.changes|
    ensures forall i :: 0 <= i < |a.changes| ==> a.changes[i].original == b.changes[i].original
  {
    JournalParts(a);
    JournalParts(b);
    var x, y := Get(Encode(a), "changes").items, Get(Encode(b), "changes").items;
    assert |x| == |a.changes| && |y| == |b.changes|;
    forall i | 0 <= i < |a.changes| ensures a.changes[i].original == b.changes[i].original {
      assert x[i] == EncodeChange(a.changes[i]) && y[i] == EncodeChange(b.changes[i]);
      ChangeParts(a.changes[i]);
      ChangeParts(b.changes[i]);
      FingerprintDetermines(a.changes[i].original, b.changes[i].original);
    }
  }

  /** A journal built by `restore` is read back as it was, for the same data directory, exactly when
      every recorded identity is non-negative. */
  lemma JournalRoundTrip(data: string, files: seq<string>, token: string, checkpoint: string, m: Manifest,
                         originals: seq<Option<Fingerprint>>)
    requires |originals| == |files| && ManifestOk(files, m) && IsHex(token, 32)
    ensures var j := Build(data, files, token, checkpoint, m, originals);
            RecoveryEntries(data, files, Encode(j))
              == if forall i :: 0 <= i < |files| ==> NonNegative(originals[i]) then Some(j) else None
  {
    var j := Build(data, files, token, checkpoint, m, originals);
    JournalParts(j);
    ManifestRoundTrip(files, m);
    var items := Get(Encode(j), "changes").items;
    forall i | 0 <= i < |files|
      ensures DecodeChange(data, token, files[i], items[i]) == if NonNegative(originals[i]) then Some(j.changes[i])
              else None
    {
      ChangeRoundTrip(data, files[i], token, originals[i]);
    }
    var tests := seq(|files|, i requires 0 <= i < |files| => DecodeChange(data, token, files[i], items[i]));
    if i :| 0 <= i < |files| && !NonNegative(originals[i]) {
      GatherNone(tests, i);
    } else {
      GatherAll(tests, j.changes);
    }
  }

  // ---------------------------------------------------------------------------------------------
  // Exactly what is accepted

  /** An identity is read as `o` exactly if the document is how `o` is written, and no number is negative. */
  lemma FingerprintIff(j: Json, o: Option<Fingerprint>)
    ensures DecodeFingerprint(j) == Some(o) <==> j == EncodeFingerprint(o) && NonNegative(o)
  {
    FingerprintRoundTrip(o);
    if DecodeFingerprint(j) == Some(o) && o.Some? {
      var d := EncodeFingerprint(o).fields;
      assert d.Keys == {"device", "inode", "size", "mtime_ns"};
      assert d["device"] == Int(o.value.device) && d["inode"] == Int(o.value.inode);
      assert d["size"] == Int(o.value.size) && d["mtime_ns"] == Int(o.value.mtime);
      assert j.fields == d;
    }
  }

  /** The entry says what the change is written as, and its identity in no more keys than that. */
  ghost predicate Spells(j: Json, c: Change) {
    Agrees(j, EncodeChange(c)) && j.fields["original"] == EncodeFingerprint(c.original)
  }

  lemma SpellsParts(j: Json, c: Change)
    ensures Spells(j, c) <==>
              && j.Obj? && Get(j, "name") == Str(c.name) && Get(j, "target") == Str(c.target)
              && Get(j, "staged") == Str(c.staged) && Get(j, "backup") == Str(c.backup)
              && "original" in j.fields && j.fields["original"] == EncodeFingerprint(c.original)
  {
    var d := EncodeChange(c).fields;
    AgreesKeys(j, d, {"name", "target", "staged", "backup", "original"});
    assert d["name"] == Str(c.name) && d["target"] == Str(c.target) && d["staged"] == Str(c.staged);
    assert d["backup"] == Str(c.backup) && d["original"] == EncodeFingerprint(c.original);
    AgreesItself(EncodeFingerprint(c.original));
  }

  /** The change is the one `restore` writes for this file, with no negative number. */
  ghost predicate Proper(data: string, name: string, token: string, c: Change) {
    c == ChangeFor(data, name, token, c.original) && NonNegative(c.original)
  }

  lemma ChangeIff(data: string, token: string, name: string, j: Json, c: Change)
    ensures DecodeChange(data, token, name, j) == Some(c) <==> Proper(data, name, token, c) && Spells(j, c)
  {
    SpellsParts(j, c);
    if j.Obj? && "original" in j.fields { FingerprintIff(j.fields["original"], c.original); }
  }

  lemma ChangesIff(data: string, token: string, files: seq<string>, items: seq<Json>, cs: seq<Change>)
    requires |files| == |items| == |cs|
    ensures DecodeChanges(data, token, files, items) == Some(cs) <==>
              forall i :: 0 <= i < |files| ==> Proper(data, files[i], token, cs[i]) && Spells(items[i], cs[i])
  {
    var tests := seq(|files|, i requires 0 <= i < |files| => DecodeChange(data, token, files[i], items[i]));
    forall i | 0 <= i < |files|
      ensures tests[i] == Some(cs[i]) <==> Proper(data, files[i], token, cs[i]) && Spells(items[i], cs[i])
    {
      ChangeIff(data, token, files[i], items[i], cs[i]);
    }
    GatherIff(tests, cs);
  }

  /** The document says what the journal is written as, its manifest lists no other files, and its identities have
      no further keys. */
  ghost predicate Documents(files: seq<string>, e: Json, j: Journal) {
    && Agrees(e, Encode(j)) && OnlyFiles(files, Get(e, "manifest"))
    && Get(e, "changes").List? && |Get(e, "changes").items| == |j.changes|
    && forall i :: 0 <= i < |j.changes| ==> Spells(Get(e, "changes").items[i], j.changes[i])
  }

  /** A journal for this data directory and whitelist, as `restore` writes it. */
  ghost predicate JournalOk(data: string, files: seq<string>, j: Journal) {
    && IsHex(j.token, 32) && j.dataDir == data && ManifestOk(files, j.manifest) && |j.changes| == |files|
    && forall i :: 0 <= i < |files| ==> Proper(data, files[i], j.token, j.changes[i])
  }

  ghost predicate SixKeys(d: map<string, Json>, token: string, data: string, checkpoint: string, m: Json, cs: Json) {
    && d.Keys == {"format", "token", "data_dir", "checkpoint", "manifest", "changes"}
    && d["format"] == Int(2) && d["token"] == Str(token) && d["data_dir"] == Str(data)
    && d["checkpoint"] == Str(checkpoint) && d["manifest"] == m && d["changes"] == cs
  }

  ghost predicate HasSix(e: Json, token: string, data: string, checkpoint: string, m: Json, cs: Json) {
    && e.Obj? && Get(e, "format") == Int(2) && Get(e, "token") == Str(token) && Get(e, "data_dir") == Str(data)
    && Get(e, "checkpoint") == Str(checkpoint) && Agrees(Get(e, "manifest"), m) && Agrees(Get(e, "changes"), cs)
  }

  lemma EncodedSix(d: map<string, Json>, token: string, data: string, checkpoint: string, m: Json, cs: Json)
    requires d == map["format" := Int(2), "token" := Str(token), "data_dir" := Str(data),
                      "checkpoint" := Str(checkpoint), "manifest" := m, "changes" := cs]
    ensures SixKeys(d, token, data, checkpoint, m, cs)
  {
  }

  lemma SixForth(e: Json, d: map<string, Json>, token: string, data: string, checkpoint: string, m: Json, cs: Json)
    requires SixKeys(d, token, data, checkpoint, m, cs) && Agrees(e, Obj(d))
    ensures HasSix(e, token, data, checkpoint, m, cs)
  {
    forall k | k in d ensures Agrees(Get(e, k), d[k]) {}
  }

  lemma SixBack(e: Json, d: map<string, Json>, token: string, data: string, checkpoint: string, m: Json, cs: Json)
    requires SixKeys(d, token, data, checkpoint, m, cs) && HasSix(e, token, data, checkpoint, m, cs)
    requires !m.Null? && !cs.Null?
    ensures Agrees(e, Obj(d))
  {
    forall k | k in d ensures k in e.fields && Agrees(e.fields[k], d[k]) {
      assert Agrees(Get(e, k), d[k]) && !d[k].Null?;
      AgreesThere(e, k, d[k]);
    }
  }

  lemma AgreesJournal(e: Json, j: Journal)
    ensures Agrees(e, Encode(j)) <==>
              && e.Obj? && Get(e, "format") == Int(2) && Get(e, "token") == Str(j.token)
              && Get(e, "data_dir") == Str(j.dataDir) && Get(e, "checkpoint") == Str(j.checkpoint)
              && Agrees(Get(e, "manifest"), EncodeManifest(j.manifest))
              && Get(e, "changes").List? && |Get(e, "changes").items| == |j.changes|
              && forall i :: 0 <= i < |j.changes| ==> Agrees(Get(e, "changes").items[i], EncodeChange(j.changes[i]))
  {
    var cs := List(seq(|j.changes|, i requires 0 <= i < |j.changes| => EncodeChange(j.changes[i])));
    var d, m := Encode(j).fields, EncodeManifest(j.manifest);
    EncodedSix(d, j.token, j.dataDir, j.checkpoint, m, cs);
    if Agrees(e, Encode(j)) { SixForth(e, d, j.token, j.dataDir, j.checkpoint, m, cs); }
    if HasSix(e, j.token, j.dataDir, j.checkpoint, m, cs) { SixBack(e, d, j.token, j.dataDir, j.checkpoint, m, cs); }
    if e.Obj? { AgreesChanges(Get(e, "changes"), j.changes); }
  }

  lemma AgreesChanges(e: Json, cs: seq<Change>)
    ensures Agrees(e, List(seq(|cs|, i requires 0 <= i < |cs| => EncodeChange(cs[i])))) <==>
              e.List? && |e.items| == |cs| && forall i :: 0 <= i < |cs| ==> Agrees(e.items[i], EncodeChange(cs[i]))
  {
    var xs := seq(|cs|, i requires 0 <= i < |cs| => EncodeChange(cs[i]));
    assert forall i :: 0 <= i < |cs| ==> xs[i] == EncodeChange(cs[i]);
  }

  /** So a document is accepted as the journal `j` exactly if `j` is in order and the document says it. */
  lemma JournalIff(data: string, files: seq<string>, e: Json, j: Journal)
    ensures RecoveryEntries(data, files, e) == Some(j) <==> JournalOk(data, files, j) && Documents(files, e, j)
  {
    AgreesJournal(e, j);
    if e.Obj? {
      ManifestIff(files, Get(e, "manifest"), j.manifest);
      if Get(e, "changes").List? && |Get(e, "changes").items| == |files| == |j.changes| {
        ChangesIff(data, j.token, files, Get(e, "changes").items, j.changes);
      }
    }
  }

  lemma AcceptedChange(data: string, files: seq<string>, e: Json, i: nat)
    requires Whitelist(files) && RecoveryEntries(data, files, e).Some? && i < |files|
    ensures var j := RecoveryEntries(data, files, e).value;
            && IsHex(j.token, 32) && |j.changes| == |files|
            && j.changes[i] == ChangeFor(data, files[i], j.token, j.changes[i].original)
            && NonNegative(j.changes[i].original)
  {
    JournalIff(data, files, e, RecoveryEntries(data, files, e).value);
    assert Proper(data, files[i], RecoveryEntries(data, files, e).value.token,
                  RecoveryEntries(data, files, e).value.changes[i]);
  }

  /** Any accepted journal, whoever wrote it, names only paths derived from the whitelist and its
      token, and no path twice. */
  lemma AcceptedNames(data: string, files: seq<string>, e: Json, i: nat, k: nat)
    requires Whitelist(files) && RecoveryEntries(data, files, e).Some? && i < |files| && k < |files|
    ensures var j := RecoveryEntries(data, files, e).value; var c, d := j.changes[i], j.changes[k];
            && |j.changes| == |files| && c == ChangeFor(data, files[i], j.token, c.original) && NonNegative(c.original)
            && c.target != c.staged && c.target != c.backup && c.staged != c.backup
            && (i != k ==> {c.target, c.staged, c.backup} !! {d.target, d.staged, d.backup})
            && Parent(c.staged) == Parent(c.backup) == Parent(c.target) != data
  {
    var j := RecoveryEntries(data, files, e).value;
    AcceptedChange(data, files, e, i);
    AcceptedChange(data, files, e, k);
    OwnNames(data, files[i], j.token);
    NamesTogether(data, files[i], j.token);
    if i != k { NamesApart(data, files[i], files[k], j.token); }
  }

  /** A data file dated one nanosecond before 1970 makes a journal that its own reader refuses. */
  lemma OldFileExample(data: string, token: string, checkpoint: string, m: Manifest)
    requires ManifestOk(FILES, m) && IsHex(token, 32)
    ensures var old' := Some(Fingerprint(1, 2, 3, -1));
            RecoveryEntries(data, FILES, Encode(Build(data, FILES, token, checkpoint, m, [old', None, None]))) == None
  {
    var originals := [Some(Fingerprint(1, 2, 3, -1)), None, None];
    assert !NonNegative(originals[0]);
    JournalRoundTrip(data, FILES, token, checkpoint, m, originals);
  }
}
