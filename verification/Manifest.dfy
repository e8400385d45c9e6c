/** JSON values, and the manifest that `validate_manifest` accepts. */
module Json {
  datatype Json =
    | Null
    | Bool(b: bool)
    | Int(n: int)
    | Str(s: string)
    | List(items: seq<Json>)
    | Obj(fields: map<string, Json>)

  /** Python's `dict.get`: a missing key reads as None. */
  function Get(j: Json, key: string): Json
    requires j.Obj?
  {
    if key in j.fields then j.fields[key] else Null
  }

  /** The document `e` says what `d` says; it may have further keys. */
  ghost predicate Agrees(e: Json, d: Json)
    decreases d
  {
    match d
    case Obj(fs) => e.Obj? && forall k :: k in fs ==> k in e.fields && Agrees(e.fields[k], fs[k])
    case List(xs) => e.List? && |e.items| == |xs| && forall i :: 0 <= i < |xs| ==> Agrees(e.items[i], xs[i])
    case _ => e == d
  }

  lemma AgreesKeys(e: Json, fs: map<string, Json>, keys: set<string>)
    requires fs.Keys == keys
    ensures Agrees(e, Obj(fs)) <==> e.Obj? && forall k :: k in keys ==> k in e.fields && Agrees(e.fields[k], fs[k])
  {
  }

  lemma AgreesThere(e: Json, key: string, d: Json)
    requires e.Obj? && !d.Null?
    ensures key in e.fields && Agrees(e.fields[key], d) <==> Agrees(Get(e, key), d)
  {
  }

  lemma AgreesItself(j: Json)
    ensures Agrees(j, j)
  {
  }

  predicate HexDigit(c: char) { '0' <= c <= '9' || 'a' <= c <= 'f' }

  /** The regular expression `[0-9a-f]{n}`, matched in full. */
  predicate IsHex(s: string, n: nat) {
    |s| == n && forall i :: 0 <= i < n ==> HexDigit(s[i])
  }

  function DigitValue(c: char): int {
    if c <= '9' then c as int - '0' as int else c as int - 'a' as int + 10
  }

  function HexValue(s: string): int
    requires forall i :: 0 <= i < |s| ==> HexDigit(s[i])
  {
    if s == "" then 0 else 16 * HexValue(s[..|s| - 1]) + DigitValue(s[|s| - 1])
  }

  const DIGITS: string := "0123456789abcdef"

  /** The last `k` lower-case hexadecimal digits of `n`. */
  function Hex(n: nat, k: nat): (s: string)
    ensures |s| == k
  {
    if k == 0 then "" else Hex(n / 16, k - 1) + [DIGITS[n % 16]]
  }

  function Power16(k: nat): nat { if k == 0 then 1 else 16 * Power16(k - 1) }

  lemma DigitReads(d: nat)
    requires d < 16
    ensures HexDigit(DIGITS[d]) && DigitValue(DIGITS[d]) == d
  {
  }

  lemma DigitWrites(c: char)
    requires HexDigit(c)
    ensures 0 <= DigitValue(c) < 16 && DIGITS[DigitValue(c)] == c
  {
  }

  lemma LastDigit(n: nat, d: nat)
    requires d < 16
    ensures (16 * n + d) / 16 == n && (16 * n + d) % 16 == d
  {
  }

  /** Reading a number that was written with enough digits gives it back. */
  lemma {:induction false} HexReads(n: nat, k: nat)
    requires n < Power16(k)
    ensures IsHex(Hex(n, k), k) && HexValue(Hex(n, k)) == n
  {
    if k > 0 {
      HexReads(n / 16, k - 1);
      DigitReads(n % 16);
      var s := Hex(n, k);
      assert s[..k - 1] == Hex(n / 16, k - 1) && s[k - 1] == DIGITS[n % 16];
    }
  }

  /** And every string of digits is what its value is written as. */
  lemma {:induction false} HexWrites(s: string, k: nat)
    requires IsHex(s, k)
    ensures 0 <= HexValue(s) < Power16(k) && Hex(HexValue(s), k) == s
  {
    if k > 0 {
      HexWrites(s[..k - 1], k - 1);
      DigitWrites(s[k - 1]);
      LastDigit(HexValue(s[..k - 1]), DigitValue(s[k - 1]));
      assert s == s[..k - 1] + [s[k - 1]];
    }
  }

  lemma EightDigits()
    ensures Power16(8) == 0x1_0000_0000
  {
    assert Power16(4) == 0x1_0000;
  }
}

module Manifests {
  import opened Volumes
  import opened SparseFile
  import opened Json

  /** The chain identity the inspector reports. */
  datatype Identity = Identity(chainId: string, headId: string, headNum: int)

  datatype Manifest = Manifest(state: Identity, files: map<string, Record>)

  const MAX_SIZE: int := 0x8000_0000_0000_0000

  // ---------------------------------------------------------------------------------------------
  // Reading

  /** One extent, its place aside. */
  function DecodeEntry(j: Json): Option<Entry> {
    if j.Obj? && Get(j, "offset").Int? && Get(j, "length").Int? && Get(j, "sha256").Str?
        && IsHex(Get(j, "sha256").s, 64)
    then Some(Entry(Get(j, "offset").n, Get(j, "length").n, Get(j, "sha256").s)) else None
  }

  function DecodeEntries(items: seq<Json>): Option<seq<Entry>> {
    Gather(seq(|items|, i requires 0 <= i < |items| => DecodeEntry(items[i])))
  }

  function DecodeRecord(j: Json): Option<Record> {
    if j.Obj? && Get(j, "size").Int? && 0 < Get(j, "size").n < MAX_SIZE && Get(j, "extents").List? then
      var xs := DecodeEntries(Get(j, "extents").items);
      if xs.Some? && WellPlaced(Record(Get(j, "size").n, xs.value)) then Some(Record(Get(j, "size").n, xs.value))
          else None
    else None
  }

  function DecodeIdentity(j: Json): Option<Identity> {
    if j.Obj? && Get(j, "chain_id").Str? && Get(j, "head_block_id").Str? && Get(j, "head_block_num").Int? then
      var id := Identity(Get(j, "chain_id").s, Get(j, "head_block_id").s, Get(j, "head_block_num").n);
      if IdentityOk(id) then Some(id) else None
    else None
  }

  predicate IdentityOk(id: Identity) {
    && IsHex(id.chainId, 64) && IsHex(id.headId, 64)
    && 0 < id.headNum < 0x1_0000_0000 && HexValue(id.headId[..8]) == id.headNum
  }

  /** The identity is well formed exactly if the block id begins with the block number, in eight digits. */
  lemma IdentityMeans(id: Identity)
    ensures IdentityOk(id) <==>
              && IsHex(id.chainId, 64) && IsHex(id.headId, 64)
              && 0 < id.headNum < 0x1_0000_0000 && id.headId[..8] == Hex(id.headNum, 8)
  {
    EightDigits();
    if IsHex(id.headId, 64) {
      HexWrites(id.headId[..8], 8);
      if 0 < id.headNum < 0x1_0000_0000 { HexReads(id.headNum, 8); }
    }
  }

  /** `validate_manifest`, for the whitelist `files`. */
  function DecodeManifest(files: seq<string>, j: Json): (r: Option<Manifest>)
    ensures r.Some? ==> ManifestOk(files, r.value)
  {
    if j.Obj? && Get(j, "format") == Int(1) && Get(j, "files").Obj? then
      var fs := Get(j, "files").fields;
      if fs.Keys == (set f | f in files) && forall f :: f in files ==> DecodeRecord(fs[f]).Some? then
        var id := DecodeIdentity(Get(j, "state"));
        var m := map f | f in files :: DecodeRecord(fs[f]).value;
        assert forall f :: f in files ==> RecordOk(m[f]) by {
          forall f | f in files ensures RecordOk(m[f]) { DecodedRecordOk(fs[f]); }
        }
        if id.Some? then Some(Manifest(id.value, m)) else None
      else None
    else None
  }

  // ---------------------------------------------------------------------------------------------
  // What an accepted manifest is

  ghost predicate RecordOk(rec: Record) {
    && 0 < rec.size < MAX_SIZE && WellPlaced(rec)
    && forall i :: 0 <= i < |rec.extents| ==> IsHex(rec.extents[i].sha256, 64)
  }

  ghost predicate ManifestOk(files: seq<string>, m: Manifest) {
    && m.files.Keys == (set f | f in files) && IdentityOk(m.state)
    && forall f :: f in files ==> RecordOk(m.files[f])
  }

  lemma DecodedRecordOk(j: Json)
    requires DecodeRecord(j).Some?
    ensures RecordOk(DecodeRecord(j).value)
  {
    var items := Get(j, "extents").items;
    forall i | 0 <= i < |items| ensures IsHex(DecodeEntries(items).value[i].sha256, 64) {
      GatherAt(seq(|items|, i requires 0 <= i < |items| => DecodeEntry(items[i])), i);
    }
  }

  // ---------------------------------------------------------------------------------------------
  // Writing, and reading back

  function EncodeEntry(x: Entry): Json {
    Obj(map["offset" := Int(x.offset), "length" := Int(x.length), "sha256" := Str(x.sha256)])
  }

  function EncodeRecord(rec: Record): Json {
    Obj(map["size" := Int(rec.size),
        "extents" := List(seq(|rec.extents|, i requires 0 <= i < |rec.extents| => EncodeEntry(rec.extents[i])))])
  }

  function EncodeIdentity(id: Identity): Json {
    Obj(map["chain_id" := Str(id.chainId), "head_block_id" := Str(id.headId), "head_block_num" := Int(id.headNum)])
  }

  function EncodeManifest(m: Manifest): Json {
    Obj(map["format" := Int(1), "state" := EncodeIdentity(m.state),
            "files" := Obj(map f | f in m.files :: EncodeRecord(m.files[f]))])
  }

  lemma EntryRoundTrip(x: Entry)
    requires IsHex(x.sha256, 64)
    ensures DecodeEntry(EncodeEntry(x)) == Some(x)
  {
  }

  lemma RecordRoundTrip(rec: Record)
    requires RecordOk(rec)
    ensures DecodeRecord(EncodeRecord(rec)) == Some(rec)
  {
    var xs, items := rec.extents, Get(EncodeRecord(rec), "extents").items;
    forall i | 0 <= i < |xs| ensures DecodeEntry(items[i]) == Some(xs[i]) { EntryRoundTrip(xs[i]); }
    GatherAll(seq(|items|, i requires 0 <= i < |items| => DecodeEntry(items[i])), xs);
  }

  lemma IdentityRoundTrip(id: Identity)
    requires IdentityOk(id)
    ensures DecodeIdentity(EncodeIdentity(id)) == Some(id)
  {
  }

  // ---------------------------------------------------------------------------------------------
  // Exactly what is accepted

  /** An extent is read as `x` exactly if the document says so and the digest is one. */
  lemma EntryIff(j: Json, x: Entry)
    ensures DecodeEntry(j) == Some(x) <==> Agrees(j, EncodeEntry(x)) && IsHex(x.sha256, 64)
  {
    var d := EncodeEntry(x).fields;
    assert d.Keys == {"offset", "length", "sha256"};
    assert d["offset"] == Int(x.offset) && d["length"] == Int(x.length) && d["sha256"] == Str(x.sha256);
  }

  lemma EntriesIff(items: seq<Json>, xs: seq<Entry>)
    ensures DecodeEntries(items) == Some(xs) <==>
              |items| == |xs| && forall i :: 0 <= i < |xs| ==>
                    Agrees(items[i], EncodeEntry(xs[i])) && IsHex(xs[i].sha256, 64)
  {
    var tests := seq(|items|, i requires 0 <= i < |items| => DecodeEntry(items[i]));
    if |items| == |xs| {
      forall i | 0 <= i < |xs| ensures tests[i] == Some(xs[i]) <==>
            Agrees(items[i], EncodeEntry(xs[i])) && IsHex(xs[i].sha256, 64) {
        EntryIff(items[i], xs[i]);
      }
      GatherIff(tests, xs);
    }
  }

  lemma RecordIff(j: Json, rec: Record)
    ensures DecodeRecord(j) == Some(rec) <==> Agrees(j, EncodeRecord(rec)) && RecordOk(rec)
  {
    var d, xs := EncodeRecord(rec).fields, rec.extents;
    assert d.Keys == {"size", "extents"} && d["size"] == Int(rec.size);
    assert d["extents"] == List(seq(|xs|, i requires 0 <= i < |xs| => EncodeEntry(xs[i])));
    if j.Obj? && Get(j, "extents").List? { EntriesIff(Get(j, "extents").items, xs); }
  }

  lemma IdentityIff(j: Json, id: Identity)
    ensures DecodeIdentity(j) == Some(id) <==> Agrees(j, EncodeIdentity(id)) && IdentityOk(id)
  {
    var d := EncodeIdentity(id).fields;
    assert d.Keys == {"chain_id", "head_block_id", "head_block_num"};
    assert d["chain_id"] == Str(id.chainId) && d["head_block_id"] == Str(id.headId);
    assert d["head_block_num"] == Int(id.headNum);
  }

  lemma EntryDetermines(x: Entry, y: Entry)
    requires Agrees(EncodeEntry(x), EncodeEntry(y))
    ensures x == y
  {
    var d, e := EncodeEntry(x).fields, EncodeEntry(y).fields;
    assert d["offset"] == Int(x.offset) && d["length"] == Int(x.length) && d["sha256"] == Str(x.sha256);
    assert e["offset"] == Int(y.offset) && e["length"] == Int(y.length) && e["sha256"] == Str(y.sha256);
  }

  lemma RecordDeterminesItself(rec: Record)
    ensures DecodeRecord(EncodeRecord(rec)).Some? ==> DecodeRecord(EncodeRecord(rec)).value == rec
  {
    var d := EncodeRecord(rec);
    assert Get(d, "size") == Int(rec.size);
    var items := Get(d, "extents").items;
    if DecodeRecord(d).Some? {
      var read := DecodeRecord(d).value;
      EntriesIff(items, read.extents);
      forall i | 0 <= i < |rec.extents| ensures rec.extents[i] == read.extents[i] {
        EntryDetermines(rec.extents[i], read.extents[i]);
      }
    }
  }

  /** A manifest that is read back at all is read back as it was written. */
  lemma ReadAsWritten(files: seq<string>, m: Manifest)
    requires m.files.Keys == set f | f in files
    ensures var r := DecodeManifest(files, EncodeManifest(m)); r.Some? ==> r.value == m
  {
    var j := EncodeManifest(m);
    ManifestParts(m);
    if DecodeManifest(files, j).Some? {
      var r := DecodeManifest(files, j).value;
      DecodeParts(files, j, r);
      forall f | f in files ensures r.files[f] == m.files[f] {
        assert Get(j, "files").fields[f] == EncodeRecord(m.files[f]);
        RecordDeterminesItself(m.files[f]);
      }
      assert r.state == m.state;
    }
  }

  lemma ManifestParts(m: Manifest)
    ensures var j := EncodeManifest(m);
            && Get(j, "format") == Int(1) && Get(j, "state") == EncodeIdentity(m.state)
            && Get(j, "files") == Obj(map f | f in m.files :: EncodeRecord(m.files[f]))
  {
  }

  /** Whatever satisfies the manifest rules survives being written and validated again. */
  lemma ManifestRoundTrip(files: seq<string>, m: Manifest)
    requires ManifestOk(files, m)
    ensures DecodeManifest(files, EncodeManifest(m)) == Some(m)
  {
    ManifestParts(m);
    IdentityRoundTrip(m.state);
    RecordsRoundTrip(files, m.files, map f | f in m.files :: EncodeRecord(m.files[f]));
  }

  ghost predicate OnlyFiles(files: seq<string>, j: Json) {
    j.Obj? && Get(j, "files").Obj? && Get(j, "files").fields.Keys == set f | f in files
  }

  lemma AgreesManifest(j: Json, m: Manifest)
    ensures Agrees(j, EncodeManifest(m)) <==>
              && j.Obj? && Get(j, "format") == Int(1) && Agrees(Get(j, "state"), EncodeIdentity(m.state))
              && Get(j, "files").Obj? && forall f :: f in m.files ==>
                   f in Get(j, "files").fields && Agrees(Get(j, "files").fields[f], EncodeRecord(m.files[f]))
  {
    var files := Obj(map f | f in m.files :: EncodeRecord(m.files[f]));
    AgreesThree(j, EncodeManifest(m).fields, EncodeIdentity(m.state), files);
    if j.Obj? { AgreesFiles(Get(j, "files"), m.files); }
  }

  lemma AgreesThree(j: Json, d: map<string, Json>, state: Json, files: Json)
    requires d == map["format" := Int(1), "state" := state, "files" := files] && !state.Null? && !files.Null?
    ensures Agrees(j, Obj(d)) <==>
              j.Obj? && Get(j, "format") == Int(1) && Agrees(Get(j, "state"), state) && Agrees(Get(j, "files"), files)
  {
    AgreesKeys(j, d, {"format", "state", "files"});
    assert d["format"] == Int(1) && d["state"] == state && d["files"] == files;
    if j.Obj? {
      AgreesThere(j, "state", state);
      AgreesThere(j, "files", files);
    }
  }

  lemma AgreesFiles(j: Json, records: map<string, Record>)
    ensures Agrees(j, Obj(map f | f in records :: EncodeRecord(records[f]))) <==>
              j.Obj? && forall f :: f in records ==> f in j.fields && Agrees(j.fields[f], EncodeRecord(records[f]))
  {
    var fs := map f | f in records :: EncodeRecord(records[f]);
    assert forall f :: f in records ==> fs[f] == EncodeRecord(records[f]);
  }

  /** What is read is what stands at each key. */
  lemma DecodeParts(files: seq<string>, j: Json, m: Manifest)
    requires OnlyFiles(files, j) && m.files.Keys == set f | f in files
    ensures DecodeManifest(files, j) == Some(m) <==>
              && Get(j, "format") == Int(1) && DecodeIdentity(Get(j, "state")) == Some(m.state)
              && forall f :: f in files ==> DecodeRecord(Get(j, "files").fields[f]) == Some(m.files[f])
  {
    var fs := Get(j, "files").fields;
    if forall f :: f in files ==> DecodeRecord(fs[f]).Some? {
      var read := map f | f in files :: DecodeRecord(fs[f]).value;
      assert read == m.files <==> forall f :: f in files ==> DecodeRecord(fs[f]).value == m.files[f];
    }
  }

  lemma RecordsIff(files: seq<string>, fs: map<string, Json>, records: map<string, Record>)
    requires records.Keys == fs.Keys == set f | f in files
    ensures (forall f :: f in files ==> DecodeRecord(fs[f]) == Some(records[f])) <==>
              forall f :: f in files ==> Agrees(fs[f], EncodeRecord(records[f])) && RecordOk(records[f])
  {
    forall f | f in files
      ensures DecodeRecord(fs[f]) == Some(records[f]) <==>
                Agrees(fs[f], EncodeRecord(records[f])) && RecordOk(records[f])
    {
      RecordIff(fs[f], records[f]);
    }
  }

  /** A document is read as the manifest `m` exactly if it says what `m` is written as, lists the whitelist's
      files and no others, and `m` obeys the rules. */
  lemma ManifestIff(files: seq<string>, j: Json, m: Manifest)
    ensures DecodeManifest(files, j) == Some(m) <==>
              ManifestOk(files, m) && Agrees(j, EncodeManifest(m)) && OnlyFiles(files, j)
  {
    if OnlyFiles(files, j) && m.files.Keys == set f | f in files {
      DecodeParts(files, j, m);
      AgreesManifest(j, m);
      IdentityIff(Get(j, "state"), m.state);
      RecordsIff(files, Get(j, "files").fields, m.files);
    }
  }

  lemma RecordsRoundTrip(files: seq<string>, records: map<string, Record>, fs: map<string, Json>)
    requires records.Keys == fs.Keys == (set f | f in files)
    requires forall f :: f in files ==> RecordOk(records[f]) && fs[f] == EncodeRecord(records[f])
    ensures forall f :: f in files ==> DecodeRecord(fs[f]) == Some(records[f])
    ensures (map f | f in files :: DecodeRecord(fs[f]).value) == records
  {
    forall f | f in files ensures DecodeRecord(fs[f]) == Some(records[f]) {
      RecordRoundTrip(records[f]);
    }
  }
}
