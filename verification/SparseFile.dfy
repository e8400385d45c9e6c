/** Sparse copies: `ranges`, `copy_sparse` and `verify_file` of scripts/state_checkpoint.py.

    A file is the byte sequence a reader sees. What the operating system adds is a parameter:
    a `Layout` answers SEEK_DATA and SEEK_HOLE, a `Device` decides how short each read and write is.
    Each offset is asked about at most once in a pass, so functions of the offset cover every schedule.
    SHA-256 is any function from byte sequences to strings; feeding it piecewise is concatenation. */
module SparseFile {

  type byte = x: int | 0 <= x < 256

  const CHUNK: nat := 4 * 1024 * 1024

  datatype Error =
    | SeekFailed | InvalidSparseExtent | UnexpectedEof | NoSpace | ShortWrite | SourceChanged
    | SizeMismatch | InvalidManifestExtent | ChecksumMismatch | NonzeroHole

  datatype Result<+T> = Ok(value: T) | Err(error: Error)

  function Min(a: nat, b: nat): nat { if a <= b then a else b }

  // ---------------------------------------------------------------------------------------------
  // Holes

  /** What lseek answers: a position, ENXIO, "not supported here" (EINVAL, ENOTSUP), or another error. */
  datatype Seek = At(pos: nat) | NoData | Unsupported | Failed

  datatype Layout = Layout(data: nat -> Seek, hole: nat -> Seek)

  datatype Extent = Extent(start: nat, end: nat)

  predicate IsZero(s: seq<byte>, lo: nat, hi: nat) {
    forall j :: lo <= j < hi && j < |s| ==> s[j] == 0
  }

  /** The only promise relied on: what SEEK_DATA skips reads as zero, and SEEK_HOLE does not deny the
      existence of a position inside the file. */
  ghost predicate Honest(layout: Layout, content: seq<byte>) {
    forall o: nat :: o < |content| ==>
      && (layout.data(o).At? ==> IsZero(content, o, layout.data(o).pos))
      && (layout.data(o).NoData? ==> IsZero(content, o, |content|))
      && !layout.hole(o).NoData?
  }

  datatype Found = Yield(extent: Extent) | Stop | Raise(error: Error)

  function Checked(offset: nat, start: nat, end: nat, size: nat): Found {
    if offset <= start < end <= size then Yield(Extent(start, end)) else Raise(InvalidSparseExtent)
  }

  /** One turn of the generator. */
  function Next(layout: Layout, size: nat, offset: nat): (r: Found)
    requires offset < size
    ensures r.Yield? ==> offset <= r.extent.start < r.extent.end <= size
  {
    match layout.data(offset)
    case NoData => Stop
    case Failed => Raise(SeekFailed)
    case Unsupported => Checked(offset, offset, size, size)
    case At(start) =>
      match layout.hole(start)
      case NoData => Stop
      case Failed => Raise(SeekFailed)
      case Unsupported => Checked(offset, offset, size, size)
      case At(end) => Checked(offset, start, Min(end, size), size)
  }

  /** Everything the generator yields from `offset` on, after `acc`. */
  function Scan(layout: Layout, size: nat, offset: nat, acc: seq<Extent>): Result<seq<Extent>>
    decreases size - offset
  {
    if offset >= size then Ok(acc)
    else
      match Next(layout, size, offset)
      case Stop => Ok(acc)
      case Raise(e) => Err(e)
      case Yield(x) => Scan(layout, size, x.end, acc + [x])
  }

  ghost predicate Increasing(xs: seq<Extent>, hi: nat) {
    && (forall i :: 0 <= i < |xs| ==> xs[i].start < xs[i].end <= hi)
    && (forall i, j :: 0 <= i < j < |xs| ==> xs[i].end <= xs[j].start)
  }

  ghost predicate Covers(xs: seq<Extent>, j: nat) {
    exists i :: 0 <= i < |xs| && xs[i].start <= j < xs[i].end
  }

  ghost predicate ZeroElsewhere(content: seq<byte>, xs: seq<Extent>, hi: nat) {
    forall j: nat :: j < hi && j < |content| && !Covers(xs, j) ==> content[j] == 0
  }

  /** One more extent covers what it did before and its own bytes. */
  lemma CoversMore(xs: seq<Extent>, x: Extent, j: nat)
    ensures Covers(xs + [x], j) <==> Covers(xs, j) || x.start <= j < x.end
  {
    var ys := xs + [x];
    if Covers(xs, j) {
      var i :| 0 <= i < |xs| && xs[i].start <= j < xs[i].end;
      assert ys[i] == xs[i];
    }
    assert ys[|xs|] == x;
  }

  /** The yielded extents are increasing, disjoint and in range; under an honest layout every byte
      they leave out is zero, even if the fallback to a full scan begins midway. */
  lemma {:induction false} ScanIsSound(layout: Layout, content: seq<byte>, offset: nat, acc: seq<Extent>)
    requires Increasing(acc, offset) && offset <= |content|
    ensures var r := Scan(layout, |content|, offset, acc);
            r.Ok? ==> Increasing(r.value, |content|)
    ensures var r := Scan(layout, |content|, offset, acc);
            r.Ok? && Honest(layout, content) && ZeroElsewhere(content, acc, offset) ==>
              ZeroElsewhere(content, r.value, |content|)
    decreases |content| - offset
  {
    if offset < |content| {
      var next := Next(layout, |content|, offset);
      if next.Yield? {
        ScanIsSound(layout, content, next.extent.end, acc + [next.extent]);
        if Honest(layout, content) && ZeroElsewhere(content, acc, offset) {
          SkippedIsZero(layout, content, offset, acc);
        }
      }
    }
  }

  lemma SkippedIsZero(layout: Layout, content: seq<byte>, offset: nat, acc: seq<Extent>)
    requires offset < |content| && Honest(layout, content) && ZeroElsewhere(content, acc, offset)
    requires Next(layout, |content|, offset).Yield?
    ensures var x := Next(layout, |content|, offset).extent;
            ZeroElsewhere(content, acc + [x], x.end)
  {
    var x := Next(layout, |content|, offset).extent;
    forall j: nat | j < x.end && !Covers(acc + [x], j)
      ensures content[j] == 0
    {
      CoversMore(acc, x, j);
    }
  }

  // ---------------------------------------------------------------------------------------------
  // When the scan succeeds, and what it then finds

  /** The answers a kernel may give inside a file: no data behind here, not supported, or data that begins at or behind
      the offset and before the end of the file, and goes on beyond where it begins. */
  ghost predicate Regular(layout: Layout, size: nat) {
    forall o: nat :: o < size ==> RegularAt(layout, size, o)
  }

  ghost predicate RegularAt(layout: Layout, size: nat, o: nat) {
    match layout.data(o)
    case NoData => true
    case Unsupported => true
    case Failed => false
    case At(p) => !layout.hole(p).Failed? && (layout.hole(p).At? ==> o <= p < size && p < layout.hole(p).pos)
  }

  /** With such answers the scan never fails. */
  lemma {:induction false} ScanSucceeds(layout: Layout, size: nat, offset: nat, acc: seq<Extent>)
    requires Regular(layout, size)
    ensures Scan(layout, size, offset, acc).Ok?
    decreases size - offset
  {
    if offset < size {
      assert RegularAt(layout, size, offset);
      var next := Next(layout, size, offset);
      if next.Yield? { ScanSucceeds(layout, size, next.extent.end, acc + [next.extent]); }
    }
  }

  /** Data regions with holes between them. */
  ghost predicate Separated(xs: seq<Extent>, size: nat) {
    Increasing(xs, size) && forall i :: 0 < i < |xs| ==> xs[i - 1].end < xs[i].start
  }

  /** SEEK_DATA answers with the first data position from `o` on, or says that there is none. */
  ghost predicate FindsData(layout: Layout, size: nat, xs: seq<Extent>, o: nat) {
    match layout.data(o)
    case At(p) => o <= p < size && Covers(xs, p) && forall q: nat :: o <= q < p ==> !Covers(xs, q)
    case NoData => forall q: nat :: o <= q < size ==> !Covers(xs, q)
    case _ => false
  }

  /** SEEK_HOLE answers with the first position from `p` on that is not data; the end of the file is one. */
  ghost predicate FindsHole(layout: Layout, size: nat, xs: seq<Extent>, p: nat) {
    layout.hole(p).At? && var e := layout.hole(p).pos;
    p <= e && (e < size ==> !Covers(xs, e)) && forall q: nat :: p <= q < e && q < size ==> Covers(xs, q)
  }

  /** The layout of a file whose data is in these regions. */
  ghost predicate Describes(layout: Layout, size: nat, xs: seq<Extent>) {
    forall o: nat :: o < size ==> FindsData(layout, size, xs, o) && FindsHole(layout, size, xs, o)
  }

  lemma CoversAt(xs: seq<Extent>, i: nat, j: nat)
    requires i < |xs| && xs[i].start <= j < xs[i].end
    ensures Covers(xs, j)
  {
  }

  /** Between one region and the next there is no data. */
  lemma NotBetween(xs: seq<Extent>, size: nat, i: nat, j: nat)
    requires Increasing(xs, size) && i <= |xs| && (i > 0 ==> xs[i - 1].end <= j) && (i < |xs| ==> j < xs[i].start)
    ensures !Covers(xs, j)
  {
    forall k | 0 <= k < |xs| ensures !(xs[k].start <= j < xs[k].end) {
      if k < i {
        assert k == i - 1 || xs[k].end <= xs[i - 1].start;
      } else {
        assert k == i || xs[i].end <= xs[k].start;
      }
    }
  }

  function EndOf(xs: seq<Extent>, i: nat): nat
    requires i <= |xs|
  {
    if i == 0 then 0 else xs[i - 1].end
  }

  lemma EndsInside(xs: seq<Extent>, size: nat, i: nat)
    requires Increasing(xs, size) && i < |xs|
    ensures EndOf(xs, i) <= xs[i].start < size
  {
  }

  lemma NextRegion(layout: Layout, size: nat, xs: seq<Extent>, i: nat)
    requires Separated(xs, size) && Describes(layout, size, xs) && i <= |xs| && EndOf(xs, i) < size
    ensures Next(layout, size, EndOf(xs, i)) == if i < |xs| then Yield(xs[i]) else Stop
  {
    var o := EndOf(xs, i);
    assert FindsData(layout, size, xs, o);
    if i < |xs| {
      var x := xs[i];
      CoversAt(xs, i, x.start);
      assert layout.data(o).At?;
      var p := layout.data(o).pos;
      if p < x.start { NotBetween(xs, size, i, p); }
      assert p == x.start;
      assert FindsHole(layout, size, xs, p);
      var e := layout.hole(p).pos;
      if e < x.end { CoversAt(xs, i, e); }
      if x.end < size { NotBetween(xs, size, i + 1, x.end); }
    } else if layout.data(o).At? {
      NotBetween(xs, size, i, layout.data(o).pos);
    }
  }

  /** On a file whose data is in these regions the scan finds exactly them. */
  lemma {:induction false} ScanRegions(layout: Layout, size: nat, xs: seq<Extent>, i: nat)
    requires Separated(xs, size) && Describes(layout, size, xs) && i <= |xs|
    ensures Scan(layout, size, EndOf(xs, i), xs[..i]) == Ok(xs)
    decreases |xs| - i
  {
    if i < |xs| { EndsInside(xs, size, i); }
    if EndOf(xs, i) < size {
      NextRegion(layout, size, xs, i);
      if i < |xs| {
        assert xs[..i] + [xs[i]] == xs[..i + 1];
        ScanRegions(layout, size, xs, i + 1);
      } else {
        assert xs[..i] == xs;
      }
    } else {
      assert xs[..i] == xs;
    }
  }

  /** Where holes are not supported, the rest of the file is one extent. */
  lemma ScanFallback(layout: Layout, size: nat, offset: nat, acc: seq<Extent>)
    requires offset < size
    requires layout.data(offset).Unsupported?
             || (layout.data(offset).At? && layout.hole(layout.data(offset).pos).Unsupported?)
    ensures Scan(layout, size, offset, acc) == Ok(acc + [Extent(offset, size)])
  {
  }

  /** Any other answer stops the scan where it is given: an error of lseek as such, a position before the offset, an
      empty extent or one beyond the end as an invalid extent. */
  lemma ScanRaises(layout: Layout, size: nat, offset: nat, acc: seq<Extent>)
    requires offset < size && !RegularAt(layout, size, offset)
    ensures var failed := layout.data(offset).Failed? || layout.hole(layout.data(offset).pos).Failed?;
            Scan(layout, size, offset, acc) == Err(if failed then SeekFailed else InvalidSparseExtent)
  {
  }

  lemma {:induction false} ScanErrors(layout: Layout, size: nat, offset: nat, acc: seq<Extent>)
    ensures var r := Scan(layout, size, offset, acc); r.Err? ==> r.error in {SeekFailed, InvalidSparseExtent}
    decreases size - offset
  {
    if offset < size {
      var next := Next(layout, size, offset);
      if next.Yield? { ScanErrors(layout, size, next.extent.end, acc + [next.extent]); }
    }
  }

  /** `ranges`, drained. */
  method Ranges(layout: Layout, size: nat) returns (r: Result<seq<Extent>>)
    ensures r == Scan(layout, size, 0, [])
    ensures r.Ok? ==> Increasing(r.value, size)
    ensures Regular(layout, size) ==> r.Ok?
    ensures r.Err? ==> r.error in {SeekFailed, InvalidSparseExtent}
    ensures size > 0 && !RegularAt(layout, size, 0) ==> r.Err?
    ensures forall xs :: Separated(xs, size) && Describes(layout, size, xs) ==> r == Ok(xs)
  {
    if Regular(layout, size) { ScanSucceeds(layout, size, 0, []); }
    if size > 0 && !RegularAt(layout, size, 0) { ScanRaises(layout, size, 0, []); }
    ScanErrors(layout, size, 0, []);
    forall xs | Separated(xs, size) && Describes(layout, size, xs) ensures Scan(layout, size, 0, []) == Ok(xs) {
      ScanRegions(layout, size, xs, 0);
    }
    var out: seq<Extent> := [];
    var offset := 0;
    while offset < size
      invariant offset <= size && Increasing(out, offset)
      invariant Scan(layout, size, offset, out) == Scan(layout, size, 0, [])
      decreases size - offset
    {
      match Next(layout, size, offset) {
        case Stop => return Ok(out);
        case Raise(e) => return Err(e);
        case Yield(x) =>
          out := out + [x];
          offset := x.end;
      }
    }
    return Ok(out);
  }

  // ---------------------------------------------------------------------------------------------
  // Records

  datatype Entry = Entry(offset: int, length: int, sha256: string)

  datatype Record = Record(size: int, extents: seq<Entry>)

  type Sha = seq<byte> -> string

  /** Where the extent before the `i`-th ends. */
  function EndBefore(xs: seq<Entry>, i: nat): int
    requires i <= |xs|
  {
    if i == 0 then 0 else xs[i - 1].offset + xs[i - 1].length
  }

  predicate Placed(rec: Record, i: nat)
    requires i < |rec.extents|
  {
    EndBefore(rec.extents, i) <= rec.extents[i].offset
      < rec.extents[i].offset + rec.extents[i].length <= rec.size
  }

  /** The extents are non-empty, increasing, disjoint and inside the file. */
  predicate WellPlaced(rec: Record) {
    rec.size >= 0 && forall i :: 0 <= i < |rec.extents| ==> Placed(rec, i)
  }

  predicate InExtent(xs: seq<Entry>, j: nat) {
    exists i :: 0 <= i < |xs| && xs[i].offset <= j < xs[i].offset + xs[i].length
  }

  function Slice(content: seq<byte>, x: Entry): seq<byte> {
    if 0 <= x.offset < x.offset + x.length <= |content| then content[x.offset..x.offset + x.length] else []
  }

  /** The plain meaning of "this file is the one that was recorded". */
  predicate Matches(content: seq<byte>, rec: Record, sha: Sha) {
    && |content| == rec.size && WellPlaced(rec)
    && (forall i :: 0 <= i < |rec.extents| ==> sha(Slice(content, rec.extents[i])) == rec.extents[i].sha256)
    && (forall j: nat :: j < |content| && !InExtent(rec.extents, j) ==> content[j] == 0)
  }

  function EntryFor(content: seq<byte>, x: Extent, sha: Sha): Entry
    requires x.start <= x.end <= |content|
  {
    Entry(x.start, x.end - x.start, sha(content[x.start..x.end]))
  }

  /** The record of `content` with these extents. */
  function RecordOf(content: seq<byte>, xs: seq<Extent>, sha: Sha): Record
    requires forall i :: 0 <= i < |xs| ==> xs[i].start <= xs[i].end <= |content|
  {
    Record(|content|, seq(|xs|, i requires 0 <= i < |xs| => EntryFor(content, xs[i], sha)))
  }

  /** Any extents that leave out only zero bytes make a record that the file itself matches. */
  lemma RecordMatches(content: seq<byte>, xs: seq<Extent>, sha: Sha)
    requires Increasing(xs, |content|) && ZeroElsewhere(content, xs, |content|)
    ensures Matches(content, RecordOf(content, xs, sha), sha)
  {
    var rec := RecordOf(content, xs, sha);
    forall i | 0 <= i < |xs|
      ensures Placed(rec, i) && Slice(content, rec.extents[i]) == content[xs[i].start..xs[i].end]
    {
      if i > 0 { assert xs[i - 1].end <= xs[i].start; }
    }
    forall j: nat | Covers(xs, j)
      ensures InExtent(rec.extents, j)
    {
      var i :| 0 <= i < |xs| && xs[i].start <= j < xs[i].end;
      assert rec.extents[i].offset <= j < rec.extents[i].offset + rec.extents[i].length;
    }
  }

  ghost predicate Collides(sha: Sha) {
    exists x, y :: x != y && sha(x) == sha(y)
  }

  lemma SameSlice(a: seq<byte>, b: seq<byte>, rec: Record, sha: Sha, i: nat)
    requires Matches(a, rec, sha) && Matches(b, rec, sha) && i < |rec.extents| && !Collides(sha)
    ensures var x := rec.extents[i];
            && 0 <= x.offset < x.offset + x.length <= |a| == |b|
            && a[x.offset..x.offset + x.length] == b[x.offset..x.offset + x.length]
  {
    var x := rec.extents[i];
    EndsNonNegative(rec, i);
    assert Placed(rec, i);
    assert sha(Slice(a, x)) == sha(Slice(b, x));
  }

  lemma SameByte(a: seq<byte>, b: seq<byte>, rec: Record, sha: Sha, j: nat)
    requires Matches(a, rec, sha) && Matches(b, rec, sha) && j < |a| && !Collides(sha)
    ensures a[j] == b[j]
  {
    if InExtent(rec.extents, j) {
      var i :| 0 <= i < |rec.extents| && rec.extents[i].offset <= j < rec.extents[i].offset + rec.extents[i].length;
      var x := rec.extents[i];
      SameSlice(a, b, rec, sha, i);
      assert a[j] == a[x.offset..x.offset + x.length][j - x.offset];
      assert b[j] == b[x.offset..x.offset + x.length][j - x.offset];
    }
  }

  /** A record pins the contents down: two files that match it are equal, or SHA-256 has collided. */
  lemma RecordDetermines(a: seq<byte>, b: seq<byte>, rec: Record, sha: Sha)
    requires Matches(a, rec, sha) && Matches(b, rec, sha)
    ensures a == b || Collides(sha)
  {
    if !Collides(sha) {
      forall j: nat | j < |a| ensures a[j] == b[j] { SameByte(a, b, rec, sha, j); }
    }
  }

  lemma {:induction false} EndsNonNegative(rec: Record, i: nat)
    requires WellPlaced(rec) && i <= |rec.extents|
    ensures 0 <= EndBefore(rec.extents, i) <= rec.size
  {
    if i > 0 {
      EndsNonNegative(rec, i - 1);
      assert Placed(rec, i - 1);
    }
  }

  // ---------------------------------------------------------------------------------------------
  // Copying

  /** How the kernel behaves: how many bytes a read or write of so many at an offset moves, and
      whether the destination has room left there. */
  datatype Device = Device(read: (nat, nat) -> nat, write: (nat, nat) -> nat, room: nat -> bool)

  /** No read or write comes back empty-handed, and the disk does not fill up. */
  ghost predicate Healthy(dev: Device) {
    && (forall o: nat, n: nat :: n > 0 ==> dev.read(o, n) > 0)
    && (forall o: nat, n: nat :: n > 0 ==> dev.write(o, n) > 0)
    && (forall o: nat :: dev.room(o))
  }

  function Pread(dev: Device, content: seq<byte>, want: nat, offset: nat): (r: seq<byte>)
    requires offset + want <= |content|
    ensures |r| <= want && r == content[offset..offset + |r|]
    ensures Healthy(dev) && want > 0 ==> |r| > 0
  {
    content[offset..offset + Min(dev.read(offset, want), want)]
  }

  predicate AnyNonzero(data: seq<byte>) {
    exists i :: 0 <= i < |data| && data[i] != 0
  }

  /** Writes `data` at `position`, however little each write takes. */
  method WriteAll(dst: array<byte>, position: nat, data: seq<byte>, dev: Device) returns (ok: bool)
    requires position + |data| <= dst.Length
    modifies dst
    ensures ok ==> dst[position..position + |data|] == data
    ensures forall j :: 0 <= j < dst.Length && !(position <= j < position + |data|) ==> dst[j] == old(dst[j])
    ensures Healthy(dev) ==> ok
  {
    var done := 0;
    while done < |data|
      invariant done <= |data|
      invariant forall j :: 0 <= j < done ==> dst[position + j] == data[j]
      invariant forall j :: 0 <= j < dst.Length && !(position <= j < position + |data|) ==> dst[j] == old(dst[j])
    {
      var count := Min(dev.write(position + done, |data| - done), |data| - done);
      if count == 0 { return false; }
      forall j | 0 <= j < count { dst[position + done + j] := data[done + j]; }
      done := done + count;
    }
    return true;
  }

  /** Copies one extent onto zeroes and returns the bytes that went into the digest. */
  method CopyExtent(src: seq<byte>, dst: array<byte>, x: Extent, dev: Device) returns (r: Result<seq<byte>>)
    requires dst.Length == |src| && x.start < x.end <= |src|
    requires forall j :: x.start <= j < x.end ==> dst[j] == 0
    modifies dst
    ensures r.Ok? ==> r.value == src[x.start..x.end]
    ensures r.Ok? ==> forall j :: x.start <= j < x.end ==> dst[j] == src[j]
    ensures forall j :: 0 <= j < |src| && !(x.start <= j < x.end) ==> dst[j] == old(dst[j])
    ensures Healthy(dev) ==> r.Ok?
    ensures r.Err? ==> r.error in {UnexpectedEof, NoSpace, ShortWrite}
  {
    var digest: seq<byte> := [];
    var offset := x.start;
    while offset < x.end
      invariant x.start <= offset <= x.end
      invariant digest == src[x.start..offset]
      invariant forall j :: x.start <= j < offset ==> dst[j] == src[j]
      invariant forall j :: offset <= j < x.end ==> dst[j] == 0
      invariant forall j :: 0 <= j < |src| && !(x.start <= j < x.end) ==> dst[j] == old(dst[j])
    {
      var data := Pread(dev, src, Min(CHUNK, x.end - offset), offset);
      if |data| == 0 { return Err(UnexpectedEof); }
      assert src[x.start..offset + |data|] == src[x.start..offset] + data;
      digest := digest + data;
      if AnyNonzero(data) {
        if !dev.room(offset) { return Err(NoSpace); }
        var ok := WriteAll(dst, offset, data, dev);
        if !ok { return Err(ShortWrite); }
        forall j | offset <= j < offset + |data| ensures dst[j] == src[j] {
          assert dst[j] == dst[offset..offset + |data|][j - offset];
        }
      }
      offset := offset + |data|;
    }
    return Ok(digest);
  }

  /** Every extent is copied onto zeroes and recorded, in order. */
  method CopyExtents(src: seq<byte>, dst: array<byte>, xs: seq<Extent>, dev: Device, sha: Sha)
    returns (r: Result<seq<Entry>>)
    requires dst.Length == |src| && Increasing(xs, |src|) && forall j :: 0 <= j < |src| ==> dst[j] == 0
    modifies dst
    ensures r.Ok? ==> r.value == RecordOf(src, xs, sha).extents
    ensures r.Ok? ==> forall j: nat :: j < |src| ==> dst[j] == if Covers(xs, j) then src[j] else 0
    ensures Healthy(dev) ==> r.Ok?
    ensures r.Err? ==> r.error in {UnexpectedEof, NoSpace, ShortWrite}
  {
    var entries: seq<Entry> := [];
    var i := 0;
    while i < |xs|
      invariant 0 <= i <= |xs| && |entries| == i
      invariant forall k :: 0 <= k < i ==> entries[k] == EntryFor(src, xs[k], sha)
      invariant forall j: nat :: j < |src| ==> dst[j] == if Covers(xs[..i], j) then src[j] else 0
    {
      assert xs[..i + 1] == xs[..i] + [xs[i]];
      forall j: nat ensures Covers(xs[..i + 1], j) <==> Covers(xs[..i], j) || xs[i].start <= j < xs[i].end {
        CoversMore(xs[..i], xs[i], j);
      }
      var digest := CopyExtent(src, dst, xs[i], dev);
      if digest.Err? { return Err(digest.error); }
      entries := entries + [Entry(xs[i].start, xs[i].end - xs[i].start, sha(digest.value))];
      i := i + 1;
    }
    assert xs[..i] == xs;
    return Ok(entries);
  }

  /** `copy_sparse`: the copy and its record. `stable` is the comparison of the source's size, mtime
      and inode before and after. */
  method CopySparse(src: seq<byte>, layout: Layout, dev: Device, sha: Sha, stable: bool)
    returns (r: Result<Record>, dst: array<byte>)
    ensures dst.Length == |src|
    ensures r.Ok? ==> stable && Scan(layout, |src|, 0, []).Ok?
    ensures r.Ok? ==> var xs := Scan(layout, |src|, 0, []).value;
                      Increasing(xs, |src|) && r.value == RecordOf(src, xs, sha)
    ensures r.Ok? && Honest(layout, src) ==> dst[..] == src && Matches(src, r.value, sha)
    ensures Healthy(dev) && stable && Regular(layout, |src|) ==> r.Ok?
    ensures r.Err? ==>
              match r.error
              case SourceChanged => !stable
              case SeekFailed => !Regular(layout, |src|)
              case InvalidSparseExtent => !Regular(layout, |src|)
              case e => e in {UnexpectedEof, NoSpace, ShortWrite} && !Healthy(dev)
  {
    dst := new byte[|src|](_ => 0);
    var ranges := Ranges(layout, |src|);
    if ranges.Err? { return Err(ranges.error), dst; }
    var entries := CopyExtents(src, dst, ranges.value, dev, sha);
    if entries.Err? { return Err(entries.error), dst; }
    if !stable { return Err(SourceChanged), dst; }
    r := Ok(Record(|src|, entries.value));
    if Honest(layout, src) {
      ScanIsSound(layout, src, 0, []);
      RecordMatches(src, ranges.value, sha);
      CopyIsWhole(src, dst[..], ranges.value);
    }
  }

  /** Right inside the extents and zero outside them is right everywhere. */
  lemma CopyIsWhole(src: seq<byte>, copy: seq<byte>, xs: seq<Extent>)
    requires |copy| == |src| && Increasing(xs, |src|) && ZeroElsewhere(src, xs, |src|)
    requires forall j: nat :: j < |src| ==> copy[j] == if Covers(xs, j) then src[j] else 0
    ensures copy == src
  {
  }

  // ---------------------------------------------------------------------------------------------
  // Verifying

  datatype Verdict = Accepted | Refused(error: Error)

  datatype Gap = Gap(lo: int, hi: int)

  /** The gap in front of the `i`-th extent, or the one after the last. */
  function GapAt(rec: Record, i: nat): Gap
    requires i <= |rec.extents|
  {
    Gap(EndBefore(rec.extents, i), if i < |rec.extents| then rec.extents[i].offset else rec.size)
  }

  ghost predicate AllGaps(rec: Record, gaps: seq<Gap>, n: nat) {
    |gaps| == n <= |rec.extents| + 1 && forall i :: 0 <= i < n ==> gaps[i] == GapAt(rec, i)
  }

  ghost predicate Ascending(gaps: seq<Gap>, hi: nat) {
    && (forall i :: 0 <= i < |gaps| ==> 0 <= gaps[i].lo <= gaps[i].hi <= hi)
    && (forall i, j :: 0 <= i < j < |gaps| ==> gaps[i].hi <= gaps[j].lo)
  }

  lemma {:induction false} EndsAscend(rec: Record, i: nat, j: nat)
    requires WellPlaced(rec) && i < j <= |rec.extents|
    ensures rec.extents[i].offset + rec.extents[i].length <= EndBefore(rec.extents, j)
  {
    if i < j - 1 {
      EndsAscend(rec, i, j - 1);
      assert Placed(rec, j - 1);
    }
  }

  /** The gaps are increasing and disjoint. */
  lemma GapsAscend(rec: Record, gaps: seq<Gap>)
    requires WellPlaced(rec) && AllGaps(rec, gaps, |rec.extents| + 1)
    ensures Ascending(gaps, rec.size)
  {
    forall i | 0 <= i < |gaps|
      ensures 0 <= gaps[i].lo <= gaps[i].hi <= rec.size
    {
      EndsNonNegative(rec, i);
      if i < |rec.extents| { assert Placed(rec, i); }
    }
    forall i, j | 0 <= i < j < |gaps|
      ensures gaps[i].hi <= gaps[j].lo
    {
      EndsAscend(rec, i, j);
      assert Placed(rec, i);
    }
  }

  ghost predicate InGap(gaps: seq<Gap>, j: nat) {
    exists i :: 0 <= i < |gaps| && gaps[i].lo <= j < gaps[i].hi
  }

  /** Gaps and extents together partition the file. */
  lemma GapsPartition(rec: Record, gaps: seq<Gap>, j: nat)
    requires WellPlaced(rec) && AllGaps(rec, gaps, |rec.extents| + 1) && j < rec.size
    ensures InGap(gaps, j) <==> !InExtent(rec.extents, j)
  {
    if InGap(gaps, j) {
      var i :| 0 <= i < |gaps| && gaps[i].lo <= j < gaps[i].hi;
      forall k | 0 <= k < |rec.extents|
        ensures !(rec.extents[k].offset <= j < rec.extents[k].offset + rec.extents[k].length)
      {
        if k < i { EndsAscend(rec, k, i); }
        if i < k { EndsAscend(rec, i, k); assert Placed(rec, k) && Placed(rec, i); }
      }
    } else if !InExtent(rec.extents, j) {
      NextEnd(rec, gaps, j, |rec.extents|);
    }
  }

  lemma {:induction false} NextEnd(rec: Record, gaps: seq<Gap>, j: nat, i: nat)
    requires WellPlaced(rec) && AllGaps(rec, gaps, |rec.extents| + 1) && i <= |rec.extents|
    requires j < GapAt(rec, i).hi && !InExtent(rec.extents, j)
    ensures InGap(gaps, j)
  {
    if gaps[i].lo <= j {
      assert gaps[i].lo <= j < gaps[i].hi;
    } else {
      assert Placed(rec, i - 1);
      NextEnd(rec, gaps, j, i - 1);
    }
  }

  /** Reads back one extent. */
  method HashExtent(content: seq<byte>, x: Entry, dev: Device) returns (r: Result<seq<byte>>)
    requires 0 <= x.offset < x.offset + x.length <= |content|
    ensures r.Ok? ==> r.value == Slice(content, x)
    ensures Healthy(dev) ==> r.Ok?
    ensures r.Err? ==> r.error == UnexpectedEof
  {
    var digest: seq<byte> := [];
    var offset := x.offset;
    while offset < x.offset + x.length
      invariant x.offset <= offset <= x.offset + x.length
      invariant digest == content[x.offset..offset]
    {
      var data := Pread(dev, content, Min(CHUNK, x.offset + x.length - offset), offset);
      if |data| == 0 { return Err(UnexpectedEof); }
      digest := digest + data;
      offset := offset + |data|;
    }
    return Ok(digest);
  }

  /** Checks that a stretch reads as zero. */
  method CheckZero(content: seq<byte>, start: nat, stop: int, dev: Device) returns (ok: bool)
    requires stop <= |content|
    ensures ok ==> forall j :: start <= j < stop ==> content[j] == 0
    ensures Healthy(dev) && !ok ==> exists j :: start <= j < stop && content[j] != 0
  {
    var offset := start;
    while offset < stop
      invariant start <= offset && (offset <= stop || offset == start)
      invariant forall j :: start <= j < offset && j < stop ==> content[j] == 0
    {
      var data := Pread(dev, content, Min(CHUNK, stop - offset), offset);
      if |data| == 0 { return false; }
      if AnyNonzero(data) {
        ghost var i :| 0 <= i < |data| && data[i] != 0;
        assert content[offset + i] == data[i];
        return false;
      }
      forall j | offset <= j < offset + |data| ensures content[j] == 0 {
        assert content[j] == data[j - offset];
      }
      offset := offset + |data|;
    }
    return true;
  }

  /** Byte `j` is in the `t`-th range and in a gap. */
  ghost predicate Suspect(xs: seq<Extent>, gaps: seq<Gap>, t: nat, j: nat) {
    t < |xs| && xs[t].start <= j < xs[t].end && InGap(gaps, j)
  }

  /** The two-index scan over ranges and gaps. */
  method CheckGaps(content: seq<byte>, xs: seq<Extent>, gaps: seq<Gap>, dev: Device) returns (ok: bool)
    requires Increasing(xs, |content|) && Ascending(gaps, |content|)
    ensures ok ==> forall t: nat, j: nat :: Suspect(xs, gaps, t, j) ==> content[j] == 0
    ensures Healthy(dev) && !ok ==> exists t: nat, j: nat :: Suspect(xs, gaps, t, j) && content[j] != 0
  {
    var gapIndex := 0;
    var t := 0;
    while t < |xs|
      invariant 0 <= t <= |xs| && 0 <= gapIndex <= |gaps|
      invariant t < |xs| ==> forall g :: 0 <= g < gapIndex ==> gaps[g].hi <= xs[t].start
      invariant forall s: nat, j: nat :: s < t && Suspect(xs, gaps, s, j) ==> content[j] == 0
    {
      var x := xs[t];
      while gapIndex < |gaps| && gaps[gapIndex].hi <= x.start
        invariant gapIndex <= |gaps|
        invariant forall g :: 0 <= g < gapIndex ==> gaps[g].hi <= x.start
      {
        gapIndex := gapIndex + 1;
      }
      var index := gapIndex;
      while index < |gaps| && gaps[index].lo < x.end
        invariant gapIndex <= index <= |gaps|
        invariant forall g, j :: 0 <= g < index && x.start <= j < x.end && gaps[g].lo <= j < gaps[g].hi ==>
                    content[j] == 0
      {
        var start := if x.start >= gaps[index].lo then x.start else gaps[index].lo;
        var stop := if x.end <= gaps[index].hi then x.end else gaps[index].hi;
        var zero := CheckZero(content, start, stop, dev);
        if !zero {
          if Healthy(dev) {
            ghost var j :| start <= j < stop && content[j] != 0;
            assert gaps[index].lo <= j < gaps[index].hi;
            assert Suspect(xs, gaps, t, j);
          }
          return false;
        }
        index := index + 1;
      }
      t := t + 1;
    }
    return true;
  }

  /** The first `n` extents are in place, have the recorded digests, and these are the gaps before them. */
  ghost predicate PassedTo(content: seq<byte>, rec: Record, sha: Sha, gaps: seq<Gap>, n: nat) {
    && n <= |rec.extents| && AllGaps(rec, gaps, n)
    && (forall k :: 0 <= k < n ==> Placed(rec, k))
    && (forall k :: 0 <= k < n ==> sha(Slice(content, rec.extents[k])) == rec.extents[k].sha256)
  }

  lemma PassedNext(content: seq<byte>, rec: Record, sha: Sha, gaps: seq<Gap>, n: nat)
    requires PassedTo(content, rec, sha, gaps, n) && n < |rec.extents| && Placed(rec, n)
    requires sha(Slice(content, rec.extents[n])) == rec.extents[n].sha256
    ensures PassedTo(content, rec, sha, gaps + [Gap(EndBefore(rec.extents, n), rec.extents[n].offset)], n + 1)
  {
  }

  /** What is wrong with a file that is refused with this error. */
  ghost predicate Faulty(content: seq<byte>, rec: Record, dev: Device, sha: Sha, e: Error) {
    match e
    case SizeMismatch => |content| != rec.size
    case InvalidManifestExtent => !WellPlaced(rec)
    case ChecksumMismatch =>
      exists i :: 0 <= i < |rec.extents| && sha(Slice(content, rec.extents[i])) != rec.extents[i].sha256
    case NonzeroHole =>
      !Healthy(dev) || exists j: nat :: j < |content| && !InExtent(rec.extents, j) && content[j] != 0
    case UnexpectedEof => !Healthy(dev)
    case _ => false
  }

  /** The digests of a record, in order, each after its place has been checked. */
  method CheckExtents(content: seq<byte>, rec: Record, dev: Device, sha: Sha) returns (v: Verdict, gaps: seq<Gap>)
    requires |content| == rec.size
    ensures v.Accepted? ==> WellPlaced(rec) && AllGaps(rec, gaps, |rec.extents| + 1)
    ensures v.Accepted? ==>
      forall i :: 0 <= i < |rec.extents| ==> sha(Slice(content, rec.extents[i])) == rec.extents[i].sha256
    ensures Healthy(dev) && Matches(content, rec, sha) ==> v.Accepted?
    ensures v.Refused? ==> v.error in {InvalidManifestExtent, UnexpectedEof, ChecksumMismatch}
    ensures v.Refused? ==> Faulty(content, rec, dev, sha, v.error)
  {
    var previous := 0;
    gaps := [];
    var i := 0;
    while i < |rec.extents|
      invariant 0 <= i <= |rec.extents|
      invariant previous == EndBefore(rec.extents, i) && 0 <= previous <= rec.size
      invariant PassedTo(content, rec, sha, gaps, i)
    {
      var x := rec.extents[i];
      if !(previous <= x.offset < x.offset + x.length <= rec.size) {
        assert !Placed(rec, i);
        return Refused(InvalidManifestExtent), gaps;
      }
      assert Placed(rec, i);
      ghost var before := gaps;
      gaps := gaps + [Gap(previous, x.offset)];
      var digest := HashExtent(content, x, dev);
      if digest.Err? { return Refused(digest.error), gaps; }
      if sha(digest.value) != x.sha256 { return Refused(ChecksumMismatch), gaps; }
      PassedNext(content, rec, sha, before, i);
      previous := x.offset + x.length;
      i := i + 1;
    }
    gaps := gaps + [Gap(previous, rec.size)];
    return Accepted, gaps;
  }

  /** `verify_file`: for every honest layout, and as long as reads deliver, it accepts exactly the files
      that match the record. */
  method VerifyFile(content: seq<byte>, rec: Record, layout: Layout, dev: Device, sha: Sha) returns (v: Verdict)
    ensures v.Accepted? && Honest(layout, content) ==> Matches(content, rec, sha)
    ensures Matches(content, rec, sha) && Healthy(dev) && Regular(layout, |content|) ==> v.Accepted?
    ensures |content| != rec.size ==> v == Refused(SizeMismatch)
    ensures v.Refused? ==>
              Faulty(content, rec, dev, sha, v.error)
              || (v.error in {SeekFailed, InvalidSparseExtent} && !Regular(layout, |content|))
  {
    if |content| != rec.size { return Refused(SizeMismatch); }
    var gaps;
    v, gaps := CheckExtents(content, rec, dev, sha);
    if v.Refused? { return; }
    var ranges := Ranges(layout, |content|);
    if ranges.Err? { return Refused(ranges.error); }
    GapsAscend(rec, gaps);
    var ok := CheckGaps(content, ranges.value, gaps, dev);
    if !ok {
      if Healthy(dev) {
        ghost var t: nat, j: nat :| Suspect(ranges.value, gaps, t, j) && content[j] != 0;
        GapsPartition(rec, gaps, j);
      }
      return Refused(NonzeroHole);
    }
    if Honest(layout, content) {
      ScanIsSound(layout, content, 0, []);
      GapsAreZero(content, rec, gaps, ranges.value);
    }
    return Accepted;
  }

  /** A byte outside the extents is in a gap; if no range holds it, it was skipped as a hole. */
  lemma GapsAreZero(content: seq<byte>, rec: Record, gaps: seq<Gap>, xs: seq<Extent>)
    requires |content| == rec.size && WellPlaced(rec) && AllGaps(rec, gaps, |rec.extents| + 1)
    requires Increasing(xs, |content|) && ZeroElsewhere(content, xs, |content|)
    requires forall t: nat, j: nat :: Suspect(xs, gaps, t, j) ==> content[j] == 0
    ensures forall j: nat :: j < |content| && !InExtent(rec.extents, j) ==> content[j] == 0
  {
    forall j: nat | j < |content| && !InExtent(rec.extents, j)
      ensures content[j] == 0
    {
      GapsPartition(rec, gaps, j);
      if Covers(xs, j) {
        var t :| 0 <= t < |xs| && xs[t].start <= j < xs[t].end;
        assert Suspect(xs, gaps, t, j);
      }
    }
  }

  /** Copy, then verify the copy on a file system with its own holes and its own timing: accepted. */
  method CopyThenVerify(src: seq<byte>, from: Layout, to: Layout, copying: Device, verifying: Device, sha: Sha)
    returns (record: Record, v: Verdict, copy: array<byte>)
    requires Honest(from, src) && Healthy(copying) && Healthy(verifying)
    requires Regular(from, |src|) && Regular(to, |src|)
    ensures v.Accepted? && copy[..] == src && Matches(src, record, sha)
  {
    var r;
    r, copy := CopySparse(src, from, copying, sha, true);
    record := r.value;
    v := VerifyFile(copy[..], record, to, verifying, sha);
  }
}
