/** Reading and repacking tensor shards: an eight-byte header size, a JSON header, and a payload that the
    header's spans tile. JSON is a pair of functions that invert each other. */
module StreamShard {
  import opened Bytes
  import opened Options
  import opened Sorting
  import opened Storage

  /** `Stopped` is the process dying. */
  datatype Result<+T> = Ok(value: T) | Refused | Stopped

  datatype Item = Item(dtype: string, shape: seq<int>, start: int, end: int)

  datatype Entry = Entry(name: string, item: Item)

  datatype Span = Span(start: int, end: int)

  datatype Contents = Contents(header: seq<Entry>, base: nat)

  const HEADER_LIMIT: nat := 64 * 1024 * 1024

  // ---------- tiling ----------

  function Spans(header: seq<Entry>): (r: seq<Span>)
    ensures |r| == |header|
  {
    seq(|header|, i requires 0 <= i < |header| => Span(header[i].item.start, header[i].item.end))
  }

  predicate Described(header: seq<Entry>, payload: nat) {
    forall e :: e in header ==>
      0 <= e.item.start <= e.item.end <= payload && forall d :: d in e.item.shape ==> d >= 0
  }

  /** Neither span starts before the other ends; an empty span never lies inside another. */
  predicate Separate(a: Span, b: Span) {
    a.end <= b.start || b.end <= a.start
  }

  predicate Holds(a: Span, p: int) {
    a.start <= p < a.end
  }

  /** No gap and no overlap. */
  ghost predicate Tiles(spans: seq<Span>, payload: nat) {
    Disjoint(spans) && (forall p :: 0 <= p < payload ==> Covered(spans, p))
  }

  ghost predicate Disjoint(spans: seq<Span>) {
    forall i, j :: 0 <= i < j < |spans| ==> Separate(spans[i], spans[j])
  }

  ghost predicate Covered(spans: seq<Span>, p: int) {
    exists i :: 0 <= i < |spans| && Holds(spans[i], p)
  }

  /** What the cursor loop checks of the sorted spans. */
  ghost predicate Chained(spans: seq<Span>, payload: nat) {
    forall i: nat :: i <= |spans| ==> To(spans, payload, i) == From(spans, i)
  }

  predicate SpanLe(a: Span, b: Span) {
    a.start < b.start || (a.start == b.start && a.end <= b.end)
  }

  predicate Within(spans: seq<Span>, payload: nat) {
    forall i :: 0 <= i < |spans| ==> 0 <= spans[i].start <= spans[i].end <= payload
  }

  lemma {:induction false} ChainAscends(spans: seq<Span>, payload: nat, i: nat, j: nat)
    requires Chained(spans, payload) && Within(spans, payload) && i < j < |spans|
    ensures spans[i].end <= spans[j].start
    decreases j
  {
    assert To(spans, payload, j) == From(spans, j);
    if i < j - 1 {
      ChainAscends(spans, payload, i, j - 1);
    }
  }

  /** A byte below where a chain has got to is in one of its spans. */
  lemma {:induction false} ChainCovers(spans: seq<Span>, payload: nat, n: nat, p: int)
    requires Chained(spans, payload) && Within(spans, payload) && n <= |spans| && 0 <= p < if n == 0 then 0 else spans[n - 1].end
    ensures Covered(spans, p)
  {
    if n > 0 && !Holds(spans[n - 1], p) {
      assert To(spans, payload, n - 1) == From(spans, n - 1);
      ChainCovers(spans, payload, n - 1, p);
    }
  }

  lemma ChainedTiles(spans: seq<Span>, payload: nat)
    requires Chained(spans, payload) && Within(spans, payload)
    ensures Tiles(spans, payload)
  {
    forall i, j | 0 <= i < j < |spans| ensures Separate(spans[i], spans[j]) {
      ChainAscends(spans, payload, i, j);
    }
    assert To(spans, payload, |spans|) == From(spans, |spans|);
    forall p | 0 <= p < payload ensures Covered(spans, p) {
      ChainCovers(spans, payload, |spans|, p);
    }
  }

  lemma DisjointAscend(spans: seq<Span>, payload: nat, i: nat, j: nat)
    requires Sorted(spans, SpanLe) && Within(spans, payload) && Disjoint(spans) && i < j < |spans|
    ensures spans[i].end <= spans[j].start && spans[i].end <= spans[j].end
  {
    assert SpanLe(spans[i], spans[j]) && Separate(spans[i], spans[j]);
  }

  /** Sorted spans that tile are chained: a gap would leave a byte in no span. */
  lemma TilesAreChained(spans: seq<Span>, payload: nat)
    requires Sorted(spans, SpanLe) && Within(spans, payload) && Tiles(spans, payload)
    ensures Chained(spans, payload)
  {
    forall i: nat | i <= |spans| ensures To(spans, payload, i) == From(spans, i) {
      NoGap(spans, payload, i);
    }
  }

  /** Where the `i`-th span should start and where it does, the payload's end standing in for a last one. */
  function From(spans: seq<Span>, i: nat): int
    requires i <= |spans|
  {
    if i == 0 then 0 else spans[i - 1].end
  }

  function To(spans: seq<Span>, payload: nat, i: nat): int
    requires i <= |spans|
  {
    if i == |spans| then payload else spans[i].start
  }

  lemma GapIsUncovered(spans: seq<Span>, payload: nat, i: nat)
    requires Sorted(spans, SpanLe) && Within(spans, payload) && Disjoint(spans) && i <= |spans|
    ensures 0 <= From(spans, i) <= To(spans, payload, i) <= payload
    ensures From(spans, i) < To(spans, payload, i) ==> !Covered(spans, From(spans, i))
  {
    if 0 < i < |spans| {
      DisjointAscend(spans, payload, i - 1, i);
    }
    forall k: nat | k < |spans| && From(spans, i) < To(spans, payload, i) ensures !Holds(spans[k], From(spans, i)) {
      if k + 1 < i {
        DisjointAscend(spans, payload, k, i - 1);
      } else if k > i {
        DisjointAscend(spans, payload, i, k);
      }
    }
  }

  lemma NoGap(spans: seq<Span>, payload: nat, i: nat)
    requires Sorted(spans, SpanLe) && Within(spans, payload) && Tiles(spans, payload) && i <= |spans|
    ensures To(spans, payload, i) == From(spans, i)
  {
    GapIsUncovered(spans, payload, i);
  }

  // ---------- sorting spans ----------

  lemma {:induction false} TwiceInside<T>(s: seq<T>, x: T)
    ensures multiset(s)[x] >= 1 ==> x in s
    ensures multiset(s)[x] >= 2 ==> exists i, j :: 0 <= i < j < |s| && s[i] == x && s[j] == x
  {
    if s != [] {
      var t := s[1..];
      assert s == [s[0]] + t;
      TwiceInside(t, x);
      if multiset(s)[x] >= 2 {
        if s[0] == x {
          var j :| 0 <= j < |t| && t[j] == x;
          assert s[0] == x && s[j + 1] == x;
        } else {
          var i, j :| 0 <= i < j < |t| && t[i] == x && t[j] == x;
          assert s[i + 1] == x && s[j + 1] == x;
        }
      }
    }
  }

  /** Tiling does not depend on the order of the spans. */
  lemma TilesReordered(a: seq<Span>, b: seq<Span>, payload: nat)
    requires multiset(a) == multiset(b) && Tiles(a, payload)
    ensures Tiles(b, payload)
  {
    forall i, j | 0 <= i < j < |b| ensures Separate(b[i], b[j]) {
      SeparateReordered(a, b, payload, i, j);
    }
    forall p | 0 <= p < payload ensures Covered(b, p) {
      assert Covered(a, p);
      var k :| 0 <= k < |a| && Holds(a[k], p);
      assert a[k] in multiset(b);
      assert a[k] in b;
    }
  }

  lemma SeparateReordered(a: seq<Span>, b: seq<Span>, payload: nat, i: nat, j: nat)
    requires multiset(a) == multiset(b) && Tiles(a, payload) && i < j < |b|
    ensures Separate(b[i], b[j])
  {
    assert b[i] in multiset(b) && b[j] in multiset(b);
    assert b[i] in a && b[j] in a;
    var m :| 0 <= m < |a| && a[m] == b[i];
    var n :| 0 <= n < |a| && a[n] == b[j];
    if b[i] == b[j] {
      assert b == b[..i] + [b[i]] + b[i + 1..j] + [b[j]] + b[j + 1..];
      assert multiset(b)[b[i]] >= 2;
      TwiceInside(a, b[i]);
    } else {
      assert m < n ==> Separate(a[m], a[n]);
      assert n < m ==> Separate(a[n], a[m]);
    }
  }

  lemma SpanOrder()
    ensures TotalOrder(SpanLe)
  {
  }

  /** The cursor loop of `read_header`. */
  method CheckTiling(header: seq<Entry>, payload: nat) returns (ok: bool)
    requires Described(header, payload)
    ensures ok <==> Tiles(Spans(header), payload)
  {
    var sorted := Sort(Spans(header), SpanLe);
    SortedTiles(header, payload);
    var cursor, i := 0, 0;
    while i < |sorted|
      invariant 0 <= i <= |sorted| && cursor == From(sorted, i)
      invariant forall k: nat :: k < i ==> To(sorted, payload, k) == From(sorted, k)
    {
      if sorted[i].start != cursor {
        assert To(sorted, payload, i) != From(sorted, i);
        return false;
      }
      cursor := sorted[i].end;
      i := i + 1;
    }
    assert To(sorted, payload, i) == payload;
    ok := cursor == payload;
  }

  lemma SortedTiles(header: seq<Entry>, payload: nat)
    requires Described(header, payload)
    ensures Tiles(Spans(header), payload) <==> Chained(Sort(Spans(header), SpanLe), payload)
  {
    var spans, sorted := Spans(header), Sort(Spans(header), SpanLe);
    SpanOrder();
    SortSorts(spans, SpanLe);
    assert Within(sorted, payload) by {
      forall i | 0 <= i < |sorted| ensures 0 <= sorted[i].start <= sorted[i].end <= payload {
        assert sorted[i] in multiset(sorted);
        assert sorted[i] in spans;
      }
    }
    if Tiles(spans, payload) {
      TilesReordered(spans, sorted, payload);
      TilesAreChained(sorted, payload);
    }
    if Chained(sorted, payload) {
      ChainedTiles(sorted, payload);
      TilesReordered(sorted, spans, payload);
    }
  }

  // ---------- reading ----------

  predicate DistinctNames(header: seq<Entry>) {
    forall i, j :: 0 <= i < j < |header| ==> header[i].name != header[j].name
  }

  function Blanks(k: nat): seq<Byte> {
    seq(k, _ => 32)
  }

  /** JSON: decoding undoes encoding, whatever blanks follow, and yields each name once. */
  ghost predicate Codec(encode: seq<Entry> -> seq<Byte>, decode: seq<Byte> -> Option<seq<Entry>>) {
    && (forall h, k :: DistinctNames(h) ==> decode(encode(h) + Blanks(k)) == Some(h))
    && (forall h :: |encode(h)| >= 2)
    && (forall b :: decode(b).Some? ==> DistinctNames(decode(b).value))
  }

  /** The files that `read_header` accepts, and what it reads. */
  ghost function Open(file: seq<Byte>, decode: seq<Byte> -> Option<seq<Entry>>): (r: Option<Contents>)
    ensures r.Some? ==> r.value.base <= |file|
  {
    if |file| < 8 then None
    else
      var size := FromLittleEndian(file[..8]);
      if !(2 <= size <= HEADER_LIMIT) || |file| < 8 + size then None
      else
        var header, payload := decode(file[8..8 + size]), |file| - 8 - size;
        if header.Some? && Described(header.value, payload) && Tiles(Spans(header.value), payload)
        then Some(Contents(header.value, 8 + size)) else None
  }

  /** `read_header` */
  method ReadHeader(file: seq<Byte>, decode: seq<Byte> -> Option<seq<Entry>>) returns (r: Result<Contents>)
    ensures r == match Open(file, decode) case None => Refused case Some(c) => Ok(c)
  {
    if |file| < 8 {
      return Refused;
    }
    var size := FromLittleEndian(file[..8]);
    if !(2 <= size <= HEADER_LIMIT) || |file| < 8 + size {
      return Refused;
    }
    var header := decode(file[8..8 + size]);
    var payload := |file| - 8 - size;
    if header.None? || !Described(header.value, payload) {
      return Refused;
    }
    var tiled := CheckTiling(header.value, payload);
    return if tiled then Ok(Contents(header.value, 8 + size)) else Refused;
  }

  function Find(header: seq<Entry>, name: string): (r: Option<Item>)
    ensures r.Some? <==> exists e :: e in header && e.name == name
    ensures r.Some? ==> exists e :: e in header && e.name == name && e.item == r.value
  {
    if header == [] then None
    else
      assert header == [header[0]] + header[1..];
      if header[0].name == name then Some(header[0].item) else Find(header[1..], name)
  }

  lemma {:induction false} FindAt(header: seq<Entry>, k: nat)
    requires DistinctNames(header) && k < |header|
    ensures Find(header, header[k].name) == Some(header[k].item)
  {
    if k > 0 {
      FindAt(header[1..], k - 1);
    }
  }

  // ---------- what is to be copied ----------

  /** An inventory item: the tensor to write, and where it is read from. */
  datatype Want = Want(name: string, path: string, source: string)

  predicate WantLe(a: Want, b: Want) {
    NameLe(a.name, b.name)
  }

  lemma WantOrder()
    ensures Connected(WantLe)
  {
    forall x: Want, y: Want ensures WantLe(x, y) || WantLe(y, x) {
      NamesAreTotal(x.name, y.name);
    }
    forall x: Want, y: Want, z: Want | WantLe(x, y) && WantLe(y, z) ensures WantLe(x, z) {
      NamesAreTransitive(x.name, y.name, z.name);
    }
  }

  ghost predicate Readable(files: map<string, seq<Byte>>, decode: seq<Byte> -> Option<seq<Entry>>, w: Want) {
    w.path in files && Open(files[w.path], decode).Some? && Find(Open(files[w.path], decode).value.header, w.source).Some?
  }

  ghost function SourceItem(files: map<string, seq<Byte>>, decode: seq<Byte> -> Option<seq<Entry>>, w: Want): (r: Item)
    requires Readable(files, decode, w)
    ensures var base := Open(files[w.path], decode).value.base;
      0 <= r.start <= r.end && base + r.end <= |files[w.path]| && forall d :: d in r.shape ==> d >= 0
  {
    Find(Open(files[w.path], decode).value.header, w.source).value
  }

  function Slice(file: seq<Byte>, base: nat, item: Item): seq<Byte>
    requires 0 <= item.start <= item.end && base + item.end <= |file|
  {
    file[base + item.start..base + item.end]
  }

  /** The bytes of the tensor a want names. */
  ghost function SourceBytes(files: map<string, seq<Byte>>, decode: seq<Byte> -> Option<seq<Entry>>, w: Want): (r: seq<Byte>)
    requires Readable(files, decode, w)
    ensures |r| == SourceItem(files, decode, w).end - SourceItem(files, decode, w).start
  {
    Slice(files[w.path], Open(files[w.path], decode).value.base, SourceItem(files, decode, w))
  }

  ghost predicate AllReadable(files: map<string, seq<Byte>>, decode: seq<Byte> -> Option<seq<Entry>>, ws: seq<Want>) {
    forall i :: 0 <= i < |ws| ==> Readable(files, decode, ws[i])
  }

  ghost function PayloadOf(files: map<string, seq<Byte>>, decode: seq<Byte> -> Option<seq<Entry>>, ws: seq<Want>): seq<Byte>
    requires AllReadable(files, decode, ws)
  {
    if ws == [] then []
    else PayloadOf(files, decode, ws[..|ws| - 1]) + SourceBytes(files, decode, ws[|ws| - 1])
  }

  /** The header that lays the tensors out one after another. */
  ghost function HeaderOf(files: map<string, seq<Byte>>, decode: seq<Byte> -> Option<seq<Entry>>, ws: seq<Want>): (r: seq<Entry>)
    requires AllReadable(files, decode, ws)
    ensures |r| == |ws|
  {
    if ws == [] then []
    else
      var rest, w := ws[..|ws| - 1], ws[|ws| - 1];
      var item, at := SourceItem(files, decode, w), |PayloadOf(files, decode, rest)|;
      HeaderOf(files, decode, rest) + [Entry(w.name, Item(item.dtype, item.shape, at, at + item.end - item.start))]
  }

  lemma {:induction false} PayloadGrows(files: map<string, seq<Byte>>, decode: seq<Byte> -> Option<seq<Entry>>, ws: seq<Want>, k: nat)
    requires AllReadable(files, decode, ws) && k <= |ws|
    ensures PayloadOf(files, decode, ws[..k]) <= PayloadOf(files, decode, ws)
  {
    hide SourceItem, SourceBytes, Readable, Open;
    if k < |ws| {
      assert ws[..|ws| - 1][..k] == ws[..k];
      PayloadGrows(files, decode, ws[..|ws| - 1], k);
    } else {
      assert ws[..k] == ws;
    }
  }

  lemma {:induction false} HeaderAt(files: map<string, seq<Byte>>, decode: seq<Byte> -> Option<seq<Entry>>, ws: seq<Want>, k: nat)
    requires AllReadable(files, decode, ws) && k < |ws|
    ensures var e, item := HeaderOf(files, decode, ws)[k], SourceItem(files, decode, ws[k]);
      e.name == ws[k].name && e.item.dtype == item.dtype && e.item.shape == item.shape
      && e.item.start == |PayloadOf(files, decode, ws[..k])| && e.item.end == |PayloadOf(files, decode, ws[..k + 1])|
  {
    hide SourceItem, SourceBytes, Readable, Open;
    if k < |ws| - 1 {
      assert ws[..|ws| - 1][..k] == ws[..k] && ws[..|ws| - 1][..k + 1] == ws[..k + 1];
      HeaderAt(files, decode, ws[..|ws| - 1], k);
    } else {
      assert ws[..k + 1] == ws;
    }
  }

  /** The laid-out header tiles the payload, and its spans hold the tensors' bytes. */
  lemma LaidOut(files: map<string, seq<Byte>>, decode: seq<Byte> -> Option<seq<Entry>>, ws: seq<Want>)
    requires AllReadable(files, decode, ws)
    ensures var header, payload := HeaderOf(files, decode, ws), |PayloadOf(files, decode, ws)|;
      Described(header, payload) && Tiles(Spans(header), payload)
  {
    var header, payload := HeaderOf(files, decode, ws), |PayloadOf(files, decode, ws)|;
    var spans := Spans(header);
    hide HeaderOf, PayloadOf, SourceItem, Readable;
    forall k: nat | k < |ws|
      ensures 0 <= header[k].item.start <= header[k].item.end <= payload && forall d :: d in header[k].item.shape ==> d >= 0
    {
      ItemFits(files, decode, ws, k);
    }
    forall k: nat | k <= |ws| ensures To(spans, payload, k) == From(spans, k) {
      SpanFollows(files, decode, ws, k);
    }
    ChainedTiles(spans, payload);
  }

  lemma ItemFits(files: map<string, seq<Byte>>, decode: seq<Byte> -> Option<seq<Entry>>, ws: seq<Want>, k: nat)
    requires AllReadable(files, decode, ws) && k < |ws|
    ensures var item := HeaderOf(files, decode, ws)[k].item;
      0 <= item.start <= item.end <= |PayloadOf(files, decode, ws)| && forall d :: d in item.shape ==> d >= 0
  {
    hide HeaderOf, SourceItem, SourceBytes, Readable, Open;
    HeaderAt(files, decode, ws, k);
    PayloadGrows(files, decode, ws, k + 1);
    assert ws[..k + 1][..k] == ws[..k];
    PayloadGrows(files, decode, ws[..k + 1], k);
  }

  lemma SpanFollows(files: map<string, seq<Byte>>, decode: seq<Byte> -> Option<seq<Entry>>, ws: seq<Want>, k: nat)
    requires AllReadable(files, decode, ws) && k <= |ws|
    ensures var spans := Spans(HeaderOf(files, decode, ws)); To(spans, |PayloadOf(files, decode, ws)|, k) == From(spans, k)
  {
    hide HeaderOf, SourceItem, SourceBytes, Readable, Open;
    assert ws[..0] == [] && ws[..|ws|] == ws;
    if k < |ws| {
      HeaderAt(files, decode, ws, k);
    }
    if k > 0 {
      HeaderAt(files, decode, ws, k - 1);
    }
  }

  lemma SliceIsSource(files: map<string, seq<Byte>>, decode: seq<Byte> -> Option<seq<Entry>>, ws: seq<Want>, k: nat)
    requires AllReadable(files, decode, ws) && k < |ws|
    ensures var payload, item := PayloadOf(files, decode, ws), HeaderOf(files, decode, ws)[k].item;
      0 <= item.start <= item.end <= |payload| && payload[item.start..item.end] == SourceBytes(files, decode, ws[k])
  {
    hide HeaderOf, SourceItem, SourceBytes, Readable, Open;
    ItemFits(files, decode, ws, k);
    HeaderAt(files, decode, ws, k);
    PayloadGrows(files, decode, ws, k + 1);
    assert ws[..k + 1][..k] == ws[..k];
    assert PayloadOf(files, decode, ws[..k + 1]) == PayloadOf(files, decode, ws[..k]) + SourceBytes(files, decode, ws[k]);
  }

  function Padded(encoded: seq<Byte>): (r: seq<Byte>)
    ensures |r| % 8 == 0 && encoded <= r && |r| < |encoded| + 8 && forall i :: |encoded| <= i < |r| ==> r[i] == 32
  {
    encoded + Blanks((8 - |encoded| % 8) % 8)
  }

  function FileOf(encoded: seq<Byte>, payload: seq<Byte>): seq<Byte> {
    LittleEndian(|encoded|, 8) + encoded + payload
  }

  predicate KeyedWants(ws: seq<Want>) {
    forall i, j :: 0 <= i < j < |ws| ==> ws[i].name != ws[j].name
  }

  /** The inventories that `repack` carries out. */
  ghost predicate Repackable(files: map<string, seq<Byte>>, encode: seq<Entry> -> seq<Byte>, decode: seq<Byte> -> Option<seq<Entry>>,
      ws: seq<Want>, destination: string, chunk: int)
  {
    && ws != [] && (forall w :: w in ws ==> w.name != "__metadata__" && w.name != "" && Readable(files, decode, w))
    && 1 <= chunk <= HEADER_LIMIT && destination !in files
    && AllReadable(files, decode, Sort(ws, WantLe))
    && |Padded(encode(HeaderOf(files, decode, Sort(ws, WantLe))))| <= HEADER_LIMIT
  }

  ghost function Repacked(files: map<string, seq<Byte>>, encode: seq<Entry> -> seq<Byte>, decode: seq<Byte> -> Option<seq<Entry>>,
      ws: seq<Want>): seq<Byte>
    requires AllReadable(files, decode, ws)
  {
    FileOf(Padded(encode(HeaderOf(files, decode, ws))), PayloadOf(files, decode, ws))
  }

  /** The repacked file is accepted by `read_header`, with the header that was laid out. */
  lemma RepackedOpens(files: map<string, seq<Byte>>, encode: seq<Entry> -> seq<Byte>, decode: seq<Byte> -> Option<seq<Entry>>, ws: seq<Want>)
    requires Codec(encode, decode) && AllReadable(files, decode, ws) && KeyedWants(ws)
    requires |Padded(encode(HeaderOf(files, decode, ws)))| <= HEADER_LIMIT
    ensures Open(Repacked(files, encode, decode, ws), decode)
         == Some(Contents(HeaderOf(files, decode, ws), 8 + |Padded(encode(HeaderOf(files, decode, ws)))|))
  {
    hide Open, Described, Tiles, Spans, Codec, HeaderOf, PayloadOf, Padded, Readable;
    HeaderIsKeyed(files, decode, ws);
    LaidOut(files, decode, ws);
    OpensAgain(HeaderOf(files, decode, ws), PayloadOf(files, decode, ws), encode, decode);
  }

  lemma OpensAgain(header: seq<Entry>, payload: seq<Byte>, encode: seq<Entry> -> seq<Byte>, decode: seq<Byte> -> Option<seq<Entry>>)
    requires Codec(encode, decode) && DistinctNames(header) && |Padded(encode(header))| <= HEADER_LIMIT
    requires Described(header, |payload|) && Tiles(Spans(header), |payload|)
    ensures Open(FileOf(Padded(encode(header)), payload), decode) == Some(Contents(header, 8 + |Padded(encode(header))|))
  {
    hide Described, Tiles, DistinctNames, Spans, LittleEndian, FromLittleEndian;
    var encoded := Padded(encode(header));
    var file := FileOf(encoded, payload);
    assert file[..8] == LittleEndian(|encoded|, 8);
    SmallEnough(|encoded|);
    LittleEndianRoundTrip(|encoded|, 8);
    assert file[8..8 + |encoded|] == encoded;
  }

  lemma SmallEnough(n: nat)
    requires n <= HEADER_LIMIT
    ensures n < Power256(8)
  {
    assert Power256(4) == 256 * 256 * 256 * 256;
  }

  lemma HeaderIsKeyed(files: map<string, seq<Byte>>, decode: seq<Byte> -> Option<seq<Entry>>, ws: seq<Want>)
    requires AllReadable(files, decode, ws) && KeyedWants(ws)
    ensures DistinctNames(HeaderOf(files, decode, ws))
  {
    forall i, j | 0 <= i < j < |ws| ensures HeaderOf(files, decode, ws)[i].name != HeaderOf(files, decode, ws)[j].name {
      HeaderAt(files, decode, ws, i);
      HeaderAt(files, decode, ws, j);
    }
  }

  /** A tensor as a file holds it. */
  datatype Data = Data(dtype: string, shape: seq<int>, bytes: seq<Byte>)

  /** Reading one tensor of a file. */
  ghost function Read(file: seq<Byte>, decode: seq<Byte> -> Option<seq<Entry>>, name: string): Option<Data> {
    var contents := Open(file, decode);
    if contents.None? || Find(contents.value.header, name).None? then None
    else
      var item := Find(contents.value.header, name).value;
      Some(Data(item.dtype, item.shape, Slice(file, contents.value.base, item)))
  }

  lemma SourceIsRead(files: map<string, seq<Byte>>, decode: seq<Byte> -> Option<seq<Entry>>, w: Want)
    requires Readable(files, decode, w)
    ensures w.path in files && var item := SourceItem(files, decode, w);
      Read(files[w.path], decode, w.source) == Some(Data(item.dtype, item.shape, SourceBytes(files, decode, w)))
  {
    hide Open;
  }

  /** The round trip: reading tensor `w` back from the repacked file gives its source's type, shape and
      bytes. */
  lemma RepackKeepsTensors(files: map<string, seq<Byte>>, encode: seq<Entry> -> seq<Byte>, decode: seq<Byte> -> Option<seq<Entry>>,
      ws: seq<Want>, w: Want)
    requires Codec(encode, decode) && AllReadable(files, decode, ws) && KeyedWants(ws) && w in ws
    requires |Padded(encode(HeaderOf(files, decode, ws)))| <= HEADER_LIMIT
    ensures w.path in files && Read(files[w.path], decode, w.source).Some?
    ensures Read(Repacked(files, encode, decode, ws), decode, w.name) == Read(files[w.path], decode, w.source)
  {
    hide HeaderOf, PayloadOf, LittleEndian, Codec, Padded, DistinctNames, Open, Readable, SourceItem, SourceBytes;
    var k: nat :| k < |ws| && ws[k] == w;
    SourceIsRead(files, decode, ws[k]);
    RepackedOpens(files, encode, decode, ws);
    HeaderIsKeyed(files, decode, ws);
    HeaderAt(files, decode, ws, k);
    FindAt(HeaderOf(files, decode, ws), k);
    SliceIsSource(files, decode, ws, k);
    SliceOfFile(Padded(encode(HeaderOf(files, decode, ws))), PayloadOf(files, decode, ws), HeaderOf(files, decode, ws)[k].item);
  }

  /** The repacked file holds the tensors asked for and no others. */
  lemma RepackedNames(files: map<string, seq<Byte>>, encode: seq<Entry> -> seq<Byte>, decode: seq<Byte> -> Option<seq<Entry>>,
      ws: seq<Want>, name: string)
    requires Codec(encode, decode) && AllReadable(files, decode, ws) && KeyedWants(ws)
    requires |Padded(encode(HeaderOf(files, decode, ws)))| <= HEADER_LIMIT
    ensures Read(Repacked(files, encode, decode, ws), decode, name).Some? <==> exists w :: w in ws && w.name == name
  {
    hide HeaderOf, PayloadOf, LittleEndian, Codec, Padded, DistinctNames, Open, Readable;
    var header := HeaderOf(files, decode, ws);
    RepackedOpens(files, encode, decode, ws);
    if Find(header, name).Some? {
      var e :| e in header && e.name == name;
      var k: nat :| k < |ws| && header[k] == e;
      HeaderAt(files, decode, ws, k);
      assert ws[k] in ws;
    }
    if w :| w in ws && w.name == name {
      var k: nat :| k < |ws| && ws[k] == w;
      HeaderAt(files, decode, ws, k);
      assert header[k] in header;
    }
  }

  lemma SliceOfFile(encoded: seq<Byte>, payload: seq<Byte>, item: Item)
    requires 0 <= item.start <= item.end <= |payload|
    ensures 8 + |encoded| + item.end <= |FileOf(encoded, payload)|
    ensures Slice(FileOf(encoded, payload), 8 + |encoded|, item) == payload[item.start..item.end]
  {
    hide LittleEndian;
  }

  // ---------- repacking ----------

  datatype Receipt = Receipt(bytes: nat, tensors: seq<Entry>)

  /** One tensor's copy loop; each read may return fewer bytes than asked. */
  method CopySpan(file: seq<Byte>, offset: nat, length: nat, chunk: nat) returns (copy: seq<Byte>)
    requires offset + length <= |file| && chunk >= 1
    ensures copy == file[offset..offset + length]
  {
    copy := [];
    var remaining := length;
    while remaining > 0
      invariant 0 <= remaining <= length && copy == file[offset..offset + (length - remaining)]
    {
      var most := if chunk < remaining then chunk else remaining;
      var read: nat := *;
      if read < 1 || read > most {
        read := most;
      }
      var from := offset + (length - remaining);
      copy := copy + file[from..from + read];
      remaining := remaining - read;
    }
  }

  /** Where a tensor's bytes are. */
  datatype Location = Location(path: string, offset: nat, length: nat)

  predicate Located(files: map<string, seq<Byte>>, l: Location) {
    l.path in files && l.offset + l.length <= |files[l.path]|
  }

  /** The headers already read. */
  ghost predicate Cached(files: map<string, seq<Byte>>, decode: seq<Byte> -> Option<seq<Entry>>, headers: map<string, Contents>) {
    forall p :: p in headers ==> p in files && Open(files[p], decode) == Some(headers[p])
  }

  /** One tensor's descriptor, reading its source's header at most once. */
  method Locate(files: map<string, seq<Byte>>, decode: seq<Byte> -> Option<seq<Entry>>, headers: map<string, Contents>, w: Want)
    returns (found: Option<Item>, location: Location, read: map<string, Contents>)
    requires Cached(files, decode, headers)
    ensures Cached(files, decode, read) && (found.Some? <==> Readable(files, decode, w))
    ensures found.Some? ==> found.value == SourceItem(files, decode, w) && location.length == found.value.end - found.value.start
    ensures found.Some? ==> LocationOf(files, decode, w, location)
  {
    hide SourceItem, SourceBytes, Open, Slice, LocationOf;
    read := headers;
    location := Location(w.path, 0, 0);
    if w.path !in files {
      return None, location, read;
    }
    if w.path !in read {
      var r := ReadHeader(files[w.path], decode);
      if r.Refused? {
        return None, location, read;
      }
      read := read[w.path := r.value];
    }
    var contents := read[w.path];
    found := Find(contents.header, w.source);
    if found.Some? {
      ItemOf(files, decode, w, contents, found.value);
      location := Location(w.path, contents.base + found.value.start, found.value.end - found.value.start);
    }
  }

  /** The header loop: the tensors laid out in the order given. */
  method LayOut(files: map<string, seq<Byte>>, decode: seq<Byte> -> Option<seq<Entry>>, ws: seq<Want>)
    returns (ok: bool, header: seq<Entry>, spans: seq<Location>)
    ensures ok <==> AllReadable(files, decode, ws)
    ensures ok ==> header == HeaderOf(files, decode, ws) && |spans| == |ws|
    ensures ok ==> forall k :: 0 <= k < |ws| ==> LocationOf(files, decode, ws[k], spans[k])
  {
    hide SourceItem, SourceBytes, Readable, LocationOf, HeaderOf, PayloadOf, Cached;
    var headers: map<string, Contents> := map[];
    NothingLaid(files, decode);
    header, spans := [], [];
    var cursor := 0;
    var i := 0;
    while i < |ws|
      invariant 0 <= i <= |ws| && AllReadable(files, decode, ws[..i]) && Cached(files, decode, headers)
      invariant header == HeaderOf(files, decode, ws[..i]) && cursor == |PayloadOf(files, decode, ws[..i])|
      invariant |spans| == i && forall k :: 0 <= k < i ==> LocationOf(files, decode, ws[k], spans[k])
    {
      var found, location, read := Locate(files, decode, headers, ws[i]);
      headers := read;
      if found.None? {
        return false, header, spans;
      }
      var item := found.value;
      LaysNext(files, decode, ws, i);
      header := header + [Entry(ws[i].name, Item(item.dtype, item.shape, cursor, cursor + item.end - item.start))];
      spans := spans + [location];
      cursor := cursor + (item.end - item.start);
      i := i + 1;
    }
    assert ws[..i] == ws;
    ok := true;
  }

  lemma NothingLaid(files: map<string, seq<Byte>>, decode: seq<Byte> -> Option<seq<Entry>>)
    ensures HeaderOf(files, decode, []) == [] && PayloadOf(files, decode, []) == [] && Cached(files, decode, map[])
  {
  }

  /** Reading a location gives a want's bytes. */
  ghost predicate LocationOf(files: map<string, seq<Byte>>, decode: seq<Byte> -> Option<seq<Entry>>, w: Want, l: Location) {
    Readable(files, decode, w) && Located(files, l) && files[l.path][l.offset..l.offset + l.length] == SourceBytes(files, decode, w)
  }

  lemma ItemOf(files: map<string, seq<Byte>>, decode: seq<Byte> -> Option<seq<Entry>>, w: Want, contents: Contents, item: Item)
    requires Readable(files, decode, w) && Open(files[w.path], decode) == Some(contents) && Find(contents.header, w.source) == Some(item)
    ensures item == SourceItem(files, decode, w) && 0 <= item.start <= item.end
    ensures |SourceBytes(files, decode, w)| == item.end - item.start
    ensures LocationOf(files, decode, w, Location(w.path, contents.base + item.start, item.end - item.start))
  {
    hide Open;
  }

  lemma LaysNext(files: map<string, seq<Byte>>, decode: seq<Byte> -> Option<seq<Entry>>, ws: seq<Want>, i: nat)
    requires i < |ws| && AllReadable(files, decode, ws[..i]) && Readable(files, decode, ws[i])
    ensures AllReadable(files, decode, ws[..i + 1])
    ensures PayloadOf(files, decode, ws[..i + 1]) == PayloadOf(files, decode, ws[..i]) + SourceBytes(files, decode, ws[i])
    ensures var item, at := SourceItem(files, decode, ws[i]), |PayloadOf(files, decode, ws[..i])|;
      HeaderOf(files, decode, ws[..i + 1])
        == HeaderOf(files, decode, ws[..i]) + [Entry(ws[i].name, Item(item.dtype, item.shape, at, at + item.end - item.start))]
  {
    hide SourceItem, SourceBytes, Readable;
    assert ws[..i + 1][..i] == ws[..i];
  }

  /** The copy loop over all tensors. */
  method CopyAll(files: map<string, seq<Byte>>, decode: seq<Byte> -> Option<seq<Entry>>, ws: seq<Want>, spans: seq<Location>, chunk: nat)
    returns (payload: seq<Byte>)
    requires AllReadable(files, decode, ws) && |spans| == |ws| && chunk >= 1
    requires forall k :: 0 <= k < |ws| ==> LocationOf(files, decode, ws[k], spans[k])
    ensures payload == PayloadOf(files, decode, ws)
  {
    hide SourceItem, SourceBytes, Readable;
    payload := [];
    var i := 0;
    while i < |spans|
      invariant 0 <= i <= |spans| && payload == PayloadOf(files, decode, ws[..i])
    {
      LaysNext(files, decode, ws, i);
      assert LocationOf(files, decode, ws[i], spans[i]);
      var copy := CopySpan(files[spans[i].path], spans[i].offset, spans[i].length, chunk);
      payload := payload + copy;
      i := i + 1;
    }
    assert ws[..i] == ws;
  }

  /** `repack` */
  method Repack(disk: Disk, ws: seq<Want>, destination: string, chunk: int, encode: seq<Entry> -> seq<Byte>,
      decode: seq<Byte> -> Option<seq<Entry>>, reserved: set<string>, fate: Fate) returns (r: Result<Receipt>)
    requires Codec(encode, decode) && KeyedWants(ws)
    modifies disk
    ensures r.Refused? <==> !Repackable(old(disk.files), encode, decode, ws, destination, chunk)
    ensures r.Refused? ==> disk.files == old(disk.files) && disk.leftovers == old(disk.leftovers)
    ensures !r.Refused? ==> (r.Ok? <==> fate.Finishes?)
    ensures !r.Refused? ==>
      Through(old(disk.files), disk.files, destination, Repacked(old(disk.files), encode, decode, Sort(ws, WantLe)), reserved, fate)
    ensures !r.Refused? ==> disk.leftovers == old(disk.leftovers) + Remnant(old(disk.files), destination, reserved, fate)
    ensures r.Ok? ==> disk.files == old(disk.files)[destination := Repacked(old(disk.files), encode, decode, Sort(ws, WantLe))]
    ensures r.Ok? ==> r.value == Receipt(|disk.files[destination]|, HeaderOf(old(disk.files), decode, Sort(ws, WantLe)))
  {
    hide Readable, HeaderOf, PayloadOf, Padded, Codec, Through, Remnant, KeyedWants;
    if ws == [] || (exists w :: w in ws && w.name == "__metadata__") || !(1 <= chunk <= HEADER_LIMIT) || destination in disk.files {
      return Refused;
    }
    var sorted := Sort(ws, WantLe);
    WantOrder();
    SortKeepsMembers(ws, WantLe);
    if exists w :: w in sorted && w.name == "" {
      return Refused;
    }
    var ok, header, spans := LayOut(disk.files, decode, sorted);
    if !ok {
      return Refused;
    }
    var encoded := Padded(encode(header));
    if |encoded| > HEADER_LIMIT {
      return Refused;
    }
    forall w | w in ws ensures Readable(disk.files, decode, w) {
      assert w in sorted;
    }
    var payload := CopyAll(disk.files, decode, sorted, spans, chunk);
    var output := FileOf(encoded, payload);
    var dies := WriteThrough(disk, destination, output, reserved, fate);
    r := if dies then Stopped else Ok(Receipt(|output|, header));
  }

  /** What a finished repacking leaves on disk: a file in which every tensor asked for, and no other, reads
      exactly as from its source. */
  lemma RepackRoundTrip(files: map<string, seq<Byte>>, encode: seq<Entry> -> seq<Byte>, decode: seq<Byte> -> Option<seq<Entry>>,
      ws: seq<Want>, destination: string, chunk: int)
    requires Codec(encode, decode) && KeyedWants(ws) && Repackable(files, encode, decode, ws, destination, chunk)
    ensures var file := Repacked(files, encode, decode, Sort(ws, WantLe));
      && Open(file, decode).Some?
      && (forall w :: w in ws ==> w.path in files && Read(file, decode, w.name) == Read(files[w.path], decode, w.source))
      && (forall name :: Read(file, decode, name).Some? <==> exists w :: w in ws && w.name == name)
  {
    hide Codec, HeaderOf, PayloadOf, Repacked, Padded, Read, Readable, Open;
    var sorted := Sort(ws, WantLe);
    WantOrder();
    SortKeepsMembers(ws, WantLe);
    SortKeepsKeys(ws);
    RepackedOpens(files, encode, decode, sorted);
    forall w | w in ws
      ensures w.path in files && Read(Repacked(files, encode, decode, sorted), decode, w.name) == Read(files[w.path], decode, w.source)
    {
      RepackKeepsTensors(files, encode, decode, sorted, w);
    }
    forall name
      ensures Read(Repacked(files, encode, decode, sorted), decode, name).Some? <==> exists w :: w in ws && w.name == name
    {
      RepackedNames(files, encode, decode, sorted, name);
      if w :| w in ws && w.name == name {
        assert w in sorted;
      }
    }
  }

  lemma SortKeepsKeys(ws: seq<Want>)
    requires KeyedWants(ws)
    ensures KeyedWants(Sort(ws, WantLe))
  {
    var sorted := Sort(ws, WantLe);
    WantOrder();
    SortKeepsMembers(ws, WantLe);
    SortKeepsUnique(ws, WantLe);
    forall i, j | 0 <= i < j < |sorted| ensures sorted[i].name != sorted[j].name {
      assert sorted[i] in ws && sorted[j] in ws;
    }
  }

  // ---------- the format, from the side of a writer ----------

  ghost predicate InSomeItem(header: seq<Entry>, p: int) {
    exists i :: 0 <= i < |header| && header[i].item.start <= p < header[i].item.end
  }

  /** The items of a header, in any order, cover the payload without gap or overlap. */
  ghost predicate LaysOut(header: seq<Entry>, n: nat) {
    && (forall i :: 0 <= i < |header| ==> 0 <= header[i].item.start <= header[i].item.end <= n && forall d :: d in header[i].item.shape ==> d >= 0)
    && (forall i, j :: 0 <= i < j < |header| ==>
          header[i].item.end <= header[j].item.start || header[j].item.end <= header[i].item.start)
    && (forall p :: 0 <= p < n ==> InSomeItem(header, p))
  }

  lemma LaidOutTiles(header: seq<Entry>, n: nat)
    ensures LaysOut(header, n) <==> Described(header, n) && Tiles(Spans(header), n)
  {
    var spans := Spans(header);
    if LaysOut(header, n) {
      forall e | e in header ensures 0 <= e.item.start <= e.item.end <= n && forall d :: d in e.item.shape ==> d >= 0 {
        var i :| 0 <= i < |header| && header[i] == e;
      }
      forall p | 0 <= p < n ensures Covered(spans, p) {
        assert InSomeItem(header, p);
        var i :| 0 <= i < |header| && header[i].item.start <= p < header[i].item.end;
        assert Holds(spans[i], p);
      }
    }
    if Described(header, n) && Tiles(spans, n) {
      forall i | 0 <= i < |header| ensures 0 <= header[i].item.start <= header[i].item.end <= n && forall d :: d in header[i].item.shape ==> d >= 0 {
        assert header[i] in header;
      }
      forall i, j | 0 <= i < j < |header| ensures header[i].item.end <= header[j].item.start || header[j].item.end <= header[i].item.start {
        assert Separate(spans[i], spans[j]);
      }
      forall p | 0 <= p < n ensures InSomeItem(header, p) {
        assert Covered(spans, p);
        var i :| 0 <= i < |spans| && Holds(spans[i], p);
        assert header[i].item.start <= p < header[i].item.end;
      }
    }
  }

  /** A size, a header text of that size and a payload are accepted exactly when the text is a header of legal
      size that lays the payload out. */
  lemma OpensExactly(text: seq<Byte>, payload: seq<Byte>, decode: seq<Byte> -> Option<seq<Entry>>)
    requires |text| < Power256(8)
    ensures var file := LittleEndian(|text|, 8) + text + payload;
      Open(file, decode) ==
        if 2 <= |text| <= 67108864 && decode(text).Some? && LaysOut(decode(text).value, |payload|) then Some(Contents(decode(text).value, 8 + |text|))
        else None
  {
    hide Open, LittleEndian, Described, Tiles, LaysOut, Power256, Spans;
    var prefix := LittleEndian(|text|, 8);
    LittleEndianRoundTrip(|text|, 8);
    OpensParts(prefix, text, payload, decode);
    if decode(text).Some? {
      LaidOutTiles(decode(text).value, |payload|);
    }
  }

  lemma OpensParts(prefix: seq<Byte>, text: seq<Byte>, payload: seq<Byte>, decode: seq<Byte> -> Option<seq<Entry>>)
    requires |prefix| == 8 && FromLittleEndian(prefix) == |text|
    ensures Open(prefix + text + payload, decode) ==
      if 2 <= |text| <= HEADER_LIMIT && decode(text).Some? && Described(decode(text).value, |payload|) && Tiles(Spans(decode(text).value), |payload|)
      then Some(Contents(decode(text).value, 8 + |text|)) else None
  {
    hide Described, Tiles, Spans;
    var file := prefix + text + payload;
    assert file[..8] == prefix && file[8..8 + |text|] == text && |file| == 8 + |text| + |payload|;
  }

  /** Anything shorter than its size prefix says is refused. */
  lemma OpensWhole(file: seq<Byte>, decode: seq<Byte> -> Option<seq<Entry>>)
    ensures Open(file, decode).Some? ==> |file| >= 8 && Open(file, decode).value.base == 8 + FromLittleEndian(file[..8]) <= |file|
  {
    hide Described, Tiles, FromLittleEndian;
  }

  lemma ItemLies(header: seq<Entry>, n: nat, i: nat)
    requires LaysOut(header, n) && i < |header|
    ensures 0 <= header[i].item.start <= header[i].item.end <= n
  {
  }

  /** And each tensor reads as its part of the payload. */
  lemma ReadsItsPart(text: seq<Byte>, payload: seq<Byte>, decode: seq<Byte> -> Option<seq<Entry>>, i: nat)
    requires |text| < Power256(8) && decode(text).Some? && DistinctNames(decode(text).value) && i < |decode(text).value|
    requires 2 <= |text| <= HEADER_LIMIT && LaysOut(decode(text).value, |payload|)
    ensures var e := decode(text).value[i];
      Read(LittleEndian(|text|, 8) + text + payload, decode, e.name) == Some(Data(e.item.dtype, e.item.shape, payload[e.item.start..e.item.end]))
  {
    hide Open, LaysOut, DistinctNames, Power256, Find, InSomeItem;
    var header := decode(text).value;
    OpensExactly(text, payload, decode);
    FindAt(header, i);
    ItemLies(header, |payload|, i);
    SliceOfFile(text, payload, header[i].item);
  }

  /** A repacked file's tensors are in the order of their names and follow each other from the start. */
  lemma LaidInOrder(files: map<string, seq<Byte>>, decode: seq<Byte> -> Option<seq<Entry>>, ws: seq<Want>)
    requires AllReadable(files, decode, Sort(ws, WantLe))
    ensures var header := HeaderOf(files, decode, Sort(ws, WantLe));
      && (forall i, j :: 0 <= i < j < |header| ==> NameLe(header[i].name, header[j].name))
      && (forall i :: 0 <= i < |header| ==> header[i].item.start == if i == 0 then 0 else header[i - 1].item.end)
  {
    hide HeaderOf, PayloadOf, Readable, NameLe;
    WantOrder();
    var sorted := Sort(ws, WantLe);
    SortSorts(ws, WantLe);
    assert sorted[..0] == [];
    var header := HeaderOf(files, decode, sorted);
    forall i: nat | i < |header|
      ensures header[i].name == sorted[i].name && header[i].item.start == |PayloadOf(files, decode, sorted[..i])|
      ensures header[i].item.end == |PayloadOf(files, decode, sorted[..i + 1])|
    {
      HeaderAt(files, decode, sorted, i);
    }
    NothingLaid(files, decode);
    forall i, j | 0 <= i < j < |header| ensures NameLe(header[i].name, header[j].name) {
      assert WantLe(sorted[i], sorted[j]);
    }
  }
}
