/** The resumable conversion of one table: two chunked passes with durable progress over files that a
    crash may leave with arbitrary bytes beyond the progress recorded. */
module ConvertTable {
  import opened Bytes
  import opened ConvertMeaning
  import opened Options
  import opened PleBlock
  import opened PleHistogram
  import opened PleTable

  /** `Stopped` is the process dying; `Raised` is the code refusing to go on. */
  datatype Outcome = Done | Stopped | Raised

  /** Where the process may die. `Renaming` is between the link of the first final name and the removal of the
      partial one. */
  datatype Death = Never | Anywhere | Renaming

  method Dies(death: Death) returns (dies: bool)
    ensures dies ==> death.Anywhere?
  {
    dies := *;
    dies := dies && death.Anywhere?;
  }

  // ---------- chunks ----------

  function Rows(t: seq<Byte>, width: nat, start: nat, n: nat): seq<Byte>
    requires (start + n) * width <= |t| && start * width <= (start + n) * width
  {
    t[start * width..(start + n) * width]
  }

  /** Whole-table statistics from a prefix's and the next chunk's. */
  lemma {:induction false} TableMaxJoins(w: seq<Byte>, s: seq<Byte>, start: nat, n: nat, e: nat)
    requires (start + n) * 256 <= |w| && (start + n) * 8 <= |s|
    ensures TableMax(w, s, (start + n) * 8, e)
         == Max(TableMax(w, s, start * 8, e), TableMax(Rows(w, 256, start, n), Rows(s, 8, start, n), n * 8, e))
  {
    GroupsJoin(w, s, start, n, n * 8, e);
  }

  lemma {:induction false} GroupsJoin(w: seq<Byte>, s: seq<Byte>, start: nat, n: nat, groups: nat, e: nat)
    requires (start + n) * 256 <= |w| && (start + n) * 8 <= |s| && groups <= n * 8
    ensures TableMax(w, s, start * 8 + groups, e)
         == Max(TableMax(w, s, start * 8, e), TableMax(Rows(w, 256, start, n), Rows(s, 8, start, n), groups, e))
  {
    hide StatOf;
    if groups > 0 {
      GroupsJoin(w, s, start, n, groups - 1, e);
      SameStat(w, s, start, n, groups - 1, e);
    }
  }

  lemma SliceOfSlice(t: seq<Byte>, a: nat, b: nat, c: nat, d: nat)
    requires a <= b <= |t| && c <= d <= b - a
    ensures t[a..b][c..d] == t[a + c..a + d]
  {
    var inner, outer := t[a..b][c..d], t[a + c..a + d];
    forall i | 0 <= i < d - c ensures inner[i] == outer[i] {
    }
    assert inner == outer;
  }

  lemma SameStat(w: seq<Byte>, s: seq<Byte>, start: nat, n: nat, b: nat, e: nat)
    requires (start + n) * 256 <= |w| && (start + n) * 8 <= |s| && b < n * 8
    ensures StatOf(w, s, start * 8 + b, e) == StatOf(Rows(w, 256, start, n), Rows(s, 8, start, n), b, e)
  {
    hide MaxCode;
    SliceOfSlice(w, start * 256, (start + n) * 256, b * 32, b * 32 + 32);
    assert start * 256 + b * 32 == (start * 8 + b) * 32;
  }

  /** A chunk's converted bytes are the whole table's direct ones. */
  lemma ChunkIsDirect(w: seq<Byte>, s: seq<Byte>, rows: nat, start: nat, n: nat, global: real, codes: seq<Byte>, scales: seq<Byte>)
    requires Shaped(w, s, rows) && Finite(w, s, rows) && start + n <= rows && global > 0.0 && IsLut(global, codes, scales)
    ensures Nibbles(codes) && |codes| == 256 * 128 * 256 && |scales| == 256 * 128
    ensures forall i: nat :: i < n * 128 ==>
      PackedByte(Rows(w, 256, start, n), Rows(s, 8, start, n), n, codes, i) == DirectByte(w, s, rows, global, start * 128 + i)
    ensures forall b: nat :: b < n * 16 ==>
      ScaleByte(Rows(w, 256, start, n), Rows(s, 8, start, n), n, scales, b) == DirectScale(w, s, rows, global, start * 16 + b)
  {
    ChunkIsFinite(w, s, rows, start, n);
    forall i: nat | i < n * 128
      ensures PackedByte(Rows(w, 256, start, n), Rows(s, 8, start, n), n, codes, i) == DirectByte(w, s, rows, global, start * 128 + i)
    {
      ByteInChunk(w, s, rows, start, n, global, codes, scales, i);
    }
    forall b: nat | b < n * 16
      ensures ScaleByte(Rows(w, 256, start, n), Rows(s, 8, start, n), n, scales, b) == DirectScale(w, s, rows, global, start * 16 + b)
    {
      ScaleByteInChunk(w, s, rows, start, n, global, codes, scales, b);
    }
  }

  lemma ByteInChunk(w: seq<Byte>, s: seq<Byte>, rows: nat, start: nat, n: nat, global: real, codes: seq<Byte>, scales: seq<Byte>, i: nat)
    requires Shaped(w, s, rows) && Finite(w, s, rows) && start + n <= rows && global > 0.0 && IsLut(global, codes, scales) && i < n * 128
    ensures Nibbles(codes)
    ensures PackedByte(Rows(w, 256, start, n), Rows(s, 8, start, n), n, codes, i) == DirectByte(w, s, rows, global, start * 128 + i)
  {
    hide DirectByte, PackedByte, Finite, IsLut;
    ChunkIsFinite(w, s, rows, start, n);
    ByteIsDirect(Rows(w, 256, start, n), Rows(s, 8, start, n), n, global, codes, scales, i);
    DirectInChunk(w, s, rows, start, n, global, i);
  }

  lemma ScaleByteInChunk(w: seq<Byte>, s: seq<Byte>, rows: nat, start: nat, n: nat, global: real, codes: seq<Byte>, scales: seq<Byte>, b: nat)
    requires Shaped(w, s, rows) && Finite(w, s, rows) && start + n <= rows && global > 0.0 && IsLut(global, codes, scales) && b < n * 16
    ensures ScaleByte(Rows(w, 256, start, n), Rows(s, 8, start, n), n, scales, b) == DirectScale(w, s, rows, global, start * 16 + b)
  {
    hide PackedByte, ScaleByte, Finite, IsLut;
    ChunkIsFinite(w, s, rows, start, n);
    ScaleIsDirect(Rows(w, 256, start, n), Rows(s, 8, start, n), n, global, codes, scales, b);
    ScaleInChunk(w, s, rows, start, n, global, b);
  }

  lemma ChunkIsFinite(w: seq<Byte>, s: seq<Byte>, rows: nat, start: nat, n: nat)
    requires Shaped(w, s, rows) && Finite(w, s, rows) && start + n <= rows
    ensures Shaped(Rows(w, 256, start, n), Rows(s, 8, start, n), n) && Finite(Rows(w, 256, start, n), Rows(s, 8, start, n), n)
  {
  }

  lemma ByteIsDirect(w: seq<Byte>, s: seq<Byte>, rows: nat, global: real, codes: seq<Byte>, scales: seq<Byte>, i: nat)
    requires Shaped(w, s, rows) && Finite(w, s, rows) && global > 0.0 && IsLut(global, codes, scales) && i < rows * 128
    ensures Nibbles(codes) && PackedByte(w, s, rows, codes, i) == DirectByte(w, s, rows, global, i)
  {
    hide Code, IsLut, Finite, BlockScale, Lookup, Magnitude;
    var k := BlockKey(w, s, rows, i / 8);
    BlockIsFinite(w, s, rows, i / 8);
    hide MaxCode;
    LookupIsDirect(global, codes, scales, k, w[2 * i]);
    LookupIsDirect(global, codes, scales, k, w[2 * i + 1]);
    BytePlaces(i);
  }

  lemma BytePlaces(i: nat)
    ensures 2 * i / 16 == i / 8 && (2 * i + 1) / 16 == i / 8 && 2 * i / 32 == i / 8 / 2 && (2 * i + 1) / 32 == i / 8 / 2
  {
  }

  lemma ScaleInChunk(w: seq<Byte>, s: seq<Byte>, rows: nat, start: nat, n: nat, global: real, b: nat)
    requires Shaped(w, s, rows) && start + n <= rows && global > 0.0 && b < n * 16
    ensures DirectScale(Rows(w, 256, start, n), Rows(s, 8, start, n), n, global, b) == DirectScale(w, s, rows, global, start * 16 + b)
  {
    hide BlockScale, Magnitude, MaxCode;
    SliceOfSlice(w, start * 256, (start + n) * 256, b * 16, b * 16 + 16);
    assert start * 256 + b * 16 == (start * 16 + b) * 16;
    assert Block(Rows(w, 256, start, n), b) == Block(w, start * 16 + b);
    assert (start * 16 + b) / 2 == start * 8 + b / 2;
  }

  lemma DirectInChunk(w: seq<Byte>, s: seq<Byte>, rows: nat, start: nat, n: nat, global: real, i: nat)
    requires Shaped(w, s, rows) && start + n <= rows && global > 0.0 && i < n * 128
    ensures DirectByte(Rows(w, 256, start, n), Rows(s, 8, start, n), n, global, i) == DirectByte(w, s, rows, global, start * 128 + i)
  {
    hide DirectCode;
    CodeInChunk(w, s, rows, start, n, global, 2 * i);
    CodeInChunk(w, s, rows, start, n, global, 2 * i + 1);
  }

  lemma CodeInChunk(w: seq<Byte>, s: seq<Byte>, rows: nat, start: nat, n: nat, global: real, i: nat)
    requires Shaped(w, s, rows) && start + n <= rows && global > 0.0 && i < n * 256
    ensures DirectCode(Rows(w, 256, start, n), Rows(s, 8, start, n), n, global, i) == DirectCode(w, s, rows, global, start * 256 + i)
  {
    hide Code, DirectScale;
    ScaleInChunk(w, s, rows, start, n, global, i / 16);
    assert (start * 256 + i) / 16 == start * 16 + i / 16 && (start * 256 + i) / 32 == start * 8 + i / 32;
  }

  // ---------- the driver ----------

  datatype Stats = Stats(rows: nat, maxima: seq<Byte>)

  /** What the completion record binds: the files' fingerprints, which stand for their contents. */
  datatype Receipt = Receipt(amax: real, global: real, weights: seq<Byte>, scales: seq<Byte>)

  /** An output file: its bytes, under the partial name, the final name, or both. */
  datatype Output = Output(bytes: seq<Byte>, partial: bool, final: bool) {
    predicate Exists() {
      partial || final
    }
  }

  function Overwrite(file: seq<Byte>, at: nat, bytes: seq<Byte>): seq<Byte>
    requires at + |bytes| <= |file|
  {
    file[..at] + bytes + file[at + |bytes|..]
  }

  /** A write that a crash may have cut short: other bytes stay, the region holds anything. */
  method TornWrite(file: seq<Byte>, at: nat, length: nat) returns (after: seq<Byte>)
    requires at + length <= |file|
    ensures |after| == |file|
    ensures forall i :: 0 <= i < |file| && !(at <= i < at + length) ==> after[i] == file[i]
  {
    var junk: seq<Byte> := *;
    after := if |junk| == length then Overwrite(file, at, junk) else file;
  }

  /** `make_output`: lays a new file out, or checks the header and size of the one there. */
  method MakeOutput(out: Output, header: seq<Byte>, payload: nat, death: Death) returns (o: Outcome, after: Output)
    ensures o.Stopped? ==> death.Anywhere?
    ensures !o.Stopped? ==> (o.Raised? <==> out.Exists() && !HeaderOk(header, out.bytes, payload))
    ensures out.Exists() ==> after == out && !o.Stopped?
    ensures !out.Exists() ==> !after.final && (o.Done? ==> after.partial)
    ensures o.Done? ==> after.Exists() && HeaderOk(header, after.bytes, payload)
  {
    if out.Exists() {
      return (if HeaderOk(header, out.bytes, payload) then Done else Raised), out;
    }
    var dies := Dies(death);
    if dies {
      var junk: seq<Byte> := *;
      return Stopped, Output(junk, true, false);
    }
    return Done, Output(header + seq(payload, _ => 0), true, false);
  }

  /** The final link and the removal of the partial name. */
  method Rename(out: Output, death: Death) returns (o: Outcome, after: Output)
    requires out.Exists()
    ensures after.bytes == out.bytes && after.Exists() && (o.Raised? <==> out.partial && out.final)
    ensures o.Raised? ==> after == out
    ensures o.Done? ==> after.final && !after.partial
    ensures o.Stopped? ==> !death.Never?
    ensures death.Renaming? && !out.final ==> o.Stopped? && after.partial && after.final
  {
    after := out;
    if !out.partial {
      return Done, after;
    }
    if out.final {
      return Raised, after;
    }
    var dies := Dies(death);
    if dies {
      return Stopped, after;
    }
    after := after.(final := true);
    dies := Dies(death);
    if dies || death.Renaming? {
      return Stopped, after;
    }
    return Done, after.(partial := false);
  }

  /** A chunk's statistics, with whatever schedule the threads follow. */
  method CountChunk(w: seq<Byte>, s: seq<Byte>, rows: nat, start: nat, n: nat, maxima: array<Byte>)
    requires Shaped(w, s, rows) && start + n <= rows && maxima.Length == 256
    requires forall e :: 0 <= e < 256 ==> maxima[e] == TableMax(w, s, start * 8, e)
    modifies maxima
    ensures forall e :: 0 <= e < 256 ==> maxima[e] == TableMax(w, s, (start + n) * 8, e)
  {
    var order: seq<nat> := [0, 1, 2, 3, 4, 5, 6, 7];
    var owner: seq<nat> := *;
    if |owner| != n * 8 || exists b :: 0 <= b < |owner| && owner[b] !in order {
      owner := seq(n * 8, b => b % 8);
    }
    PleStats(Rows(w, 256, start, n), Rows(s, 8, start, n), n, owner, order, maxima);
    forall e | 0 <= e < 256
      ensures TableMax(w, s, (start + n) * 8, e)
           == Max(TableMax(w, s, start * 8, e), TableMax(Rows(w, 256, start, n), Rows(s, 8, start, n), n * 8, e))
    {
      TableMaxJoins(w, s, start, n, e);
    }
  }

  lemma FiniteByStats(w: seq<Byte>, s: seq<Byte>, rows: nat, n: nat)
    requires Shaped(w, s, rows) && n <= rows && TableMax(w, s, n * 8, 255) > 0
    ensures !Finite(w, s, rows)
  {
    TableMaxAttained(w, s, n * 8, 255);
    var b :| 0 <= b < n * 8 && StatOf(w, s, b, 255) == TableMax(w, s, n * 8, 255);
    NonfiniteGroup(w, s, rows, b);
  }

  /** The tables for a global scale, over freshly zeroed arrays. */
  method BuildTables(global: real) returns (codes: seq<Byte>, scales: seq<Byte>)
    requires global > 0.0
    ensures IsLut(global, codes, scales)
  {
    var c := new Byte[256 * 128 * 256](_ => 0);
    var t := new Byte[256 * 128](_ => 0);
    PleLut(global, c, t);
    codes, scales := c[..], t[..];
  }

  /** A converted chunk. */
  method ConvertChunk(w: seq<Byte>, s: seq<Byte>, rows: nat, start: nat, n: nat, global: real, codes: seq<Byte>, scales: seq<Byte>)
    returns (packed: seq<Byte>, blockScales: seq<Byte>)
    requires Shaped(w, s, rows) && Finite(w, s, rows) && start + n <= rows && global > 0.0 && IsLut(global, codes, scales)
    ensures |packed| == n * 128 && forall i: nat :: i < n * 128 ==> packed[i] == DirectByte(w, s, rows, global, start * 128 + i)
    ensures |blockScales| == n * 16 && forall b: nat :: b < n * 16 ==> blockScales[b] == DirectScale(w, s, rows, global, start * 16 + b)
  {
    ChunkIsDirect(w, s, rows, start, n, global, codes, scales);
    hide DirectByte, DirectScale, PackedByte, ScaleByte, IsLut, Finite;
    var order: seq<nat> := seq(n * 16, b => b);
    forall b: nat | b < n * 16 ensures b in order {
      assert order[b] == b;
    }
    var out, os := new Byte[n * 128], new Byte[n * 16];
    PleConvert(Rows(w, 256, start, n), Rows(s, 8, start, n), n, order, codes, scales, out, os);
    packed, blockScales := out[..], os[..];
  }

  lemma WeightsFit(w: seq<Byte>, s: seq<Byte>, rows: nat, global: real, header: seq<Byte>, file: seq<Byte>, n: nat)
    requires global > 0.0 && Shaped(w, s, rows) && WeightsDone(w, s, rows, global, header, file, n)
    ensures |file| == |header| + rows * 128
  {
  }

  lemma ScalesFit(w: seq<Byte>, s: seq<Byte>, rows: nat, global: real, header: seq<Byte>, file: seq<Byte>, n: nat)
    requires global > 0.0 && Shaped(w, s, rows) && ScalesDone(w, s, rows, global, header, file, n)
    ensures |file| == |header| + rows * 16 + 4
  {
  }

  /** A file that agrees below row `n` is as converted as before. */
  lemma SameWeights(w: seq<Byte>, s: seq<Byte>, rows: nat, global: real, header: seq<Byte>, file: seq<Byte>, after: seq<Byte>, n: nat)
    requires global > 0.0 && Shaped(w, s, rows) && n <= rows && WeightsDone(w, s, rows, global, header, file, n)
    requires |after| == |file| && forall i :: 0 <= i < |header| + n * 128 ==> after[i] == file[i]
    ensures WeightsDone(w, s, rows, global, header, after, n)
  {
    hide DirectByte;
  }

  lemma SameScales(w: seq<Byte>, s: seq<Byte>, rows: nat, global: real, header: seq<Byte>, file: seq<Byte>, after: seq<Byte>, n: nat)
    requires global > 0.0 && Shaped(w, s, rows) && n <= rows && ScalesDone(w, s, rows, global, header, file, n)
    requires |after| == |file| && forall i :: 0 <= i < |header| + n * 16 ==> after[i] == file[i]
    ensures ScalesDone(w, s, rows, global, header, after, n)
  {
    hide DirectScale;
  }

  /** Writing a converted chunk after the first `start` rows. */
  lemma MoreWeights(w: seq<Byte>, s: seq<Byte>, rows: nat, global: real, header: seq<Byte>, file: seq<Byte>, start: nat, n: nat, packed: seq<Byte>)
    requires global > 0.0 && Shaped(w, s, rows) && start + n <= rows && WeightsDone(w, s, rows, global, header, file, start)
    requires |packed| == n * 128 && forall i: nat :: i < n * 128 ==> packed[i] == DirectByte(w, s, rows, global, start * 128 + i)
    ensures WeightsDone(w, s, rows, global, header, Overwrite(file, |header| + start * 128, packed), start)
    ensures WeightsDone(w, s, rows, global, header, Overwrite(file, |header| + start * 128, packed), start + n)
  {
    hide DirectByte;
    var after := Overwrite(file, |header| + start * 128, packed);
    forall i: nat | i < (start + n) * 128 ensures after[|header| + i] == DirectByte(w, s, rows, global, i) {
      if i < start * 128 {
        assert after[|header| + i] == file[|header| + i];
      } else {
        assert after[|header| + i] == packed[i - start * 128];
      }
    }
  }

  lemma MoreScales(w: seq<Byte>, s: seq<Byte>, rows: nat, global: real, header: seq<Byte>, file: seq<Byte>, start: nat, n: nat, bytes: seq<Byte>)
    requires global > 0.0 && Shaped(w, s, rows) && start + n <= rows && ScalesDone(w, s, rows, global, header, file, start)
    requires |bytes| == n * 16 && forall b: nat :: b < n * 16 ==> bytes[b] == DirectScale(w, s, rows, global, start * 16 + b)
    ensures ScalesDone(w, s, rows, global, header, Overwrite(file, |header| + start * 16, bytes), start)
    ensures ScalesDone(w, s, rows, global, header, Overwrite(file, |header| + start * 16, bytes), start + n)
  {
    hide DirectScale;
    var after := Overwrite(file, |header| + start * 16, bytes);
    forall b: nat | b < (start + n) * 16 ensures after[|header| + b] == DirectScale(w, s, rows, global, b) {
      if b < start * 16 {
        assert after[|header| + b] == file[|header| + b];
      } else {
        assert after[|header| + b] == bytes[b - start * 16];
      }
    }
  }

  lemma FewerScales(w: seq<Byte>, s: seq<Byte>, rows: nat, global: real, header: seq<Byte>, file: seq<Byte>, n: nat, fewer: nat)
    requires global > 0.0 && Shaped(w, s, rows) && fewer <= n && ScalesDone(w, s, rows, global, header, file, n)
    ensures ScalesDone(w, s, rows, global, header, file, fewer)
  {
    hide DirectScale;
  }

  class Conversion {
    const w: seq<Byte>
    const s: seq<Byte>
    const rows: nat
    const weightHeader: seq<Byte>
    const scaleHeader: seq<Byte>
    const encode: real -> seq<Byte>

    var stats: Stats
    var converted: nat
    var weights: Output
    var scales: Output
    var complete: Option<Receipt>

    constructor (w: seq<Byte>, s: seq<Byte>, rows: nat, weightHeader: seq<Byte>, scaleHeader: seq<Byte>, encode: real -> seq<Byte>)
      requires Shaped(w, s, rows) && forall x :: |encode(x)| == 4
      ensures Sound() && !Stuck()
      ensures this.w == w && this.s == s && this.rows == rows && this.encode == encode
      ensures this.weightHeader == weightHeader && this.scaleHeader == scaleHeader
    {
      this.w, this.s, this.rows, this.encode := w, s, rows, encode;
      this.weightHeader, this.scaleHeader := weightHeader, scaleHeader;
      stats := Stats(0, seq(256, _ => 0));
      converted, complete := 0, None;
      weights, scales := Output([], false, false), Output([], false, false);
    }

    /** The statistics so far are those of the first rows, which are finite. */
    ghost predicate StatsSound()
      reads this
    {
      && Shaped(w, s, rows) && (forall x :: |encode(x)| == 4)
      && stats.rows <= rows && |stats.maxima| == 256 && stats.maxima[255] == 0
      && forall e :: 0 <= e < 256 ==> stats.maxima[e] == TableMax(w, s, stats.rows * 8, e)
    }

    /** The global scale, known once all rows are counted. */
    ghost function Global(): (g: real)
      requires |stats.maxima| == 256
      reads this
      ensures g > 0.0
    {
      GlobalScale(Largest(stats.maxima, 255))
    }

    /** All rows are counted, and the first `n` are final in both files. */
    ghost predicate RowsDone(n: nat)
      requires StatsSound()
      reads this
    {
      && stats.rows == rows && Finite(w, s, rows) && weights.Exists() && scales.Exists()
      && WeightsDone(w, s, rows, Global(), weightHeader, weights.bytes, n)
      && ScalesDone(w, s, rows, Global(), scaleHeader, scales.bytes, n)
    }

    /** Both files are exactly one pass over the whole table, with its global scale. */
    ghost predicate Finished()
      requires StatsSound()
      reads this
    {
      RowsDone(rows) && scales.bytes[|scaleHeader| + rows * 16..] == encode(Global())
    }

    /** What every crash leaves: rows below the progress are final in both files. */
    ghost predicate Sound()
      reads this
    {
      && StatsSound() && converted <= rows && (converted > 0 ==> RowsDone(converted))
      && (complete.Some? ==> rows > 0 && Finished() && complete.value == Receipt(Largest(stats.maxima, 255), Global(), weights.bytes, scales.bytes))
    }

    /** A complete conversion's files mean what they must. */
    lemma CompleteMeans()
      requires Sound() && complete.Some?
      ensures FilesMean(w, s, rows, weightHeader, weights.bytes, scaleHeader, scales.bytes, encode)
    {
      hide WeightsDone, ScalesDone, Finite, TableMax, Largest, FilesMean;
      FinishedFilesMean(w, s, rows, stats.maxima, weightHeader, weights.bytes, scaleHeader, scales.bytes, encode);
    }

    /** A file under both its names. */
    predicate Doubled()
      reads this
    {
      (weights.partial && weights.final) || (scales.partial && scales.final)
    }

    /** States the code refuses to resume from: a file created but never fully laid out, or a crash
        between linking the final name and removing the partial one. */
    predicate Stuck()
      reads this
    {
      && complete.None?
      && (|| (weights.Exists() && !HeaderOk(weightHeader, weights.bytes, rows * 128))
          || (scales.Exists() && !HeaderOk(scaleHeader, scales.bytes, rows * 16 + 4))
          || Doubled())
    }

    /** The statistics pass. */
    method Statistics(chunk: nat, death: Death) returns (o: Outcome)
      requires Sound() && chunk >= 1 && complete.None?
      modifies this`stats
      ensures o.Stopped? ==> death.Anywhere?
      ensures Sound() && (o.Raised? ==> !Finite(w, s, rows))
      ensures o.Done? ==> stats.rows == rows && Finite(w, s, rows)
    {
      hide TableMax, Finite, WeightsDone, ScalesDone;
      var start := stats.rows;
      var seen := stats.maxima;
      var maxima := new Byte[256](i requires 0 <= i < 256 => seen[i]);
      while start < rows
        invariant start == stats.rows <= rows && Sound() && maxima[..] == stats.maxima && fresh(maxima)
        invariant converted > 0 ==> start == rows
        decreases rows - start
      {
        var n := if chunk < rows - start then chunk else rows - start;
        CountChunk(w, s, rows, start, n, maxima);
        if maxima[255] > 0 {
          FiniteByStats(w, s, rows, start + n);
          return Raised;
        }
        var dies := Dies(death);
        if dies {
          return Stopped;
        }
        stats := Stats(start + n, maxima[..]);
        start := start + n;
      }
      SentinelIsExact(w, s, rows);
      return Done;
    }

    /** The global scale and the lookup tables it determines. */
    method Tables() returns (amax: real, global: real, codes: seq<Byte>, scaleTable: seq<Byte>)
      requires StatsSound()
      ensures amax == Largest(stats.maxima, 255) && global == Global() && IsLut(global, codes, scaleTable)
    {
      hide TableMax, IsLut, Largest;
      var seen := stats.maxima;
      var maxima := new Byte[256](i requires 0 <= i < 256 => seen[i]);
      assert maxima[..] == seen;
      var largest := PleAmax(maxima);
      amax := largest.value;
      global := GlobalScale(amax);
      codes, scaleTable := BuildTables(global);
    }

    /** Both output files, laid out before any row is converted. */
    method MakeOutputs(death: Death) returns (o: Outcome)
      requires Sound() && complete.None? && stats.rows == rows && Finite(w, s, rows)
      modifies this`weights, this`scales
      ensures (o.Stopped? ==> death.Anywhere?) && (weights.final ==> old(weights.final))
      ensures Sound() && (o.Done? ==> RowsDone(converted))
      ensures o.Raised? ==> old(Stuck()) && Stuck()
      ensures o.Done? && !old(Stuck()) ==> !Stuck()
      ensures old(Stuck()) ==> Stuck() && (o.Done? ==> Doubled())
    {
      hide Finite, TableMax;
      var outcome, after := MakeOutput(weights, weightHeader, rows * 128, death);
      weights := after;
      if !outcome.Done? {
        return outcome;
      }
      outcome, after := MakeOutput(scales, scaleHeader, rows * 16 + 4, death);
      scales := after;
      return outcome;
    }

    /** The conversion pass. */
    method Conversions(chunk: nat, global: real, codes: seq<Byte>, scaleTable: seq<Byte>, death: Death) returns (o: Outcome)
      requires Sound() && chunk >= 1 && complete.None? && stats.rows == rows && global == Global() && IsLut(global, codes, scaleTable)
      requires RowsDone(converted)
      modifies this`weights, this`scales, this`converted
      ensures Sound() && !o.Raised? && (o.Done? ==> RowsDone(rows)) && (o.Stopped? ==> death.Anywhere?)
      ensures weights.partial == old(weights.partial) && weights.final == old(weights.final)
      ensures scales.partial == old(scales.partial) && scales.final == old(scales.final)
    {
      hide WeightsDone, ScalesDone, DirectByte, DirectScale, IsLut, Finite, TableMax;
      var start := converted;
      while start < rows
        invariant start == converted <= rows && Sound() && RowsDone(converted)
        invariant weights.partial == old(weights.partial) && weights.final == old(weights.final)
        invariant scales.partial == old(scales.partial) && scales.final == old(scales.final)
        decreases rows - start
      {
        var n := if chunk < rows - start then chunk else rows - start;
        var packed, blockScales := ConvertChunk(w, s, rows, start, n, global, codes, scaleTable);
        o := WriteChunk(start, n, packed, blockScales, death);
        if !o.Done? {
          return;
        }
        converted := start + n;
        start := start + n;
      }
      return Done;
    }

    /** One chunk into both files; durable only when it returns. */
    method WriteChunk(start: nat, n: nat, packed: seq<Byte>, blockScales: seq<Byte>, death: Death) returns (o: Outcome)
      requires Sound() && complete.None? && start == converted && start + n <= rows && RowsDone(start)
      requires |packed| == n * 128 && forall i: nat :: i < n * 128 ==> packed[i] == DirectByte(w, s, rows, Global(), start * 128 + i)
      requires |blockScales| == n * 16 && forall b: nat :: b < n * 16 ==> blockScales[b] == DirectScale(w, s, rows, Global(), start * 16 + b)
      modifies this`weights, this`scales
      ensures Sound() && RowsDone(start) && !o.Raised? && (o.Done? ==> RowsDone(start + n)) && (o.Stopped? ==> death.Anywhere?)
      ensures weights.partial == old(weights.partial) && weights.final == old(weights.final)
      ensures scales.partial == old(scales.partial) && scales.final == old(scales.final)
    {
      hide WeightsDone, ScalesDone, DirectByte, DirectScale, Finite, TableMax, Overwrite;
      ghost var global := Global();
      WeightsFit(w, s, rows, global, weightHeader, weights.bytes, start);
      ScalesFit(w, s, rows, global, scaleHeader, scales.bytes, start);
      var dies := Dies(death);
      if dies {
        var tornWeights := TornWrite(weights.bytes, |weightHeader| + start * 128, n * 128);
        var tornScales := TornWrite(scales.bytes, |scaleHeader| + start * 16, n * 16);
        SameWeights(w, s, rows, global, weightHeader, weights.bytes, tornWeights, start);
        SameScales(w, s, rows, global, scaleHeader, scales.bytes, tornScales, start);
        weights, scales := weights.(bytes := tornWeights), scales.(bytes := tornScales);
        return Stopped;
      }
      MoreWeights(w, s, rows, global, weightHeader, weights.bytes, start, n, packed);
      MoreScales(w, s, rows, global, scaleHeader, scales.bytes, start, n, blockScales);
      weights := weights.(bytes := Overwrite(weights.bytes, |weightHeader| + start * 128, packed));
      scales := scales.(bytes := Overwrite(scales.bytes, |scaleHeader| + start * 16, blockScales));
      dies := Dies(death);
      return if dies then Stopped else Done;
    }

    /** The global scale, written after the last block scale. */
    method WriteGlobal(global: real, death: Death) returns (o: Outcome)
      requires Sound() && complete.None? && RowsDone(rows) && global == Global()
      modifies this`scales
      ensures Sound() && RowsDone(rows) && !o.Raised? && (o.Done? ==> Finished()) && (o.Stopped? ==> death.Anywhere?)
      ensures scales.partial == old(scales.partial) && scales.final == old(scales.final)
    {
      hide WeightsDone, ScalesDone, Finite, TableMax;
      var at := |scaleHeader| + rows * 16;
      ScalesFit(w, s, rows, global, scaleHeader, scales.bytes, rows);
      var dies := Dies(death);
      if dies {
        var torn := TornWrite(scales.bytes, at, 4);
        SameScales(w, s, rows, global, scaleHeader, scales.bytes, torn, rows);
        FewerScales(w, s, rows, global, scaleHeader, torn, rows, converted);
        scales := scales.(bytes := torn);
        return Stopped;
      }
      var after := Overwrite(scales.bytes, at, encode(global));
      SameScales(w, s, rows, global, scaleHeader, scales.bytes, after, rows);
      FewerScales(w, s, rows, global, scaleHeader, after, rows, converted);
      assert after[at..] == encode(global);
      scales := scales.(bytes := after);
      return Done;
    }

    /** Both final names. */
    method RenameBoth(death: Death) returns (o: Outcome)
      requires Sound() && complete.None? && Finished()
      modifies this`weights, this`scales
      ensures Sound() && Finished()
      ensures o.Raised? ==> Stuck() && old(Doubled())
      ensures old(Doubled()) ==> Doubled() && !o.Done?
      ensures o.Done? ==> weights.final && !weights.partial && scales.final && !scales.partial
      ensures (o.Stopped? ==> !death.Never?) && (death.Renaming? && !old(weights.final) ==> o.Stopped? && Doubled())
    {
      hide WeightsDone, ScalesDone, Finite, TableMax;
      var outcome, after := Rename(weights, death);
      weights := after;
      if !outcome.Done? {
        return outcome;
      }
      outcome, after := Rename(scales, death);
      scales := after;
      return outcome;
    }

    /** `convert_table`: whatever progress and bytes earlier attempts left, finishing means the files are
        exactly one pass over the table; refusing means the table is empty or not finite, or the files
        were in a state that recovery does not cover, and from such a state no attempt ever finishes. */
    method ConvertTable(chunk: nat, death: Death) returns (o: Outcome)
      requires Sound() && chunk >= 1
      modifies this
      ensures Sound() && (o.Done? ==> complete.Some?) && (o.Stopped? ==> !death.Never?)
      ensures o.Done? ==> FilesMean(w, s, rows, weightHeader, weights.bytes, scaleHeader, scales.bytes, encode)
      ensures o.Raised? ==> rows == 0 || !Finite(w, s, rows) || (old(Stuck()) && Stuck())
      ensures !o.Stopped? && !old(Stuck()) ==> !Stuck()
      ensures old(Stuck()) ==> Stuck() && !o.Done?
      ensures old(complete.Some?) ==> o.Done? && complete == old(complete)
      ensures death.Renaming? && old(complete.None? && !Stuck() && !weights.final) && rows > 0 && Finite(w, s, rows) ==> o.Stopped? && Stuck()
    {
      hide WeightsDone, ScalesDone, Finite, TableMax, IsLut, HeaderOk, Largest, FilesMean;
      if complete.Some? {
        CompleteMeans();
        if complete.value.weights != weights.bytes || complete.value.scales != scales.bytes {
          return Raised;
        }
        return Done;
      }
      o := Statistics(chunk, death);
      if !o.Done? {
        return;
      }
      var amax, global, codes, scaleTable := Tables();
      if rows == 0 {
        return Raised;
      }
      o := MakeOutputs(death);
      if !o.Done? {
        return;
      }
      o := Conversions(chunk, global, codes, scaleTable, death);
      if !o.Done? {
        return;
      }
      o := WriteGlobal(global, death);
      if !o.Done? {
        return;
      }
      o := RenameBoth(death);
      if !o.Done? {
        return;
      }
      var dies := Dies(death);
      if dies {
        return Stopped;
      }
      complete := Some(Receipt(amax, global, weights.bytes, scales.bytes));
      CompleteMeans();
      return Done;
    }

    /** Any sequence of attempts, each with its own chunk size and each cut short anywhere, and then one that is
        not: on a finite table it finishes exactly if no death was in a window that recovery does not cover. */
    method Attempts(chunks: seq<nat>, last: nat) returns (o: Outcome)
      requires Sound() && last >= 1 && forall i :: 0 <= i < |chunks| ==> chunks[i] >= 1
      modifies this
      ensures Sound() && !o.Stopped? && (o.Done? ==> complete.Some? && Finished())
      ensures o.Done? ==> FilesMean(w, s, rows, weightHeader, weights.bytes, scaleHeader, scales.bytes, encode)
      ensures o.Raised? ==> rows == 0 || !Finite(w, s, rows) || Stuck()
      ensures rows > 0 && Finite(w, s, rows) ==> (o.Done? <==> !Stuck())
      ensures old(Stuck()) ==> Stuck() && !o.Done?
    {
      hide WeightsDone, ScalesDone, Finite, TableMax, HeaderOk, Largest, FilesMean;
      o := Stopped;
      var i := 0;
      while i < |chunks| && o.Stopped?
        invariant 0 <= i <= |chunks| && Sound() && (o.Done? ==> complete.Some?)
        invariant o.Raised? ==> rows == 0 || !Finite(w, s, rows) || Stuck()
        invariant old(Stuck()) ==> Stuck() && !o.Done?
      {
        o := ConvertTable(chunks[i], Anywhere);
        i := i + 1;
      }
      if o.Stopped? {
        o := ConvertTable(last, Never);
      }
      if o.Done? {
        CompleteMeans();
      }
    }

    /** Such a death, in the conversion of any finite table: the next attempt, and so every later one, is
        refused. */
    method DieRenaming(chunk: nat, next: nat) returns (first: Outcome, second: Outcome)
      requires Sound() && chunk >= 1 && next >= 1 && complete.None? && !Stuck() && !weights.final && rows > 0 && Finite(w, s, rows)
      modifies this
      ensures Sound() && first.Stopped? && second.Raised? && Stuck()
    {
      hide WeightsDone, ScalesDone, Finite, TableMax, HeaderOk, Largest;
      first := ConvertTable(chunk, Renaming);
      second := ConvertTable(next, Never);
    }
  }

  /** The finished files are determined by the table: neither chunk sizes nor crashes show in them. */
  lemma OneConversion(w: seq<Byte>, s: seq<Byte>, rows: nat, global: real, header: seq<Byte>, a: seq<Byte>, b: seq<Byte>)
    requires global > 0.0 && Shaped(w, s, rows)
    ensures WeightsDone(w, s, rows, global, header, a, rows) && WeightsDone(w, s, rows, global, header, b, rows) ==> a == b
    ensures (ScalesDone(w, s, rows, global, header, a, rows) && ScalesDone(w, s, rows, global, header, b, rows)
        && a[|header| + rows * 16..] == b[|header| + rows * 16..]) ==> a == b
  {
    hide DirectByte, DirectScale;
    if WeightsDone(w, s, rows, global, header, a, rows) && WeightsDone(w, s, rows, global, header, b, rows) {
      forall i | 0 <= i < |a| ensures a[i] == b[i] {
        if i < |header| {
          assert a[i] == a[..|header|][i] && b[i] == b[..|header|][i];
        } else {
          var k: nat := i - |header|;
          assert a[|header| + k] == DirectByte(w, s, rows, global, k) == b[|header| + k];
        }
      }
    }
    if ScalesDone(w, s, rows, global, header, a, rows) && ScalesDone(w, s, rows, global, header, b, rows)
       && a[|header| + rows * 16..] == b[|header| + rows * 16..] {
      forall i | 0 <= i < |a| ensures a[i] == b[i] {
        if i < |header| {
          assert a[i] == a[..|header|][i] && b[i] == b[..|header|][i];
        } else if i < |header| + rows * 16 {
          var k: nat := i - |header|;
          assert a[|header| + k] == DirectScale(w, s, rows, global, k) == b[|header| + k];
        } else {
          assert a[i] == a[|header| + rows * 16..][i - |header| - rows * 16];
          assert b[i] == b[|header| + rows * 16..][i - |header| - rows * 16];
        }
      }
    }
  }

  /** What the finished files decode to: every weight is within the error bound of its source. */
  lemma FilesAreClose(w: seq<Byte>, s: seq<Byte>, rows: nat, maxima: seq<Byte>, weightHeader: seq<Byte>, weights: seq<Byte>,
      scaleHeader: seq<Byte>, scales: seq<Byte>, i: nat)
    requires Shaped(w, s, rows) && Finite(w, s, rows) && |maxima| == 256 && i < rows * 256
    requires forall e :: 0 <= e < 256 ==> maxima[e] == TableMax(w, s, rows * 8, e)
    requires WeightsDone(w, s, rows, GlobalScale(Largest(maxima, 255)), weightHeader, weights, rows)
    requires ScalesDone(w, s, rows, GlobalScale(Largest(maxima, 255)), scaleHeader, scales, rows)
    ensures |weights| == |weightHeader| + rows * 128 && |scales| == |scaleHeader| + rows * 16 + 4
    ensures var global, scale := GlobalScale(Largest(maxima, 255)), scales[|scaleHeader| + i / 16];
      var code := Nibble(weights[|weightHeader| + i / 2], i % 2);
      1 <= scale && code < 16 && WithinBound(global, scale, Decode(global, scale, code), Source(s[i / 32], w[i]))
  {
    hide DirectScale, DirectCode, Finite, TableMax, Largest, Decode, Source, WithinBound, Nibble;
    var global := GlobalScale(Largest(maxima, 255));
    assert scales[|scaleHeader| + i / 16] == DirectScale(w, s, rows, global, i / 16);
    assert weights[|weightHeader| + i / 2] == DirectByte(w, s, rows, global, i / 2);
    Places(i);
    if i % 2 == 0 {
      Unpacks(DirectCode(w, s, rows, global, i), DirectCode(w, s, rows, global, i + 1));
    } else {
      Unpacks(DirectCode(w, s, rows, global, i - 1), DirectCode(w, s, rows, global, i));
    }
    DirectError(w, s, rows, maxima, i);
  }
}
