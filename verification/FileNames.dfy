/** Shard file names, `model-00001-of-00052.safetensors`, and paths below the artifact directory. */
module FileNames {
  import opened ExportLayout

  function Decimal(n: nat): string {
    if n < 10 then [Digit(n)] else Decimal(n / 10) + [Digit(n % 10)]
  }

  function Digit(n: nat): char
    requires n < 10
  {
    "0123456789"[n]
  }

  function Zeros(k: nat): string {
    seq(k, _ => '0')
  }

  /** At least five digits, zeros first. */
  function Padded5(n: nat): string {
    if |Decimal(n)| < 5 then Zeros(5 - |Decimal(n)|) + Decimal(n) else Decimal(n)
  }

  function DigitValue(c: char): nat {
    if '0' <= c <= '9' then (c - '0') as nat else 0
  }

  function Value(s: string): nat {
    if s == "" then 0 else 10 * Value(s[..|s| - 1]) + DigitValue(s[|s| - 1])
  }

  lemma {:induction false} DecimalRoundTrip(n: nat)
    ensures Value(Decimal(n)) == n
  {
    DigitRoundTrip(n % 10);
    if n >= 10 {
      DecimalRoundTrip(n / 10);
      assert Decimal(n)[..|Decimal(n)| - 1] == Decimal(n / 10);
    } else {
      assert Decimal(n) == [Digit(n)];
      assert Decimal(n)[..0] == "";
      assert Value("") == 0;
    }
  }

  lemma DigitRoundTrip(n: nat)
    requires n < 10
    ensures DigitValue(Digit(n)) == n
  {
  }

  lemma {:induction false} ZerosAddNothing(k: nat, s: string)
    ensures Value(Zeros(k) + s) == Value(s)
  {
    if s == "" {
      assert Zeros(k) + s == Zeros(k);
      if k > 0 {
        assert Zeros(k)[..k - 1] == Zeros(k - 1) + "";
        ZerosAddNothing(k - 1, "");
      }
    } else {
      assert (Zeros(k) + s)[..k + |s| - 1] == Zeros(k) + s[..|s| - 1];
      ZerosAddNothing(k, s[..|s| - 1]);
    }
  }

  lemma PaddedRoundTrip(n: nat)
    ensures Value(Padded5(n)) == n
  {
    DecimalRoundTrip(n);
    if |Decimal(n)| < 5 {
      ZerosAddNothing(5 - |Decimal(n)|, Decimal(n));
    }
  }

  function Render(f: FileName): string {
    "model-" + Padded5(f.ordinal) + "-of-" + Padded5(f.total) + ".safetensors"
  }

  /** A rendered name spells its numbers out: five decimal digits each, as long as they fit. */
  lemma RenderSpells(f: FileName)
    requires f.ordinal < 100000 && f.total < 100000
    ensures |Render(f)| == 32 && Render(f)[..6] == "model-" && Render(f)[11..15] == "-of-" && Render(f)[20..] == ".safetensors"
    ensures Spells(Render(f)[6..11], f.ordinal) && Spells(Render(f)[15..20], f.total)
  {
    PaddedSpells(f.ordinal);
    PaddedSpells(f.total);
    var a, b := Padded5(f.ordinal), Padded5(f.total);
    hide Padded5, Spells;
    assert Render(f) == "model-" + a + "-of-" + b + ".safetensors";
    assert Render(f)[6..11] == a && Render(f)[15..20] == b;
  }

  /** Five digits, the most significant first. */
  predicate Spells(s: string, n: nat) {
    && |s| == 5 && IsDigit(s[0], n / 10000 % 10) && IsDigit(s[1], n / 1000 % 10) && IsDigit(s[2], n / 100 % 10)
    && IsDigit(s[3], n / 10 % 10) && IsDigit(s[4], n % 10)
  }

  predicate IsDigit(c: char, n: nat) {
    c as int == '0' as int + n
  }

  lemma DigitsAre()
    ensures forall n :: 0 <= n < 10 ==> IsDigit(Digit(n), n)
  {
  }

  /** The last digit, and those before it. */
  lemma DecimalSteps(n: nat)
    ensures n >= 10 ==> Decimal(n) == Decimal(n / 10) + [Digit(n % 10)]
    ensures n < 10 ==> Decimal(n) == [Digit(n)]
  {
  }

  lemma PaddedSpells(n: nat)
    requires n < 100000
    ensures Spells(Padded5(n), n)
  {
    hide Digit, Decimal, IsDigit;
    DigitsAre();
    DecimalSteps(n);
    DecimalSteps(n / 10);
    DecimalSteps(n / 100);
    DecimalSteps(n / 1000);
    DecimalSteps(n / 10000);
    ZeroIsDigit();
    TenTimes(n);
  }

  lemma TenTimes(n: nat)
    ensures n / 10 / 10 == n / 100 && n / 100 / 10 == n / 1000 && n / 1000 / 10 == n / 10000
  {
  }

  lemma ZeroIsDigit()
    ensures Digit(0) == '0'
  {
  }

  /** Shards of one plan never share a file name. */
  lemma RenderIsInjective(f: FileName, g: FileName)
    requires f.total == g.total && Render(f) == Render(g)
    ensures f == g
  {
    var a, b, rest := Padded5(f.ordinal), Padded5(g.ordinal), "-of-" + Padded5(f.total) + ".safetensors";
    assert Render(f) == "model-" + (a + rest) && Render(g) == "model-" + (b + rest);
    assert ("model-" + (a + rest))[6..] == a + rest && ("model-" + (b + rest))[6..] == b + rest;
    assert |a| == |b|;
    assert (a + rest)[..|a|] == a && (b + rest)[..|b|] == b;
    PaddedRoundTrip(f.ordinal);
    PaddedRoundTrip(g.ordinal);
  }

  predicate IsShardName(name: string) {
    |name| >= 12 && name[|name| - 12..] == ".safetensors"
  }

  lemma RenderedIsShardName(f: FileName)
    ensures IsShardName(Render(f))
  {
    var head := "model-" + Padded5(f.ordinal) + "-of-" + Padded5(f.total);
    assert Render(f) == head + ".safetensors";
    assert Render(f)[|head|..] == ".safetensors";
  }

  function In(root: string, name: string): string {
    root + "/" + name
  }

  predicate Under(root: string, path: string) {
    root + "/" <= path
  }

  lemma InIsInjective(root: string, a: string, b: string)
    ensures In(root, a) == In(root, b) ==> a == b
    ensures Under(root, In(root, a))
  {
    assert In(root, a)[|root + "/"|..] == a && In(root, b)[|root + "/"|..] == b;
  }

  // ---------- temporary files ----------

  /** A path up to its last slash. */
  function Directory(path: string): (r: string)
    ensures r <= path && forall i :: |r| <= i < |path| ==> path[i] != '/'
  {
    if path == "" || path[|path| - 1] == '/' then path
    else
      var r := Directory(path[..|path| - 1]);
      r
  }

  /** A temporary file beside a path; the word is drawn at random. */
  function TemporaryPath(path: string, word: string): string {
    Directory(path) + "." + word + ".partial"
  }

  lemma TemporaryIsBeside(root: string, path: string, word: string)
    requires Under(root, path)
    ensures Under(root, TemporaryPath(path, word))
  {
    var r := Directory(path);
    assert path[|root|] == '/';
    assert r[..|root| + 1] == path[..|root| + 1];
    assert TemporaryPath(path, word)[..|root| + 1] == r[..|root| + 1];
  }

  /** A shard never has a temporary's name. */
  lemma TemporaryIsNoShard(path: string, word: string)
    ensures !IsShardName(TemporaryPath(path, word))
  {
    var t := TemporaryPath(path, word);
    assert t[|t| - 1] == 'l';
  }
}
