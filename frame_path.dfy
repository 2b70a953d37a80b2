/** Asset names of the frames of a scroll-driven image sequence (`getFramePath`). */
module Frames {

  /** The immutable configuration of one frame sequence. */
  datatype Config = Config(frameCount: nat, startIndex: nat, basePath: string, prefix: string, extension: string)

  /** The ABOUT logo sequence of the page: 151 frames, logo_00000.png to logo_00150.png. */
  const AboutSequence := Config(151, 0, "assets/logosequence/", "logo_", ".png")

  /** The frame number is left-padded to this many characters. */
  const PadWidth: nat := 5

  function Pow10(k: nat): (p: nat)
    ensures p >= 1
  {
    if k == 0 then 1 else 10 * Pow10(k - 1)
  }

  predicate IsDigit(c: char) { '0' <= c <= '9' }

  function DigitChar(d: nat): (c: char)
    requires d < 10
    ensures IsDigit(c)
  {
    ('0' as int + d) as char
  }

  function DigitValue(c: char): nat
  {
    if IsDigit(c) then (c as int - '0' as int) as nat else 0
  }

  /** `String(n)` for a non-negative integer: its decimal digits, most significant first. */
  function Decimal(n: nat): (r: string)
    ensures |r| >= 1
    ensures forall k :: 0 <= k < |r| ==> IsDigit(r[k])
  {
    if n < 10 then [DigitChar(n)] else Decimal(n / 10) + [DigitChar(n % 10)]
  }

  /** The number a string of decimal digits denotes (leading zeros allowed). */
  function Value(s: string): nat
  {
    if s == [] then 0 else Value(s[..|s| - 1]) * 10 + DigitValue(s[|s| - 1])
  }

  function Repeat(c: char, n: nat): (r: string)
    ensures |r| == n
    ensures forall k :: 0 <= k < n ==> r[k] == c
  {
    if n == 0 then [] else [c] + Repeat(c, n - 1)
  }

  /** `s.padStart(width, fill)` with a one-character fill: never truncates, only prepends. */
  function PadStart(s: string, width: nat, fill: char): (r: string)
    ensures |r| == if |s| >= width then |s| else width
    ensures r[|r| - |s|..] == s
    ensures forall k :: 0 <= k < |r| - |s| ==> r[k] == fill
  {
    if |s| >= width then s else Repeat(fill, width - |s|) + s
  }

  /** `getFramePath(frameNumber)`: base path, prefix, zero-padded absolute frame number, extension. */
  function FramePath(cfg: Config, frameNumber: nat): (path: string)
    ensures |cfg.basePath| + |cfg.prefix| + PadWidth + |cfg.extension| <= |path|
    ensures path[..|cfg.basePath| + |cfg.prefix|] == cfg.basePath + cfg.prefix
    ensures path[|path| - |cfg.extension|..] == cfg.extension
  {
    cfg.basePath + cfg.prefix + PadStart(Decimal(cfg.startIndex + frameNumber), PadWidth, '0') + cfg.extension
  }

  /** The part of a path between the configured prefix and the extension: where the frame number sits. */
  function NumberField(cfg: Config, path: string): string
    requires |cfg.basePath| + |cfg.prefix| + |cfg.extension| <= |path|
  {
    path[|cfg.basePath| + |cfg.prefix|..|path| - |cfg.extension|]
  }

  lemma {:induction false} ValueOfDecimal(n: nat)
    ensures Value(Decimal(n)) == n
  {
    if n >= 10 {
      var d := Decimal(n / 10);
      assert (d + [DigitChar(n % 10)])[..|d|] == d;
      ValueOfDecimal(n / 10);
    }
  }

  lemma {:induction false} ValueOfZeros(z: nat)
    ensures Value(Repeat('0', z)) == 0
  {
    if z > 0 {
      assert Repeat('0', z)[..z - 1] == Repeat('0', z - 1);
      ValueOfZeros(z - 1);
    }
  }

  /** Leading zeros do not change the denoted number. */
  lemma {:induction false} ValueSkipsZeros(z: nat, s: string)
    ensures Value(Repeat('0', z) + s) == Value(s)
    decreases |s|
  {
    if s == [] {
      assert Repeat('0', z) + s == Repeat('0', z);
      ValueOfZeros(z);
    } else {
      var t := Repeat('0', z) + s;
      assert t[..|t| - 1] == Repeat('0', z) + s[..|s| - 1];
      ValueSkipsZeros(z, s[..|s| - 1]);
    }
  }

  /** A number below 10^w has at most w decimal digits. */
  lemma {:induction false} DecimalShort(n: nat, w: nat)
    requires w >= 1 && n < Pow10(w)
    ensures |Decimal(n)| <= w
  {
    if n >= 10 {
      assert w >= 2;
      DecimalShort(n / 10, w - 1);
    }
  }

  /**
   * A number field for `n`: at least five digits, ending with the digits of `n` (padding never
   * truncates), denoting `n`, and exactly five wide when `n` is below 100000.
   */
  predicate PaddedFieldOf(field: string, n: nat)
  {
    |field| >= PadWidth &&
    (forall k :: 0 <= k < |field| ==> IsDigit(field[k])) &&
    |Decimal(n)| <= |field| && field[|field| - |Decimal(n)|..] == Decimal(n) &&
    Value(field) == n &&
    (n < 100000 ==> |field| == PadWidth)
  }

  /** Zero-padding `String(n)` to five characters yields a number field for `n`. */
  lemma PaddedNumber(n: nat)
    ensures PaddedFieldOf(PadStart(Decimal(n), PadWidth, '0'), n)
  {
    var d := Decimal(n);
    var pad := PadStart(d, PadWidth, '0');
    if |d| < PadWidth {
      assert pad == Repeat('0', PadWidth - |d|) + d;
      ValueSkipsZeros(PadWidth - |d|, d);
    }
    ValueOfDecimal(n);
    if n < 100000 {
      assert Pow10(5) == 100000;
      DecimalShort(n, 5);
    }
  }

  /** A frame path splits into the configured head, the padded number and the extension. */
  lemma FramePathSplit(cfg: Config, frameNumber: nat)
    ensures NumberField(cfg, FramePath(cfg, frameNumber)) == PadStart(Decimal(cfg.startIndex + frameNumber), PadWidth, '0')
  {
  }

  /** Between the prefix and the extension, a frame path holds a number field for the absolute frame number. */
  lemma FramePathLayout(cfg: Config, frameNumber: nat)
    ensures PaddedFieldOf(NumberField(cfg, FramePath(cfg, frameNumber)), cfg.startIndex + frameNumber)
  {
    FramePathSplit(cfg, frameNumber);
    PaddedNumber(cfg.startIndex + frameNumber);
  }

  /** Distinct frame numbers never share an asset path. */
  lemma FramePathInjective(cfg: Config, i: nat, j: nat)
    requires FramePath(cfg, i) == FramePath(cfg, j)
    ensures i == j
  {
    FramePathLayout(cfg, i);
    FramePathLayout(cfg, j);
  }

  /** A frame path is its head, the given number field and the extension. */
  lemma FramePathWithField(cfg: Config, frameNumber: nat, field: string)
    requires PadStart(Decimal(cfg.startIndex + frameNumber), PadWidth, '0') == field
    ensures FramePath(cfg, frameNumber) == cfg.basePath + cfg.prefix + field + cfg.extension
  {
  }

  lemma FirstFrameField()
    ensures PadStart(Decimal(0), PadWidth, '0') == "00000"
  {
    assert Decimal(0) == "0";
    assert Repeat('0', 4) == "0000";
  }

  lemma AboutFirstFrame()
    ensures FramePath(AboutSequence, 0) == "assets/logosequence/logo_00000.png"
  {
    FirstFrameField();
    FramePathWithField(AboutSequence, 0, "00000");
  }

  lemma DecimalOf150()
    ensures Decimal(150) == "150"
  {
    assert DigitChar(1) == '1' && DigitChar(5) == '5' && DigitChar(0) == '0';
    assert Decimal(1) == ['1'];
    assert Decimal(15) == Decimal(1) + ['5'];
    assert Decimal(150) == Decimal(15) + ['0'];
  }

  lemma LastFrameField()
    ensures PadStart(Decimal(150), PadWidth, '0') == "00150"
  {
    DecimalOf150();
    assert Repeat('0', 2) == "00";
  }

  lemma LastFrameSpelling()
    ensures AboutSequence.basePath + AboutSequence.prefix + "00150" + AboutSequence.extension
         == "assets/logosequence/logo_00150.png"
  {
  }

  lemma AboutLastFrame()
    ensures FramePath(AboutSequence, 150) == "assets/logosequence/logo_00150.png"
  {
    LastFrameField();
    FramePathWithField(AboutSequence, 150, "00150");
    LastFrameSpelling();
  }
}
