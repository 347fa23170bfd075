/** The frame path generator `currentFrame` of script.js: the 0-based frame
    index `i` names the file `./AOT_VIDEO/ezgif-frame-NNN.jpg`, where NNN is
    `(i + 1).toString().padStart(3, '0')`. */
module FramePath {
  import opened Wrappers

  /** Number of frames extracted from the video. */
  const FrameCount: nat := 50

  const Prefix: string := "./AOT_VIDEO/ezgif-frame-"
  const Suffix: string := ".jpg"

  /** Minimum width of the frame number; shorter numbers are padded with '0'. */
  const NumberWidth: nat := 3

  predicate IsDigit(c: char) {
    '0' <= c <= '9'
  }

  predicate AllDigits(s: string) {
    forall k :: 0 <= k < |s| ==> IsDigit(s[k])
  }

  function DigitChar(d: nat): (c: char)
    requires d < 10
    ensures IsDigit(c)
    ensures c as int - '0' as int == d
  {
    ('0' as int + d) as char
  }

  function DigitValue(c: char): nat
    requires IsDigit(c)
  {
    c as int - '0' as int
  }

  /** Numeric value of a string of decimal digits, most significant first. */
  function Value(s: string): nat
    requires AllDigits(s)
  {
    if |s| == 0 then 0 else Value(s[..|s| - 1]) * 10 + DigitValue(s[|s| - 1])
  }

  /** `Number.prototype.toString()` on a non-negative integer below 10^21
      (from there on JavaScript uses exponent notation): its decimal digits
      with no leading zero. */
  function Decimal(n: nat): (s: string)
    ensures 1 <= |s|
    ensures AllDigits(s)
    ensures s[0] == '0' ==> n == 0
    decreases n
  {
    if n < 10 then [DigitChar(n)] else Decimal(n / 10) + [DigitChar(n % 10)]
  }

  /** `String.prototype.padStart(width, fill)`: prefixes copies of `fill` until
      the string is `width` long; a string that is already long enough is
      returned as it is. */
  function PadStart(s: string, width: nat, fill: char): (r: string)
    ensures |r| == if |s| >= width then |s| else width
    ensures r[|r| - |s|..] == s
    ensures forall k :: 0 <= k < |r| - |s| ==> r[k] == fill
  {
    if |s| >= width then s else seq(width - |s|, _ => fill) + s
  }

  /** The frame number as it appears in the file name. */
  function FrameNumber(index: nat): string {
    PadStart(Decimal(index + 1), NumberWidth, '0')
  }

  /** `currentFrame(index)` (script.js:13-15). */
  function CurrentFrame(index: nat): (path: string)
    ensures |path| >= |Prefix| + NumberWidth + |Suffix|
    ensures path[..|Prefix|] == Prefix
    ensures path[|path| - |Suffix|..] == Suffix
    ensures AllDigits(path[|Prefix|..|path| - |Suffix|])
  {
    Prefix + FrameNumber(index) + Suffix
  }

  /** The inverse of `CurrentFrame`: recovers the 0-based index from a path
      of the asset layout, or None when the path is not one. */
  function ParseFramePath(path: string): (r: Option<nat>)
    ensures r.Some? ==> |path| > |Prefix| + |Suffix|
    ensures r.Some? ==> path[..|Prefix|] == Prefix && path[|path| - |Suffix|..] == Suffix
    ensures r.Some? ==>
              && AllDigits(path[|Prefix|..|path| - |Suffix|])
              && Value(path[|Prefix|..|path| - |Suffix|]) == r.value + 1
  {
    if |path| <= |Prefix| + |Suffix| then None
    else if path[..|Prefix|] != Prefix || path[|path| - |Suffix|..] != Suffix then None
    else
      var number := path[|Prefix|..|path| - |Suffix|];
      if !AllDigits(number) || Value(number) == 0 then None
      else Some(Value(number) - 1)
  }

  /** Appending a digit multiplies the value by ten and adds the digit. */
  lemma ValueAppend(s: string, c: char)
    requires AllDigits(s) && IsDigit(c)
    ensures AllDigits(s + [c])
    ensures Value(s + [c]) == Value(s) * 10 + DigitValue(c)
  {
  }

  /** Reading back the decimal rendering gives the number. */
  lemma {:induction false} ValueOfDecimal(n: nat)
    ensures Value(Decimal(n)) == n
    decreases n
  {
    if n < 10 {
      assert Decimal(n)[..0] == [];
    } else {
      ValueOfDecimal(n / 10);
      ValueAppend(Decimal(n / 10), DigitChar(n % 10));
    }
  }

  /** Leading zeros do not change the value of a digit string. */
  lemma {:induction false} ValueLeadingZeros(z: nat, s: string)
    requires AllDigits(s)
    ensures AllDigits(seq(z, _ => '0') + s)
    ensures Value(seq(z, _ => '0') + s) == Value(s)
    decreases |s|, z
  {
    var zs: string := seq(z, _ => '0');
    if |s| == 0 {
      assert zs + s == zs;
      if z > 0 {
        var shorter: string := seq(z - 1, _ => '0');
        assert zs[..|zs| - 1] == shorter + s;
        ValueLeadingZeros(z - 1, s);
      }
    } else {
      var init := s[..|s| - 1];
      assert (zs + s)[..|zs + s| - 1] == zs + init;
      ValueLeadingZeros(z, init);
    }
  }

  /** The padded frame number is a digit string whose value is `index + 1`. */
  lemma FrameNumberValue(index: nat)
    ensures AllDigits(FrameNumber(index))
    ensures Value(FrameNumber(index)) == index + 1
  {
    var d := Decimal(index + 1);
    ValueOfDecimal(index + 1);
    if |d| < NumberWidth {
      ValueLeadingZeros(NumberWidth - |d|, d);
    }
  }

  /** Parsing a generated path gives back its index, for every index. */
  lemma ParseCurrentFrame(index: nat)
    ensures ParseFramePath(CurrentFrame(index)) == Some(index)
  {
    var path := CurrentFrame(index);
    var number := FrameNumber(index);
    assert path[|Prefix|..|path| - |Suffix|] == number;
    FrameNumberValue(index);
  }

  /** Distinct indices name distinct files. */
  lemma CurrentFrameInjective(i: nat, j: nat)
    ensures CurrentFrame(i) == CurrentFrame(j) <==> i == j
  {
    if CurrentFrame(i) == CurrentFrame(j) {
      ParseCurrentFrame(i);
      ParseCurrentFrame(j);
    }
  }

  /** Below 999 the frame number is exactly three digits: hundreds, tens
      and units of `index + 1`. */
  lemma ThreeDigitFrameNumber(index: nat)
    requires index + 1 <= 999
    ensures FrameNumber(index)
         == [DigitChar((index + 1) / 100), DigitChar((index + 1) / 10 % 10), DigitChar((index + 1) % 10)]
  {
    var n := index + 1;
    if n < 10 {
      assert Decimal(n) == [DigitChar(n)];
    } else if n < 100 {
      assert Decimal(n / 10) == [DigitChar(n / 10)];
    } else {
      assert Decimal(n / 100) == [DigitChar(n / 100)];
      assert Decimal(n / 10) == [DigitChar(n / 100), DigitChar(n / 10 % 10)];
    }
  }

  /** The first and last of the fifty frames. */
  lemma FirstAndLastFrame()
    ensures CurrentFrame(0) == "./AOT_VIDEO/ezgif-frame-001.jpg"
    ensures CurrentFrame(FrameCount - 1) == "./AOT_VIDEO/ezgif-frame-050.jpg"
  {
    ThreeDigitFrameNumber(0);
    ThreeDigitFrameNumber(FrameCount - 1);
  }
}
