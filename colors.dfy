/**
 * The colour a new dataset gets (components/LeafletMap.tsx:114): `#` followed by the
 * base-16 digits of a random draw in [0, 0xFFFFFE]. The draw is a parameter here.
 */
module Colors {

  /** `Math.floor(Math.random() * 16777215)` is below this bound. */
  const DrawBound: nat := 16777215

  predicate IsHexDigit(c: char)
  {
    ('0' <= c <= '9') || ('a' <= c <= 'f')
  }

  predicate AllHexDigits(s: string)
  {
    forall k :: 0 <= k < |s| ==> IsHexDigit(s[k])
  }

  function HexDigit(d: nat): (c: char)
    requires d < 16
    ensures IsHexDigit(c)
  {
    if d < 10 then ('0' as int + d) as char else ('a' as int + d - 10) as char
  }

  function DigitValue(c: char): (d: nat)
    requires IsHexDigit(c)
    ensures d < 16
  {
    if c <= '9' then c as int - '0' as int else c as int - 'a' as int + 10
  }

  function Pow16(k: nat): (p: nat)
    ensures p >= 1
  {
    if k == 0 then 1 else 16 * Pow16(k - 1)
  }

  /** The number a string of base-16 digits denotes. */
  function ParseHex(s: string): nat
    requires AllHexDigits(s)
    decreases |s|
  {
    if s == [] then 0 else ParseHex(s[..|s| - 1]) * 16 + DigitValue(s[|s| - 1])
  }

  /** `n.toString(16)`: the shortest base-16 spelling of n, with no leading zeros. */
  function ToHex(n: nat): (s: string)
    ensures |s| >= 1 && AllHexDigits(s)
    decreases n
  {
    if n < 16 then [HexDigit(n)] else ToHex(n / 16) + [HexDigit(n % 16)]
  }

  /** `n` written with exactly `width` base-16 digits, zeros in front. */
  function PaddedHex(n: nat, width: nat): (s: string)
    ensures |s| == width && AllHexDigits(s)
    decreases width
  {
    if width == 0 then [] else PaddedHex(n / 16, width - 1) + [HexDigit(n % 16)]
  }

  /** The colour string as the source builds it: `#` and the unpadded digits of the draw. */
  function ColorAsWritten(draw: nat): (c: string)
    ensures |c| >= 2 && c[0] == '#'
    ensures AllHexDigits(c[1..]) && ParseHex(c[1..]) == draw
  {
    ToHexRoundTrip(draw);
    assert ("#" + ToHex(draw))[1..] == ToHex(draw);
    "#" + ToHex(draw)
  }

  /** The colour string as intended: always `#` and six digits. */
  function RandomColor(draw: nat): (c: string)
    ensures |c| == 7 && c[0] == '#'
  {
    "#" + PaddedHex(draw, 6)
  }

  /** `toString(16)` does spell the draw: parsing its digits gives the draw back. */
  lemma {:induction false} ToHexRoundTrip(n: nat)
    ensures ParseHex(ToHex(n)) == n
    decreases n
  {
    if n >= 16 {
      ToHexRoundTrip(n / 16);
      var s := ToHex(n);
      assert s[..|s| - 1] == ToHex(n / 16);
    }
  }

  /** A number below 16^w has at most w digits in the source's spelling. */
  lemma {:induction false} ToHexShort(n: nat, w: nat)
    requires n < Pow16(w)
    ensures |ToHex(n)| <= if w == 0 then 1 else w
    decreases w
  {
    if n >= 16 {
      assert w >= 2;
      ToHexShort(n / 16, w - 1);
    }
  }

  /** A draw below 0x100000 yields a colour shorter than `#rrggbb`, which CSS does not read as intended. */
  lemma ShortDrawsGiveShortColors(draw: nat)
    requires draw < 0x100000
    ensures |ColorAsWritten(draw)| < 7
  {
    assert Pow16(5) == 0x100000;
    ToHexShort(draw, 5);
  }

  /** The concrete draw 167 becomes the three-character colour "#a7". */
  lemma ShortColorExample()
    ensures ColorAsWritten(167) == "#a7"
  {
    assert ToHex(10) == "a";
    assert ToHex(167) == ToHex(10) + [HexDigit(7)];
  }

  /** With the zeros in front, the digits still spell the number. */
  lemma {:induction false} PaddedHexRoundTrip(n: nat, width: nat)
    requires n < Pow16(width)
    ensures ParseHex(PaddedHex(n, width)) == n
    decreases width
  {
    if width > 0 {
      PaddedHexRoundTrip(n / 16, width - 1);
      var s := PaddedHex(n, width);
      assert s[..|s| - 1] == PaddedHex(n / 16, width - 1);
    }
  }

  /** When a number needs all `w` digits, both spellings agree. */
  lemma {:induction false} ToHexIsPaddedWhenFull(n: nat, w: nat)
    requires w >= 1 && Pow16(w - 1) <= n < Pow16(w)
    ensures ToHex(n) == PaddedHex(n, w)
    decreases w
  {
    if w == 1 {
      assert n < 16;
    } else {
      ToHexIsPaddedWhenFull(n / 16, w - 1);
    }
  }

  /** Every possible draw gives `#` and six digits that spell the draw. */
  lemma RandomColorWellFormed(draw: nat)
    requires draw < DrawBound
    ensures |RandomColor(draw)| == 7 && RandomColor(draw)[0] == '#'
    ensures AllHexDigits(RandomColor(draw)[1..])
    ensures ParseHex(RandomColor(draw)[1..]) == draw
  {
    assert RandomColor(draw)[1..] == PaddedHex(draw, 6);
    assert Pow16(6) == 16777216;
    PaddedHexRoundTrip(draw, 6);
  }

  /** For draws of six digits the intended colour is the source's colour. */
  lemma RandomColorAgreesOnFullDraws(draw: nat)
    requires 0x100000 <= draw < DrawBound
    ensures RandomColor(draw) == ColorAsWritten(draw)
  {
    assert Pow16(5) == 0x100000 && Pow16(6) == 16777216;
    ToHexIsPaddedWhenFull(draw, 6);
  }
}
