/** The `f"#{r:02x}{g:02x}{b:02x}"` label of a palette swatch, written out as
    Python formats an int with the `02x` spec: lower-case hex digits of the
    magnitude without leading zeros, a `-` sign for negatives, and zero
    padding after the sign up to a total width of two. */
module HexFormat {

  predicate IsHexDigit(c: char) {
    '0' <= c <= '9' || 'a' <= c <= 'f'
  }

  predicate AllHex(s: string) {
    forall i :: 0 <= i < |s| ==> IsHexDigit(s[i])
  }

  function HexDigit(d: nat): (c: char)
    requires d < 16
    ensures IsHexDigit(c)
  {
    if d < 10 then ('0' as int + d) as char else ('a' as int + d - 10) as char
  }

  function DigitValue(c: char): (v: nat)
    ensures v < 16
  {
    if '0' <= c <= '9' then c as int - '0' as int
    else if 'a' <= c <= 'f' then c as int - 'a' as int + 10
    else 0
  }

  lemma DigitValueOfHexDigit(d: nat)
    requires d < 16
    ensures DigitValue(HexDigit(d)) == d
  {
  }

  /** Hex digits of v, most significant first, no leading zeros ("0" for zero). */
  function Digits(v: nat): (s: string)
    ensures |s| >= 1
    decreases v
  {
    if v < 16 then [HexDigit(v)] else Digits(v / 16) + [HexDigit(v % 16)]
  }

  /** The value a string of hex digits denotes (the reading side of the round trip). */
  function Value(s: string): nat
    decreases |s|
  {
    if s == [] then 0 else Value(s[..|s| - 1]) * 16 + DigitValue(s[|s| - 1])
  }

  /** `format(v, "02x")`. */
  function Format02x(v: int): string {
    if v < 0 then "-" + Digits(-v)
    else if v < 16 then "0" + Digits(v)
    else Digits(v)
  }

  /** `f"#{r:02x}{g:02x}{b:02x}"`. */
  function HexCode(r: int, g: int, b: int): string {
    "#" + Format02x(r) + Format02x(g) + Format02x(b)
  }

  /** Reads a `#rrggbb` code back into its three channels. */
  function ParseHexCode(s: string): Option3 {
    if |s| == 7 && s[0] == '#' && AllHex(s[1..])
    then Channels(Value(s[1..3]), Value(s[3..5]), Value(s[5..7]))
    else NotACode
  }

  datatype Option3 = NotACode | Channels(r: nat, g: nat, b: nat)

  lemma {:induction false} DigitsRoundTrip(v: nat)
    ensures AllHex(Digits(v))
    ensures Value(Digits(v)) == v
    ensures v < 16 ==> |Digits(v)| == 1
    ensures 16 <= v < 256 ==> |Digits(v)| == 2
    ensures v >= 256 ==> |Digits(v)| >= 3
    decreases v
  {
    if v < 16 {
      DigitValueOfHexDigit(v);
      assert Digits(v)[..0] == [];
    } else {
      DigitsRoundTrip(v / 16);
      var s := Digits(v);
      assert s[..|s| - 1] == Digits(v / 16);
      DigitValueOfHexDigit(v % 16);
      assert Value(s) == (v / 16) * 16 + v % 16;
    }
  }

  /** A leading zero digit does not change the value. */
  lemma {:induction false} LeadingZero(s: string)
    ensures Value("0" + s) == Value(s)
    decreases |s|
  {
    if s == [] {
      assert ("0" + s)[..0] == [];
    } else {
      var t := "0" + s;
      assert t[..|t| - 1] == "0" + s[..|s| - 1];
      LeadingZero(s[..|s| - 1]);
    }
  }

  /** For a non-negative int the `02x` text is all hex digits and reads back as
      the int; it is exactly two characters wide precisely for 0..255. */
  lemma Format02xRoundTrip(v: int)
    requires v >= 0
    ensures AllHex(Format02x(v))
    ensures Value(Format02x(v)) == v
    ensures |Format02x(v)| == 2 <==> v < 256
  {
    DigitsRoundTrip(v);
    if v < 16 {
      LeadingZero(Digits(v));
    }
  }

  /** A negative channel is printed with a minus sign, so its code is not a
      `#rrggbb` code. */
  lemma Format02xNegative(v: int)
    requires v < 0
    ensures Format02x(v)[0] == '-' && !AllHex(Format02x(v))
  {
  }

  /** The label of an in-range colour is `#` plus six lower-case hex digits
      encoding r, g and b in that order, and it parses back to (r, g, b). */
  lemma HexCodeRoundTrip(r: int, g: int, b: int)
    requires 0 <= r < 256 && 0 <= g < 256 && 0 <= b < 256
    ensures |HexCode(r, g, b)| == 7 && HexCode(r, g, b)[0] == '#'
    ensures AllHex(HexCode(r, g, b)[1..])
    ensures ParseHexCode(HexCode(r, g, b)) == Channels(r, g, b)
  {
    Format02xRoundTrip(r);
    Format02xRoundTrip(g);
    Format02xRoundTrip(b);
    var s := HexCode(r, g, b);
    assert s[1..3] == Format02x(r);
    assert s[3..5] == Format02x(g);
    assert s[5..7] == Format02x(b);
    assert s[1..] == Format02x(r) + Format02x(g) + Format02x(b);
  }
}
