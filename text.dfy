/** String and byte helpers standing for the Python built-ins the beacon
    code relies on: str.upper/lower/strip/zfill, "in" on strings,
    f"{n:02X}", bytes.hex(), bytes.fromhex(), str(int) and int(str).
    Letters and white space are ASCII only. */
module Text {

  type byte = x: int | 0 <= x < 256

  // ---------------------------------------------------------------------
  // Case mapping
  // ---------------------------------------------------------------------

  predicate IsLowerLetter(c: char) { 'a' <= c <= 'z' }
  predicate IsUpperLetter(c: char) { 'A' <= c <= 'Z' }

  function UpperChar(c: char): (r: char)
    ensures !IsLowerLetter(r)
    ensures IsLowerLetter(c) ==> r as int == c as int - 32
    ensures !IsLowerLetter(c) ==> r == c
  {
    if IsLowerLetter(c) then (c as int - 32) as char else c
  }

  function LowerChar(c: char): (r: char)
    ensures !IsUpperLetter(r)
    ensures IsUpperLetter(c) ==> r as int == c as int + 32
    ensures !IsUpperLetter(c) ==> r == c
  {
    if IsUpperLetter(c) then (c as int + 32) as char else c
  }

  /** str.upper() */
  function Upper(s: string): (r: string)
    ensures |r| == |s|
    ensures forall i :: 0 <= i < |s| ==> r[i] == UpperChar(s[i])
  {
    if s == [] then [] else [UpperChar(s[0])] + Upper(s[1..])
  }

  /** str.lower() */
  function Lower(s: string): (r: string)
    ensures |r| == |s|
    ensures forall i :: 0 <= i < |s| ==> r[i] == LowerChar(s[i])
  {
    if s == [] then [] else [LowerChar(s[0])] + Lower(s[1..])
  }

  predicate IsUpperCased(s: string) {
    forall i :: 0 <= i < |s| ==> !IsLowerLetter(s[i])
  }

  lemma UpperIsUpperCased(s: string)
    ensures IsUpperCased(Upper(s))
    ensures Upper(Upper(s)) == Upper(s)
  {
  }

  lemma UpperOfUpperCased(s: string)
    requires IsUpperCased(s)
    ensures Upper(s) == s
  {
  }

  lemma UpperAppend(a: string, b: string)
    ensures Upper(a + b) == Upper(a) + Upper(b)
  {
    assert forall i :: 0 <= i < |a + b| ==> Upper(a + b)[i] == (Upper(a) + Upper(b))[i];
  }

  // ---------------------------------------------------------------------
  // White space and str.strip()
  // ---------------------------------------------------------------------

  /** The ASCII characters str.isspace() accepts. */
  predicate IsSpace(c: char) {
    c == ' ' || ('\t' <= c <= '\r') || (28 <= c as int <= 31)
  }

  function TrimLeft(s: string): (r: string)
    ensures |r| <= |s| && r == s[|s| - |r|..]
    ensures r == [] || !IsSpace(r[0])
    ensures forall i :: 0 <= i < |s| - |r| ==> IsSpace(s[i])
  {
    if s != [] && IsSpace(s[0]) then TrimLeft(s[1..]) else s
  }

  function TrimRight(s: string): (r: string)
    ensures |r| <= |s| && r == s[..|r|]
    ensures r == [] || !IsSpace(r[|r| - 1])
    ensures forall i :: |r| <= i < |s| ==> IsSpace(s[i])
  {
    if s != [] && IsSpace(s[|s| - 1]) then TrimRight(s[..|s| - 1]) else s
  }

  /** str.strip(): the text between the leading and the trailing white space. */
  function Strip(s: string): (r: string)
    ensures r == [] || (!IsSpace(r[0]) && !IsSpace(r[|r| - 1]))
    ensures exists k :: OccursAt(s, r, k)
  {
    var l := TrimLeft(s);
    var r := TrimRight(l);
    var k := |s| - |l|;
    assert s[k..k + |r|] == l[..|r|];
    assert OccursAt(s, r, k);
    r
  }

  // ---------------------------------------------------------------------
  // str.zfill(width)
  // ---------------------------------------------------------------------

  function Zeros(n: nat): (r: string)
    ensures |r| == n && forall i :: 0 <= i < n ==> r[i] == '0'
  {
    if n == 0 then [] else Zeros(n - 1) + ['0']
  }

  /** str.zfill(width): pads with '0' on the left to `width` characters,
      putting the padding after a leading '+' or '-'. */
  function ZFill(s: string, width: nat): (r: string)
  {
    if |s| >= width then s
    else if s != [] && (s[0] == '+' || s[0] == '-') then [s[0]] + Zeros(width - |s|) + s[1..]
    else Zeros(width - |s|) + s
  }

  lemma {:induction false} ZFillShape(s: string, width: nat)
    ensures |ZFill(s, width)| == if |s| >= width then |s| else width
    ensures |s| >= width ==> ZFill(s, width) == s
    ensures (s == [] || (s[0] != '+' && s[0] != '-')) && |s| < width ==>
              ZFill(s, width) == Zeros(width - |s|) + s
  {
  }

  lemma ZFillOfUpperCased(s: string, width: nat)
    requires IsUpperCased(s)
    ensures IsUpperCased(ZFill(s, width))
  {
    var r := ZFill(s, width);
    if |s| < width {
      var z := Zeros(width - |s|);
      if s != [] && (s[0] == '+' || s[0] == '-') {
        assert r == [s[0]] + z + s[1..];
        forall i | 0 <= i < |r| ensures !IsLowerLetter(r[i]) {
          if i == 0 {} else if i <= |z| { assert r[i] == z[i - 1]; } else { assert r[i] == s[i - |z|]; }
        }
      } else {
        assert r == z + s;
        forall i | 0 <= i < |r| ensures !IsLowerLetter(r[i]) {
          if i < |z| { assert r[i] == z[i]; } else { assert r[i] == s[i - |z|]; }
        }
      }
    }
  }

  // ---------------------------------------------------------------------
  // Hexadecimal
  // ---------------------------------------------------------------------

  predicate IsHexDigit(c: char) {
    ('0' <= c <= '9') || ('a' <= c <= 'f') || ('A' <= c <= 'F')
  }

  function HexValue(c: char): (v: nat)
    requires IsHexDigit(c)
    ensures v < 16
  {
    if '0' <= c <= '9' then c as int - '0' as int
    else if 'a' <= c <= 'f' then c as int - 'a' as int + 10
    else c as int - 'A' as int + 10
  }

  /** The upper-case hex digit of a nibble. */
  function UpperDigit(n: nat): (c: char)
    requires n < 16
    ensures IsHexDigit(c) && HexValue(c) == n && !IsLowerLetter(c)
  {
    if n < 10 then ('0' as int + n) as char else ('A' as int + n - 10) as char
  }

  /** The lower-case hex digit of a nibble. */
  function LowerDigit(n: nat): (c: char)
    requires n < 16
    ensures IsHexDigit(c) && HexValue(c) == n && !IsUpperLetter(c)
  {
    if n < 10 then ('0' as int + n) as char else ('a' as int + n - 10) as char
  }

  /** f"{n:02X}" for 0 <= n < 256. */
  function Hex2(n: nat): (r: string)
    requires n < 256
    ensures |r| == 2 && IsHexDigit(r[0]) && IsHexDigit(r[1]) && IsUpperCased(r)
  {
    [UpperDigit(n / 16), UpperDigit(n % 16)]
  }

  /** The value of a two-digit hex string. */
  function HexPairValue(s: string): (v: nat)
    requires |s| == 2 && IsHexDigit(s[0]) && IsHexDigit(s[1])
    ensures v < 256
  {
    HexValue(s[0]) * 16 + HexValue(s[1])
  }

  /** The two hex digits of f"{n:02X}" read back give n. */
  lemma Hex2RoundTrip(n: nat)
    requires n < 256
    ensures HexPairValue(Hex2(n)) == n
  {
  }

  /** bytes.hex() of one byte: two lower-case digits. */
  function ByteHex(b: byte): (r: string)
    ensures |r| == 2 && IsHexDigit(r[0]) && IsHexDigit(r[1])
    ensures HexPairValue(r) == b
  {
    [LowerDigit(b / 16), LowerDigit(b % 16)]
  }

  /** bytes.hex(): lower-case, two digits per byte. */
  function ToHex(bs: seq<byte>): (r: string)
    ensures |r| == 2 * |bs|
    ensures forall i :: 0 <= i < |r| ==> IsHexDigit(r[i]) && !IsUpperLetter(r[i])
  {
    if bs == [] then [] else ByteHex(bs[0]) + ToHex(bs[1..])
  }

  lemma {:induction false} ToHexAppend(a: seq<byte>, b: seq<byte>)
    ensures ToHex(a + b) == ToHex(a) + ToHex(b)
  {
    if a != [] {
      assert (a + b)[1..] == a[1..] + b;
      assert ToHex(a + b) == ByteHex(a[0]) + ToHex(a[1..] + b);
      ToHexAppend(a[1..], b);
    } else {
      assert a + b == b;
    }
  }

  /** The white space bytes.fromhex() skips between byte pairs. */
  predicate IsHexGap(c: char) {
    c == ' ' || ('\t' <= c <= '\r')
  }

  /** bytes.fromhex(): white space between pairs is skipped, every other
      character must be one of two hex digits of a pair; None where Python
      raises ValueError. */
  function FromHex(s: string): (r: Option<seq<byte>>)
    ensures r.Some? ==> |r.value| <= |s| / 2
  {
    if s == [] then Some([])
    else if IsHexGap(s[0]) then FromHex(s[1..])
    else if |s| >= 2 && IsHexDigit(s[0]) && IsHexDigit(s[1]) then
      match FromHex(s[2..])
      case None => None
      case Some(rest) => Some([HexPairValue(s[..2]) as byte] + rest)
    else None
  }

  /** bytes.fromhex inverts bytes.hex. */
  lemma {:induction false} FromHexToHex(bs: seq<byte>)
    ensures FromHex(ToHex(bs)) == Some(bs)
  {
    if bs != [] {
      var h := ToHex(bs);
      assert h == ByteHex(bs[0]) + ToHex(bs[1..]);
      assert h[2..] == ToHex(bs[1..]);
      assert h[..2] == ByteHex(bs[0]);
      assert IsHexDigit(h[0]) && IsHexDigit(h[1]) && !IsHexGap(h[0]);
      assert HexPairValue(h[..2]) == bs[0];
      FromHexToHex(bs[1..]);
      assert bs == [bs[0]] + bs[1..];
    }
  }

  /** An even-length string of hex digits always converts, one byte per pair. */
  lemma {:induction false} FromHexOfDigits(s: string)
    requires |s| % 2 == 0
    requires forall i :: 0 <= i < |s| ==> IsHexDigit(s[i])
    ensures FromHex(s).Some? && |FromHex(s).value| == |s| / 2
  {
    if s != [] {
      assert !IsHexGap(s[0]);
      FromHexOfDigits(s[2..]);
    }
  }

  predicate AllHexDigits(s: string) {
    forall i :: 0 <= i < |s| ==> IsHexDigit(s[i])
  }

  // ---------------------------------------------------------------------
  // Decimal numbers: str(int) and int(str)
  // ---------------------------------------------------------------------

  function DigitChar(d: nat): (c: char)
    requires d < 10
    ensures '0' <= c <= '9'
  {
    ('0' as int + d) as char
  }

  function NatDecimal(n: nat): (r: string)
    ensures |r| >= 1 && forall i :: 0 <= i < |r| ==> '0' <= r[i] <= '9'
    decreases n
  {
    if n < 10 then [DigitChar(n)] else NatDecimal(n / 10) + [DigitChar(n % 10)]
  }

  /** str(i) for a Python int. */
  function Decimal(i: int): (r: string)
  {
    if i < 0 then "-" + NatDecimal(-i) else NatDecimal(i)
  }

  predicate IsDigit(c: char) { '0' <= c <= '9' }

  function DigitsValue(s: string): (n: nat)
    requires forall i :: 0 <= i < |s| ==> IsDigit(s[i])
    decreases |s|
  {
    if s == [] then 0
    else
      assert IsDigit(s[|s| - 1]);
      DigitsValue(s[..|s| - 1]) * 10 + (s[|s| - 1] as int - '0' as int)
  }

  /** int(s) for a string: an optional sign and at least one ASCII digit;
      None where Python raises ValueError. */
  function ParseInt(s: string): (r: Option<int>)
  {
    if s != [] && (s[0] == '-' || s[0] == '+') then
      var body := s[1..];
      if body != [] && forall i :: 0 <= i < |body| ==> IsDigit(body[i]) then
        var v: int := DigitsValue(body);
        Some(if s[0] == '-' then -v else v)
      else None
    else if s != [] && forall i :: 0 <= i < |s| ==> IsDigit(s[i]) then Some(DigitsValue(s))
    else None
  }

  lemma {:induction false} NatDecimalValue(n: nat)
    ensures DigitsValue(NatDecimal(n)) == n
    decreases n
  {
    if n >= 10 {
      var s := NatDecimal(n);
      assert s[..|s| - 1] == NatDecimal(n / 10);
      NatDecimalValue(n / 10);
    }
  }

  lemma NatDecimalParses(n: nat)
    ensures ParseInt(NatDecimal(n)) == Some(n)
  {
    var d := NatDecimal(n);
    assert d[0] != '-' && d[0] != '+';
    NatDecimalValue(n);
  }

  lemma NegativeDecimal(i: int)
    requires i < 0
    ensures ParseInt(Decimal(i)) == Some(i)
  {
    var n: nat := -i;
    var body := NatDecimal(n);
    var d := Decimal(i);
    assert d == "-" + body;
    assert d[1..] == body;
    NatDecimalValue(n);
  }

  /** int(str(i)) == i. */
  lemma DecimalRoundTrip(i: int)
    ensures ParseInt(Decimal(i)) == Some(i)
  {
    if i < 0 {
      NegativeDecimal(i);
    } else {
      NatDecimalParses(i);
    }
  }

  // ---------------------------------------------------------------------
  // Substrings
  // ---------------------------------------------------------------------

  predicate IsPrefix(p: string, s: string) {
    |p| <= |s| && s[..|p|] == p
  }

  /** `needle` occurs in `hay` starting at position k. */
  predicate OccursAt(hay: string, needle: string, k: int) {
    0 <= k <= |hay| - |needle| && hay[k..k + |needle|] == needle
  }

  /** Python's `needle in hay` for two strings. */
  function Contains(hay: string, needle: string): (b: bool)
    ensures b <==> exists k :: OccursAt(hay, needle, k)
    decreases |hay|
  {
    if IsPrefix(needle, hay) then
      assert OccursAt(hay, needle, 0);
      true
    else if hay == [] then false
    else
      var r := Contains(hay[1..], needle);
      assert r ==> exists k :: OccursAt(hay, needle, k) by {
        if r {
          var k :| OccursAt(hay[1..], needle, k);
          assert hay[k + 1..k + 1 + |needle|] == hay[1..][k..k + |needle|];
          assert OccursAt(hay, needle, k + 1);
        }
      }
      assert (exists k :: OccursAt(hay, needle, k)) ==> r by {
        if exists k :: OccursAt(hay, needle, k) {
          var k :| OccursAt(hay, needle, k);
          assert k != 0;
          assert hay[1..][k - 1..k - 1 + |needle|] == hay[k..k + |needle|];
          assert OccursAt(hay[1..], needle, k - 1);
        }
      }
      r
  }

  /** str.replace(pat, ""): removes every occurrence of a non-empty pattern,
      scanning left to right. */
  function RemoveAll(s: string, pat: string): (r: string)
    requires pat != []
    ensures |r| <= |s|
    decreases |s|
  {
    if s == [] then []
    else if IsPrefix(pat, s) then RemoveAll(s[|pat|..], pat)
    else [s[0]] + RemoveAll(s[1..], pat)
  }

  /** s.split(sep)[0]: the text before the first separator. */
  function BeforeFirst(s: string, sep: char): (r: string)
    ensures IsPrefix(r, s) && sep !in r
    ensures |r| < |s| ==> s[|r|] == sep
  {
    if s == [] || s[0] == sep then [] else [s[0]] + BeforeFirst(s[1..], sep)
  }

  // Option, as the standard wrappers spell it.
  datatype Option<+T> = None | Some(value: T) {
    function GetOr(default: T): T {
      match this
      case Some(v) => v
      case None => default
    }
  }
}
