/** The standard-library conversions the core relies on: `encoding/hex`
    decoding, `url.QueryUnescape`, `big.Int.SetBytes` followed by `Uint64`,
    and Go's `int` conversion. The Go functions work on bytes; the hex and
    unescape functions here work on characters, which agree with them on
    ASCII input. */
module Encoding {
  import opened Errors

  /** A hexadecimal digit in either case, as both `encoding/hex` and
      `net/url` accept them. */
  predicate IsHex(c: char) {
    '0' <= c <= '9' || 'a' <= c <= 'f' || 'A' <= c <= 'F'
  }

  function HexValue(c: char): (v: nat)
    requires IsHex(c)
    ensures v < 16
  {
    if '0' <= c <= '9' then c as nat - '0' as nat
    else if 'a' <= c <= 'f' then c as nat - 'a' as nat + 10
    else c as nat - 'A' as nat + 10
  }

  const LowerHexDigits: string := "0123456789abcdef"

  predicate IsLowerHex(c: char) {
    '0' <= c <= '9' || 'a' <= c <= 'f'
  }

  /** The byte value of the hex pair at `s[i]`, `s[i+1]`. */
  function PairValue(s: string, i: nat): byte
    requires i + 1 < |s| && IsHex(s[i]) && IsHex(s[i + 1])
  {
    HexValue(s[i]) * 16 + HexValue(s[i + 1])
  }

  /** `hex.DecodeString`: pairs of digits become bytes. Characters are
      checked left to right, so the error names the first character that is
      not a digit; a string of digits of odd length fails with `ErrLength`. */
  function HexDecode(s: string): (r: Result<seq<byte>>)
    ensures r.Ok? <==> |s| % 2 == 0 && forall k :: 0 <= k < |s| ==> IsHex(s[k])
    ensures r.Ok? ==> 2 * |r.value| == |s|
    ensures r.Ok? ==> forall k :: 0 <= k < |r.value| ==> r.value[k] == PairValue(s, 2 * k)
    ensures r == Fail(OddLength) <==> |s| % 2 == 1 && forall k :: 0 <= k < |s| ==> IsHex(s[k])
    ensures r.Fail? && r.error != OddLength ==>
              r.error.InvalidByte? && exists k :: 0 <= k < |s| && FirstNonHex(s, k) && s[k] == r.error.b
    decreases |s|
  {
    if |s| == 0 then Ok([])
    else if |s| == 1 then
      if IsHex(s[0]) then Fail(OddLength) else FirstNonHexHere(s, 0); Fail(InvalidByte(s[0]))
    else if !IsHex(s[0]) then FirstNonHexHere(s, 0); Fail(InvalidByte(s[0]))
    else if !IsHex(s[1]) then FirstNonHexHere(s, 1); Fail(InvalidByte(s[1]))
    else
      assert forall k :: 2 <= k < |s| ==> s[k] == s[2..][k - 2];
      match HexDecode(s[2..])
      case Ok(rest) =>
        var r := [PairValue(s, 0)] + rest;
        forall k | 1 <= k < |r|
          ensures r[k] == PairValue(s, 2 * k)
        {
          assert r[k] == rest[k - 1] == PairValue(s[2..], 2 * (k - 1));
          assert s[2..][2 * (k - 1)] == s[2 * k] && s[2..][2 * (k - 1) + 1] == s[2 * k + 1];
        }
        Ok(r)
      case Fail(e) =>
        if e == OddLength then Fail(e)
        else
          FirstNonHexShift(s, e.b);
          Fail(e)
  }

  /** `s[k]` is the first character of `s` that is not a hex digit. */
  ghost predicate FirstNonHex(s: string, k: nat)
    requires k < |s|
  {
    !IsHex(s[k]) && forall j :: 0 <= j < k ==> IsHex(s[j])
  }

  lemma FirstNonHexHere(s: string, k: nat)
    requires k < |s| && !IsHex(s[k]) && forall j :: 0 <= j < k ==> IsHex(s[j])
    ensures FirstNonHex(s, k)
  {
  }

  lemma FirstNonHexShift(s: string, c: char)
    requires 2 <= |s| && IsHex(s[0]) && IsHex(s[1])
    requires exists k :: 0 <= k < |s[2..]| && FirstNonHex(s[2..], k) && s[2..][k] == c
    ensures exists k :: 0 <= k < |s| && FirstNonHex(s, k) && s[k] == c
  {
    var k :| 0 <= k < |s[2..]| && FirstNonHex(s[2..], k) && s[2..][k] == c;
    assert forall j :: 2 <= j < k + 2 ==> s[j] == s[2..][j - 2];
    assert FirstNonHex(s, k + 2);
  }

  /** `hex.EncodeToString`: two lower-case digits per byte. */
  function HexEncode(b: seq<byte>): (s: string)
    ensures |s| == 2 * |b|
    ensures forall k :: 0 <= k < |s| ==> IsLowerHex(s[k])
  {
    if b == [] then ""
    else [LowerHexDigits[b[0] / 16], LowerHexDigits[b[0] % 16]] + HexEncode(b[1..])
  }

  lemma HexDigitValue(n: nat)
    requires n < 16
    ensures IsHex(LowerHexDigits[n]) && HexValue(LowerHexDigits[n]) == n
  {
  }

  /** Decoding an encoding gives the bytes back. */
  lemma {:induction false} HexRoundTrip(b: seq<byte>)
    ensures HexDecode(HexEncode(b)) == Ok(b)
  {
    if b != [] {
      HexRoundTrip(b[1..]);
      var s := HexEncode(b);
      HexDigitValue(b[0] / 16);
      HexDigitValue(b[0] % 16);
      assert s[2..] == HexEncode(b[1..]);
      assert PairValue(s, 0) == b[0];
      assert [b[0]] + b[1..] == b;
    }
  }

  function Pow256(n: nat): nat
  {
    if n == 0 then 1 else 256 * Pow256(n - 1)
  }

  /** The value of a big-endian byte string (`new(big.Int).SetBytes(b)`). */
  function BigEndian(b: seq<byte>): (v: nat)
    ensures v < Pow256(|b|)
  {
    if b == [] then 0 else BigEndian(b[..|b| - 1]) * 256 + b[|b| - 1]
  }

  /** Leading zero bytes do not change the value. */
  lemma {:induction false} BigEndianLeadingZero(b: seq<byte>)
    ensures BigEndian([0] + b) == BigEndian(b)
  {
    if b != [] {
      assert ([0] + b)[..|b|] == [0] + b[..|b| - 1];
      BigEndianLeadingZero(b[..|b| - 1]);
    }
  }

  lemma Pow256Monotone(m: nat, n: nat)
    requires m <= n
    ensures Pow256(m) <= Pow256(n)
    decreases n
  {
    if m < n {
      Pow256Monotone(m, n - 1);
    }
  }

  /** `big.Int.Uint64`: the low 64 bits of the value. */
  function Uint64(v: nat): (r: uint64)
    ensures v < Max64 ==> r == v
    ensures (v - r) % Max64 == 0
  {
    v % Max64
  }

  /** Go's `int(x)` for a `uint64` on a 64-bit platform: values of 2^63 and
      above wrap to negative numbers. */
  function Int(x: uint64): (r: int)
    ensures -0x8000_0000_0000_0000 <= r < 0x8000_0000_0000_0000
    ensures r % Max64 == x
  {
    if x < 0x8000_0000_0000_0000 then x else x - Max64
  }

  /** An exponent of at most seven bytes survives both conversions. */
  lemma ShortExponentExact(b: seq<byte>)
    requires |b| <= 7
    ensures Int(Uint64(BigEndian(b))) == BigEndian(b)
  {
    Pow256Monotone(|b|, 7);
    assert Pow256(7) == 0x100_0000_0000_0000;
  }

  /** Every `%` in `s` starts an escape: two hex digits follow it. */
  predicate WellEscaped(s: string) {
    forall k :: 0 <= k < |s| && s[k] == '%' ==> k + 2 < |s| && IsHex(s[k + 1]) && IsHex(s[k + 2])
  }

  /** Dropping a prefix whose every `%` starts an escape inside the prefix
      does not change whether the string is well escaped. */
  lemma WellEscapedAfter(s: string, n: nat)
    requires 0 < n <= |s|
    requires forall k :: 0 <= k < n && s[k] == '%' ==> k + 2 < n && IsHex(s[k + 1]) && IsHex(s[k + 2])
    ensures WellEscaped(s) <==> WellEscaped(s[n..])
  {
    assert forall k :: n <= k < |s| ==> s[k] == s[n..][k - n];
  }

  /** `url.QueryUnescape`: `%XX` becomes the byte XX and `+` a space; the first
      `%` not followed by two hex digits fails with an escape error quoting
      at most three characters from that `%` on. */
  function QueryUnescape(s: string): (r: Result<string>)
    ensures r.Ok? <==> WellEscaped(s)
    ensures r.Ok? ==> |r.value| <= |s|
    ensures r.Fail? ==> r.error.Escape? && 1 <= |r.error.s| <= 3 && r.error.s[0] == '%'
    decreases |s|
  {
    if s == [] then Ok([])
    else if s[0] == '%' then
      if |s| < 3 || !IsHex(s[1]) || !IsHex(s[2]) then
        Fail(Escape(if |s| > 3 then s[..3] else s))
      else
        WellEscapedAfter(s, 3);
        match QueryUnescape(s[3..])
        case Ok(rest) => Ok([PairValue(s, 1) as char] + rest)
        case Fail(e) => Fail(e)
    else
      WellEscapedAfter(s, 1);
      match QueryUnescape(s[1..])
      case Ok(rest) => Ok([if s[0] == '+' then ' ' else s[0]] + rest)
      case Fail(e) => Fail(e)
  }

  const UpperHexDigits: string := "0123456789ABCDEF"

  /** The characters `url.QueryEscape` leaves as they are. */
  predicate Unreserved(c: char) {
    'a' <= c <= 'z' || 'A' <= c <= 'Z' || '0' <= c <= '9' || c == '-' || c == '_' || c == '.' || c == '~'
  }

  /** `url.QueryEscape` on a string of bytes: a space becomes `+`, an
      unreserved character stays, and every other byte becomes `%` and two
      upper-case hex digits. */
  function QueryEscape(t: string): string
    requires forall k :: 0 <= k < |t| ==> t[k] as int < 256
  {
    if t == [] then ""
    else
      var c := t[0];
      (if c == ' ' then "+"
       else if Unreserved(c) then [c]
       else ['%', UpperHexDigits[c as int / 16], UpperHexDigits[c as int % 16]])
      + QueryEscape(t[1..])
  }

  lemma UpperHexDigitValue(n: nat)
    requires n < 16
    ensures IsHex(UpperHexDigits[n]) && HexValue(UpperHexDigits[n]) == n
  {
  }

  /** Unescaping undoes `url.QueryEscape`. */
  lemma {:induction false} QueryRoundTrip(t: string)
    requires forall k :: 0 <= k < |t| ==> t[k] as int < 256
    ensures QueryUnescape(QueryEscape(t)) == Ok(t)
  {
    if t != [] {
      QueryRoundTrip(t[1..]);
      var c := t[0];
      var s := QueryEscape(t);
      var rest := QueryEscape(t[1..]);
      if c == ' ' || Unreserved(c) {
        assert s[1..] == rest;
      } else {
        UpperHexDigitValue(c as int / 16);
        UpperHexDigitValue(c as int % 16);
        assert s[3..] == rest;
        assert PairValue(s, 1) == c as int;
      }
      assert [c] + t[1..] == t;
    }
  }

  /** A value with neither `%` nor `+` unescapes to itself. */
  lemma {:induction false} PlainValueUnescapes(s: string)
    requires forall k :: 0 <= k < |s| ==> s[k] != '%' && s[k] != '+'
    ensures QueryUnescape(s) == Ok(s)
  {
    if s != [] {
      PlainValueUnescapes(s[1..]);
      assert [s[0]] + s[1..] == s;
    }
  }
}
