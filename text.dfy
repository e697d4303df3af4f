/**
 * String helpers shared by the services: substring search (`String.includes`),
 * JavaScript `slice` with clamping, hexadecimal digits and `parseInt(s, 16)`,
 * and `Array.join`.
 */
module Text {
  import opened Common

  /** `s.includes(sub)`: `sub` occurs somewhere in `s`. */
  function Contains(s: string, sub: string): bool
    decreases |s|
  {
    if |sub| > |s| then false
    else if s[..|sub|] == sub then true
    else Contains(s[1..], sub)
  }

  /** `sub` occurs in `s` starting at position `i`. */
  predicate OccursAt(s: string, sub: string, i: int)
  {
    0 <= i && i + |sub| <= |s| && s[i..i + |sub|] == sub
  }

  /** `Contains` agrees with "there is a position where `sub` starts". */
  lemma {:induction false} ContainsIff(s: string, sub: string)
    ensures Contains(s, sub) <==> exists i :: OccursAt(s, sub, i)
    decreases |s|
  {
    if |sub| > |s| {
    } else if s[..|sub|] == sub {
      assert OccursAt(s, sub, 0);
    } else {
      ContainsIff(s[1..], sub);
      assert Contains(s, sub) == Contains(s[1..], sub);
      if Contains(s[1..], sub) {
        var i :| OccursAt(s[1..], sub, i);
        ShiftSlice(s, i + 1, |sub|);
        assert OccursAt(s, sub, i + 1);
      } else {
        forall i | 0 < i && OccursAt(s, sub, i)
          ensures OccursAt(s[1..], sub, i - 1)
        {
          ShiftSlice(s, i, |sub|);
        }
      }
    }
  }

  /** A slice of `s[1..]` is the slice of `s` one position further on. */
  lemma ShiftSlice(s: string, i: int, n: nat)
    requires 1 <= i && i + n <= |s|
    ensures s[1..][i - 1..i - 1 + n] == s[i..i + n]
  {
  }

  /** A string that starts with `sub` contains it. */
  lemma PrefixContained(s: string, sub: string)
    requires |sub| <= |s| && s[..|sub|] == sub
    ensures Contains(s, sub)
  {
  }

  /** JavaScript `s.slice(start, end)` for non-negative bounds: both clamp to the length. */
  function Slice(s: string, start: nat, end: nat): (r: string)
    ensures |r| <= |s|
  {
    var b := if start < |s| then start else |s|;
    var e := if end < |s| then end else |s|;
    if e <= b then "" else s[b..e]
  }

  /** Clamped slicing takes exactly the requested characters when they all exist. */
  lemma SliceInRange(s: string, start: nat, end: nat)
    requires start <= end <= |s|
    ensures Slice(s, start, end) == s[start..end]
    ensures |Slice(s, start, end)| == end - start
  {
  }

  /** Slicing after dropping a prefix is slicing further along. */
  lemma DropSlice(s: string, a: nat, i: nat, j: nat)
    requires a <= |s| && i <= j <= |s| - a
    ensures s[a..][i..j] == s[a + i..a + j]
  {
  }

  /** JavaScript `s.slice(start)` for a non-negative start. */
  function SliceFrom(s: string, start: nat): (r: string)
  {
    if start < |s| then s[start..] else ""
  }

  predicate IsHexDigit(c: char)
  {
    ('0' <= c <= '9') || ('a' <= c <= 'f') || ('A' <= c <= 'F')
  }

  predicate AllHex(s: string)
  {
    forall i :: 0 <= i < |s| ==> IsHexDigit(s[i])
  }

  function HexDigitValue(c: char): (d: nat)
    requires IsHexDigit(c)
    ensures d < 16
  {
    if '0' <= c <= '9' then (c as int) - ('0' as int)
    else if 'a' <= c <= 'f' then (c as int) - ('a' as int) + 10
    else (c as int) - ('A' as int) + 10
  }

  /** The value of a string of hexadecimal digits, most significant first. */
  function HexValue(s: string): nat
    requires AllHex(s)
  {
    if s == [] then 0 else HexValue(s[..|s| - 1]) * 16 + HexDigitValue(s[|s| - 1])
  }

  /** Number of leading hexadecimal digits of `s`. */
  function HexRun(s: string): (n: nat)
    ensures n <= |s|
    ensures AllHex(s[..n])
    ensures n < |s| ==> !IsHexDigit(s[n])
  {
    if s == [] || !IsHexDigit(s[0]) then 0
    else
      var n := 1 + HexRun(s[1..]);
      assert s[..n] == [s[0]] + s[1..][..n - 1];
      n
  }

  /**
   * The digit core of `parseInt(s, 16)` (see `ParseInt16`): the value of the
   * longest hexadecimal prefix, or `None` (NaN) when `s` does not start with
   * a hexadecimal digit.
   */
  function ParseHex(s: string): (r: Option<nat>)
    ensures r.None? <==> (s == [] || !IsHexDigit(s[0]))
  {
    var n := HexRun(s);
    if n == 0 then None else Some(HexValue(s[..n]))
  }

  /** A string of hexadecimal digits parses to its full value. */
  lemma ParseHexAllDigits(s: string)
    requires s != [] && AllHex(s)
    ensures ParseHex(s) == Some(HexValue(s))
  {
    HexRunAll(s);
    assert s[..|s|] == s;
  }

  lemma {:induction false} HexRunAll(s: string)
    requires AllHex(s)
    ensures HexRun(s) == |s|
  {
    if s != [] {
      HexRunAll(s[1..]);
    }
  }

  /** Slicing a string of hexadecimal digits keeps only hexadecimal digits. */
  lemma SliceAllHex(s: string, start: nat, end: nat)
    requires AllHex(s)
    ensures AllHex(Slice(s, start, end)) && AllHex(SliceFrom(s, start))
  {
    var b := if start < |s| then start else |s|;
    var e := if end < |s| then end else |s|;
    if b < e {
      assert forall i :: 0 <= i < e - b ==> Slice(s, start, end)[i] == s[b + i];
    }
    if start < |s| {
      assert forall i :: 0 <= i < |s| - start ==> SliceFrom(s, start)[i] == s[start + i];
    }
  }

  /**
   * The characters `parseInt` skips before the number: the ECMAScript
   * WhiteSpace and LineTerminator code points, the Unicode space separators
   * included.
   */
  predicate IsJsSpace(c: char)
  {
    c == '\t' || c == '\n' || c == '\U{000B}' || c == '\U{000C}' || c == '\r' || c == ' '
    || c == '\U{00A0}' || c == '\U{1680}' || ('\U{2000}' <= c <= '\U{200A}')
    || c == '\U{2028}' || c == '\U{2029}' || c == '\U{202F}' || c == '\U{205F}'
    || c == '\U{3000}' || c == '\U{FEFF}'
  }

  /** Number of leading `parseInt` whitespace characters of `s`. */
  function SpaceRun(s: string): (n: nat)
    ensures n <= |s|
    ensures forall i :: 0 <= i < n ==> IsJsSpace(s[i])
    ensures n < |s| ==> !IsJsSpace(s[n])
  {
    if s == [] || !IsJsSpace(s[0]) then 0
    else
      var n := 1 + SpaceRun(s[1..]);
      assert forall i :: 1 <= i < n ==> s[i] == s[1..][i - 1];
      n
  }

  /**
   * `parseInt(s, 16)`: skip leading whitespace, take an optional sign, then
   * an optional `0x`/`0X`, and read the longest run of hexadecimal digits;
   * `None` (NaN) when that run is empty. The contract states the value on a
   * string of digits alone; the prefix cases are the lemmas
   * `ParseInt16HexPrefix`, `ParseInt16LeadingSpace` and `ParseInt16Sign`.
   */
  function ParseInt16(s: string): (r: Option<int>)
    ensures AllHex(s) && s != [] ==> r == Some(HexValue(s))
  {
    var t := s[SpaceRun(s)..];
    var negative := |t| > 0 && t[0] == '-';
    var u := if |t| > 0 && (t[0] == '-' || t[0] == '+') then t[1..] else t;
    var v := if |u| >= 2 && u[0] == '0' && (u[1] == 'x' || u[1] == 'X') then u[2..] else u;
    if AllHex(s) && s != [] then
      assert !IsJsSpace(s[0]) && SpaceRun(s) == 0 && t == s;
      assert u == s && v == s by { assert IsHexDigit(s[0]); if |s| >= 2 { assert IsHexDigit(s[1]); } }
      ParseHexAllDigits(s);
      Some(HexValue(s))
    else
      match ParseHex(v)
      case None => None
      case Some(n) => Some(if negative then -(n as int) else n as int)
  }

  /** `1f` is 31. */
  lemma HexOneF()
    ensures AllHex("1f") && ParseHex("1f") == Some(31)
  {
    assert IsHexDigit("1f"[0]) && IsHexDigit("1f"[1]);
    ParseHexAllDigits("1f");
    assert "1f"[..1] == "1";
    assert "1"[..0] == "";
  }

  /** `parseInt` strips a `0x` that `ParseHex` reads as the digit 0 followed by junk. */
  lemma ParseInt16HexPrefix()
    ensures ParseInt16("0x1f") == Some(31)
  {
    assert !IsHexDigit("0x1f"[1]);
    assert !IsJsSpace("0x1f"[0]);
    assert "0x1f"[2..] == "1f";
    HexOneF();
  }

  /** `parseInt` skips leading blanks, which `ParseHex` rejects. */
  lemma ParseInt16LeadingSpace()
    ensures ParseInt16(" 1f") == Some(31) && ParseHex(" 1f") == None
  {
    assert !IsHexDigit(" 1f"[0]);
    assert " 1f"[1..] == "1f";
    assert !IsJsSpace("1f"[0]);
    assert SpaceRun(" 1f") == 1;
    HexOneF();
  }

  /** `parseInt` reads a leading minus sign, which `ParseHex` rejects. */
  lemma ParseInt16Sign()
    ensures ParseInt16("-1f") == Some(-31) && ParseHex("-1f") == None
  {
    assert !IsHexDigit("-1f"[0]);
    assert !IsJsSpace("-1f"[0]);
    assert "-1f"[1..] == "1f";
    HexOneF();
  }

  /** The decimal digit character for `d`. */
  function DigitChar(d: nat): char
    requires d < 10
  {
    ('0' as int + d) as char
  }

  /** The decimal form of `n`, without leading zeros: how web3 1.x reports a number. */
  function Decimal(n: nat): (s: string)
    ensures |s| >= 1
  {
    if n < 10 then [DigitChar(n)] else Decimal(n / 10) + [DigitChar(n % 10)]
  }

  /** Multiplying by ten appends a `0` to the decimal form. */
  lemma DecimalShift(n: nat)
    requires n >= 1
    ensures Decimal(n * 10) == Decimal(n) + "0"
  {
    assert (n * 10) / 10 == n && (n * 10) % 10 == 0;
  }

  /** JavaScript `a > b` on two strings: code-unit lexicographic order. */
  predicate StringGreater(a: string, b: string)
  {
    if a == [] then false
    else if b == [] then true
    else if a[0] != b[0] then a[0] > b[0]
    else StringGreater(a[1..], b[1..])
  }

  /** `parts.join(sep)`. */
  function Join(parts: seq<string>, sep: string): string
  {
    if parts == [] then ""
    else if |parts| == 1 then parts[0]
    else parts[0] + sep + Join(parts[1..], sep)
  }
}
