// The C library string and number conventions the daemon relies on:
// NUL-terminated strings, strncpy into a fixed field, atoi, and the
// "%X" / "%02X" hexadecimal conversions of printf and sscanf.

module CStr {
  import opened Common

  const NUL: byte := 0

  // ---------------------------------------------------------------------
  // NUL-terminated strings

  /** strlen: the index of the first NUL, or the whole buffer when there is none. */
  function CLen(s: seq<byte>): (n: nat)
    ensures n <= |s|
    ensures forall i | 0 <= i < n :: s[i] != NUL
    ensures n < |s| ==> s[n] == NUL
  {
    if s == [] || s[0] == NUL then 0 else 1 + CLen(s[1..])
  }

  /** The C string a buffer holds: its bytes before the first NUL. */
  function CString(s: seq<byte>): (r: seq<byte>)
    ensures NulFree(r) && r <= s
  {
    s[..CLen(s)]
  }

  predicate NulFree(s: seq<byte>) { forall i | 0 <= i < |s| :: s[i] != NUL }

  /** Text made of printable ASCII characters only. */
  predicate Printable(s: string) { forall i | 0 <= i < |s| :: ' ' <= s[i] <= '~' }

  /** Printable text becomes a C string with no NUL in it, one byte per character. */
  lemma AsciiOfPrintable(s: string)
    requires Printable(s)
    ensures NulFree(Ascii(s)) && |Ascii(s)| == |s|
  {
  }

  lemma CStringOfNulFree(s: seq<byte>)
    requires NulFree(s)
    ensures CString(s) == s
  {
  }

  /** A terminating NUL appended to a string does not change the string it holds. */
  lemma CStringOfTerminated(s: seq<byte>)
    requires NulFree(s)
    ensures CString(s + [NUL]) == s
  {
    var t := s + [NUL];
    assert forall i | 0 <= i < |s| :: t[i] == s[i];
    assert t[|s|] == NUL;
    assert t[..|s|] == s;
  }

  /** The first n bytes of s, or all of s when it is shorter (a bounded memcpy length). */
  function Prefix(s: seq<byte>, n: nat): (r: seq<byte>)
    ensures |r| == Min(|s|, n) && r <= s
  {
    if |s| <= n then s else s[..n]
  }

  /**
   * The idiom `strncpy(dst, src, n - 1); dst[n - 1] = 0;` on an n-byte field:
   * the string is cut to n - 1 bytes and the rest of the field is zero.
   */
  function FieldCopy(src: seq<byte>, n: nat): (f: seq<byte>)
    requires n >= 1
    ensures |f| == n && f[n - 1] == NUL
    ensures CString(f) == Prefix(CString(src), n - 1)
  {
    var k := Min(CLen(src), n - 1);
    var f := seq(n, i requires 0 <= i < n => if i < k then src[i] else NUL);
    assert f[..k] == Prefix(CString(src), n - 1);
    assert forall i | 0 <= i < k :: f[i] == src[i];
    assert k < n ==> f[k] == NUL;
    assert CLen(f) == k;
    f
  }

  // ---------------------------------------------------------------------
  // Characters

  predicate IsSpace(b: byte) { b == 0x20 || 0x09 <= b <= 0x0d }
  predicate IsDigit(b: byte) { 0x30 <= b <= 0x39 }
  predicate IsHexDigit(b: byte) { IsDigit(b) || 0x41 <= b <= 0x46 || 0x61 <= b <= 0x66 }

  predicate AllDigits(s: seq<byte>) { forall i | 0 <= i < |s| :: IsDigit(s[i]) }
  predicate AllHexDigits(s: seq<byte>) { forall i | 0 <= i < |s| :: IsHexDigit(s[i]) }

  /**
   * Whitespace removed from both ends. The `trim` helper of the utility
   * library is not part of this model; this is the behaviour its name and
   * its use on band names call for.
   */
  function Trim(s: seq<byte>): (r: seq<byte>)
    ensures |r| <= |s|
    ensures r != [] ==> !IsSpace(r[0]) && !IsSpace(r[|r| - 1])
    ensures exists a, b :: StrippedAt(s, r, a, b)
    decreases |s|
  {
    if s == [] then
      assert StrippedAt(s, [], 0, 0); []
    else if IsSpace(s[0]) then
      var r := Trim(s[1..]);
      StrippedShift(s, r); r
    else if IsSpace(s[|s| - 1]) then
      var r := Trim(s[..|s| - 1]);
      StrippedDrop(s, s[..|s| - 1], r); r
    else
      assert StrippedAt(s, s, 0, |s|); s
  }

  /** r is s[a..b], and everything of s before a and from b on is white space. */
  ghost predicate StrippedAt(s: seq<byte>, r: seq<byte>, a: int, b: int)
  {
    && 0 <= a <= b <= |s| && r == s[a..b]
    && (forall i | 0 <= i < a :: IsSpace(s[i]))
    && (forall i | b <= i < |s| :: IsSpace(s[i]))
  }

  lemma StrippedShift(s: seq<byte>, r: seq<byte>)
    requires s != [] && IsSpace(s[0]) && exists a, b :: StrippedAt(s[1..], r, a, b)
    ensures exists a, b :: StrippedAt(s, r, a, b)
  {
    var a, b :| StrippedAt(s[1..], r, a, b);
    assert s[a + 1..b + 1] == s[1..][a..b];
    assert StrippedAt(s, r, a + 1, b + 1);
  }

  lemma StrippedDrop(s: seq<byte>, init: seq<byte>, r: seq<byte>)
    requires s != [] && IsSpace(s[|s| - 1]) && init == s[..|s| - 1]
    requires exists a, b :: StrippedAt(init, r, a, b)
    ensures exists a, b :: StrippedAt(s, r, a, b)
  {
    var a, b :| StrippedAt(init, r, a, b);
    assert s[a..b] == init[a..b];
    assert StrippedAt(s, r, a, b);
  }

  /** Trimming a string without NUL leaves one without NUL. */
  lemma TrimNulFree(s: seq<byte>)
    requires NulFree(s)
    ensures NulFree(Trim(s))
  {
    var a, b :| StrippedAt(s, Trim(s), a, b);
    assert forall i | 0 <= i < b - a :: Trim(s)[i] == s[a + i];
  }

  // ---------------------------------------------------------------------
  // Decimal: atoi

  /** Number of leading decimal digits. */
  function DigitRun(s: seq<byte>): (n: nat)
    ensures n <= |s| && AllDigits(s[..n])
    ensures n < |s| ==> !IsDigit(s[n])
  {
    if s == [] || !IsDigit(s[0]) then 0 else 1 + DigitRun(s[1..])
  }

  /** Value of a run of decimal digits, most significant first. */
  function DecimalValue(ds: seq<byte>): nat
    requires AllDigits(ds)
  {
    if ds == [] then 0 else 10 * DecimalValue(ds[..|ds| - 1]) + (ds[|ds| - 1] - 0x30)
  }

  function SkipSpace(s: seq<byte>): (t: seq<byte>)
    ensures |t| <= |s| && t == s[|s| - |t|..]
    ensures t != [] ==> !IsSpace(t[0])
  {
    if s != [] && IsSpace(s[0]) then SkipSpace(s[1..]) else s
  }

  /**
   * atoi: leading whitespace, an optional sign, then the longest run of
   * decimal digits. Unbounded: the model does not reproduce what a C
   * int does with a value that does not fit.
   */
  function Atoi(s: seq<byte>): int
  {
    var t := SkipSpace(s);
    if t != [] && (t[0] == 0x2d || t[0] == 0x2b) then
      var v := DecimalValue(t[1..][..DigitRun(t[1..])]);
      if t[0] == 0x2d then 0 - v else v
    else
      DecimalValue(t[..DigitRun(t)])
  }

  /** atoi of a string made of digits only is the value of those digits. */
  lemma AtoiOfDigits(ds: seq<byte>)
    requires AllDigits(ds)
    ensures Atoi(ds) == DecimalValue(ds) >= 0
  {
    DigitRunOfDigits(ds);
    if ds != [] {
      assert IsDigit(ds[0]);
      assert SkipSpace(ds) == ds;
    }
    assert ds[..|ds|] == ds;
  }

  lemma {:induction false} DigitRunOfDigits(ds: seq<byte>)
    requires AllDigits(ds)
    ensures DigitRun(ds) == |ds|
  {
    if ds != [] {
      DigitRunOfDigits(ds[1..]);
    }
  }

  lemma {:induction false} DigitRunTerminated(s: seq<byte>)
    ensures DigitRun(s + [NUL]) == DigitRun(s)
    ensures (s + [NUL])[..DigitRun(s)] == s[..DigitRun(s)]
  {
    if s != [] && IsDigit(s[0]) {
      assert (s + [NUL])[1..] == s[1..] + [NUL];
      DigitRunTerminated(s[1..]);
    }
  }

  lemma {:induction false} SkipSpaceTerminated(s: seq<byte>)
    ensures SkipSpace(s + [NUL]) == SkipSpace(s) + [NUL]
  {
    if s != [] && IsSpace(s[0]) {
      assert (s + [NUL])[1..] == s[1..] + [NUL];
      SkipSpaceTerminated(s[1..]);
    }
  }

  /** atoi stops at the terminating NUL: converting a copied, terminated buffer gives the value of the copy. */
  lemma AtoiTerminated(s: seq<byte>)
    ensures Atoi(s + [NUL]) == Atoi(s)
  {
    var t := SkipSpace(s);
    SkipSpaceTerminated(s);
    assert SkipSpace(s + [NUL]) == t + [NUL];
    if t != [] && (t[0] == 0x2d || t[0] == 0x2b) {
      assert (t + [NUL])[1..] == t[1..] + [NUL];
      DigitRunTerminated(t[1..]);
    } else {
      DigitRunTerminated(t);
    }
  }

  // ---------------------------------------------------------------------
  // Hexadecimal: "%X" and "%02X"

  function HexDigitValue(b: byte): (v: nat)
    requires IsHexDigit(b)
    ensures v < 16
  {
    if IsDigit(b) then b - 0x30 else if b <= 0x46 then b - 0x41 + 10 else b - 0x61 + 10
  }

  /** Value of a run of hexadecimal digits, most significant first. */
  function HexValue(hs: seq<byte>): nat
    requires AllHexDigits(hs)
  {
    if hs == [] then 0 else 16 * HexValue(hs[..|hs| - 1]) + HexDigitValue(hs[|hs| - 1])
  }

  /** At most k hexadecimal digits hold a value below 16^k. */
  lemma {:induction false} HexValueBound(hs: seq<byte>, k: nat)
    requires AllHexDigits(hs) && |hs| <= k
    ensures HexValue(hs) < Pow16(k)
  {
    if hs != [] {
      HexValueBound(hs[..|hs| - 1], k - 1);
    }
  }

  function UpperHexDigit(d: nat): (b: byte)
    requires d < 16
    ensures IsHexDigit(b) && HexDigitValue(b) == d
  {
    if d < 10 then 0x30 + d else 0x41 + d - 10
  }

  /** printf "%X": upper-case hexadecimal digits without leading zeros ("0" for zero). */
  function FormatHex(n: nat): (r: seq<byte>)
    ensures 1 <= |r| && AllHexDigits(r)
    ensures forall i | 0 <= i < |r| :: !(0x61 <= r[i] <= 0x66)
    ensures |r| > 1 ==> r[0] != 0x30
    decreases n
  {
    if n < 16 then [UpperHexDigit(n)] else FormatHex(n / 16) + [UpperHexDigit(n % 16)]
  }

  /** Reading "%X" back with sscanf gives the number that was printed. */
  lemma {:induction false} HexRoundTrip(n: nat)
    ensures HexValue(FormatHex(n)) == n
    decreases n
  {
    var r := FormatHex(n);
    if n >= 16 {
      HexRoundTrip(n / 16);
      assert r[..|r| - 1] == FormatHex(n / 16);
    }
  }

  function Pow16(k: nat): (r: nat)
    ensures r >= 1
  {
    if k == 0 then 1 else 16 * Pow16(k - 1)
  }

  /** A value below 16^k prints in at most k hexadecimal digits. */
  lemma {:induction false} FormatHexBound(n: nat, k: nat)
    requires 1 <= k && n < Pow16(k)
    ensures |FormatHex(n)| <= k
    decreases n
  {
    if n >= 16 {
      assert k >= 2;
      FormatHexBound(n / 16, k - 1);
    }
  }
}
