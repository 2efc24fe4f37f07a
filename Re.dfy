// Extraction of regular-expression sub-matches (source/libmodem/utils/re.c).
// A sub-match is a pair of offsets [so, eo) into the matched text; the three
// helpers copy, duplicate or convert exactly that slice.

module RegMatch {
  import opened Common
  import opened CStr

  /** A regmatch_t: start and end offsets of one capture group. */
  datatype Capture = Capture(so: int, eo: int)
  {
    /** The offsets lie inside a text of the given length, start before end. */
    predicate Within(textLen: nat) { 0 <= so <= eo <= textLen }

    /** rm_eo - rm_so: the capture length (an unsigned difference in C). */
    function Len(): (n: nat)
      requires so <= eo
    {
      eo - so
    }
  }

  /** The captured bytes. */
  function Slice(text: seq<byte>, c: Capture): (r: seq<byte>)
    requires c.Within(|text|)
    ensures |r| == c.Len()
  {
    text[c.so..c.eo]
  }

  // -------------------------------------------------------------------
  // regmatch_atoi

  /**
   * regmatch_atoi: copy the capture into a fresh terminated buffer and
   * convert it with atoi. `allocOk` is the outcome of malloc; on failure
   * the result is 0.
   */
  method RegMatchAtoi(src: array<byte>, c: Capture, allocOk: bool) returns (res: int)
    requires c.Within(src.Length)
    ensures res == if allocOk then Atoi(Slice(src[..], c)) else 0
  {
    res := 0;
    var len := c.eo - c.so;
    if !allocOk {
      return;
    }
    var buf := new byte[len + 1];
    forall i | 0 <= i < len {
      buf[i] := src[c.so + i];
    }
    buf[len] := NUL;
    assert buf[..] == Slice(src[..], c) + [NUL];
    AtoiTerminated(Slice(src[..], c));
    res := Atoi(buf[..]);
  }

  // -------------------------------------------------------------------
  // regmatch_strdup

  /**
   * regmatch_strdup: a fresh buffer of capture length + 1 holding the
   * capture followed by a NUL, or null when malloc fails.
   */
  method RegMatchStrdup(src: array<byte>, c: Capture, allocOk: bool) returns (res: array?<byte>)
    requires c.Within(src.Length)
    ensures allocOk <==> res != null
    ensures res != null ==> fresh(res) && res[..] == Slice(src[..], c) + [NUL]
  {
    var len := c.eo - c.so;
    if !allocOk {
      return null;
    }
    res := new byte[len + 1];
    forall i | 0 <= i < len {
      res[i] := src[c.so + i];
    }
    res[len] := NUL;
  }

  /** The string a duplicated capture holds is the capture itself when the text has no NUL. */
  lemma StrdupHoldsCapture(text: seq<byte>, c: Capture)
    requires c.Within(|text|) && NulFree(text)
    ensures CString(Slice(text, c) + [NUL]) == Slice(text, c)
  {
    CStringOfTerminated(Slice(text, c));
  }

  // -------------------------------------------------------------------
  // regmatch_ncpy

  /**
   * The copy length regmatch_ncpy computes, AS WRITTEN:
   * `len = (len > n ? n - 1 : len)` on size_t, so `n - 1` wraps at n = 0.
   * The terminator is then stored at dst[len].
   */
  function NcpyLenAsWritten(capLen: nat, n: nat): (len: nat)
    ensures n > 0 ==> len <= Min(capLen, n)
  {
    if capLen > n then (n - 1) % 0x1_0000_0000_0000_0000 else capLen
  }

  /** A capture exactly as long as the buffer: the terminator lands at dst[n], one past an n-byte buffer. */
  lemma NcpyAsWrittenOverflows(n: nat)
    ensures NcpyLenAsWritten(n, n) == n
  {
  }

  /** A zero-size buffer: `n - 1` wraps to the largest size_t. */
  lemma NcpyAsWrittenWraps(capLen: nat)
    requires capLen > 0
    ensures NcpyLenAsWritten(capLen, 0) == 0xffff_ffff_ffff_ffff
  {
  }

  /** Every other case stays inside the buffer. */
  lemma NcpyAsWrittenOtherwiseInBounds(capLen: nat, n: nat)
    requires n > 0 && capLen != n
    ensures NcpyLenAsWritten(capLen, n) < n
  {
  }

  /**
   * What regmatch_ncpy leaves in an n-byte buffer, corrected so that the
   * terminator always fits: at most n - 1 bytes of the capture.
   */
  function NcpySlice(text: seq<byte>, c: Capture, n: nat): (r: seq<byte>)
    requires c.Within(|text|) && n >= 1
    ensures |r| <= n - 1 && r <= Slice(text, c)
    ensures c.Len() < n ==> r == Slice(text, c)
    ensures c.Len() >= n ==> |r| == n - 1
  {
    text[c.so..c.so + Min(c.Len(), n - 1)]
  }

  /**
   * regmatch_ncpy with the bound corrected to `len >= n ? n - 1 : len`
   * (n is the size of dst): the capture, cut to n - 1 bytes, then a NUL;
   * returns the offset of the terminator (the C function returns dst + len).
   */
  method RegMatchNcpy(dst: array<byte>, src: array<byte>, c: Capture) returns (end: nat)
    requires dst.Length >= 1 && c.Within(src.Length) && dst != src
    modifies dst
    ensures end < dst.Length && end == Min(c.Len(), dst.Length - 1)
    ensures dst[..end] == NcpySlice(src[..], c, dst.Length) && dst[end] == NUL
    ensures dst[end + 1..] == old(dst[end + 1..])
  {
    var len := c.eo - c.so;
    len := if len >= dst.Length then dst.Length - 1 else len;
    forall i | 0 <= i < len {
      dst[i] := src[c.so + i];
    }
    dst[len] := NUL;
    end := len;
  }
}
