// Huawei E1550 specific AT functions (source/libmodem/modems/e1550/at_func.c):
// network type from AT^SYSINFO, the frequency band list from AT^SYSCFG=?,
// and reading and setting the band with AT^SYSCFG. These are Huawei
// proprietary commands with no public standard behind them.

module E1550AtFunc {
  import opened Common
  import opened CStr
  import opened RegMatch
  import opened AtExec

  // -------------------------------------------------------------------
  // e1550_at_get_network_type

  const SysinfoCmd: seq<byte> := Ascii("AT^SYSINFO\r\n")

  /** sys_submode_str: the name of each <sys_submode> value 0..18 of the ^SYSINFO reply. */
  function SysSubmodeStr(i: nat): (name: seq<byte>)
    requires i <= 18
    ensures NulFree(name) && 1 <= |name| <= 13
  {
    var s := if i == 0 then "No service" else if i == 1 then "GSM" else if i == 2 then "GPRS"
      else if i == 3 then "EDGE" else if i == 4 then "WCDMA" else if i == 5 then "HSDPA"
      else if i == 6 then "HSUPA" else if i == 7 then "HSDPA+HSUPA" else if i == 8 then "TD_SCDMA"
      else if i <= 16 then "HSPA+" else if i == 17 then "HSPA+ (64QAM)" else "HSPA+ (MIMO)";
    AsciiOfPrintable(s);
    Ascii(s)
  }

  /** A <sys_submode> outside 0..18 counts as 4 (WCDMA); the table index is always in range. */
  function SubmodeIndex(submode: int): (i: nat)
    ensures i <= 18
    ensures 0 <= submode <= 18 ==> i == submode
  {
    if submode < 0 || submode > 18 then 4 else submode
  }

  function SubmodeName(submode: int): (name: seq<byte>)
    ensures NulFree(name) && 1 <= |name| <= 13
  {
    SysSubmodeStr(SubmodeIndex(submode))
  }

  lemma SubmodeNames(submode: int)
    ensures 9 <= submode <= 16 ==> SubmodeName(submode) == Ascii("HSPA+")
    ensures submode == 17 ==> SubmodeName(submode) == Ascii("HSPA+ (64QAM)")
    ensures submode == 18 ==> SubmodeName(submode) == Ascii("HSPA+ (MIMO)")
    ensures (submode < 0 || submode > 18) ==> SubmodeName(submode) == Ascii("WCDMA")
  {
  }

  /** The <sys_submode> read from a ^SYSINFO reply (group 1), or 0 when there is no answer. */
  function SysSubmode(reply: AtReply): (m: int)
    requires ValidReply(reply)
    ensures reply.NoAnswer? ==> m == 0
    ensures reply.Answer? && AllDigits(Group(reply, 1)) ==> m == DecimalValue(Group(reply, 1)) >= 0
  {
    if reply.NoAnswer? then 0
    else
      var field := Group(reply, 1);
      if AllDigits(field) then (AtoiOfDigits(field); Atoi(field)) else Atoi(field)
  }

  /** The network name the reply yields, or None where the C function returns NULL. */
  function NetworkTypeOf(reply: AtReply): (r: Option<seq<byte>>)
    requires ValidReply(reply)
    ensures r.Some? <==> SysSubmode(reply) != 0
    ensures reply.NoAnswer? ==> r.None?
    ensures r.Some? ==> r.value == SysSubmodeStr(SubmodeIndex(SysSubmode(reply)))
  {
    var submode := SysSubmode(reply);
    if submode == 0 then None else Some(SubmodeName(submode))
  }

  /**
   * e1550_at_get_network_type: without an AT channel nothing is sent and
   * the result is NULL; otherwise AT^SYSINFO is sent and, when it yields a
   * name, the name is copied into `network` with strncpy and terminated.
   */
  method GetNetworkType(atBound: bool, reply: AtReply, network: array<byte>) returns (sent: seq<seq<byte>>, ok: bool)
    requires network.Length >= 1 && ValidReply(reply)
    modifies network
    ensures sent == if atBound then [SysinfoCmd] else []
    ensures ok <==> atBound && NetworkTypeOf(reply).Some?
    ensures ok ==> network[..] == FieldCopy(NetworkTypeOf(reply).value, network.Length)
    ensures !ok ==> network[..] == old(network[..])
  {
    sent, ok := [], false;
    if !atBound {
      return;
    }
    sent := [SysinfoCmd];
    var name := NetworkTypeOf(reply);
    if name.None? {
      return;
    }
    var field := FieldCopy(name.value, network.Length);
    forall i | 0 <= i < network.Length {
      network[i] := field[i];
    }
    ok := true;
  }

  /** The string left in the buffer is the name, cut to the buffer size - 1. */
  lemma NetworkNameInBuffer(reply: AtReply, len: nat)
    requires ValidReply(reply) && len >= 1 && NetworkTypeOf(reply).Some?
    ensures CString(FieldCopy(NetworkTypeOf(reply).value, len)) == Prefix(NetworkTypeOf(reply).value, len - 1)
  {
    CStringOfNulFree(NetworkTypeOf(reply).value);
  }

  // -------------------------------------------------------------------
  // e1550_at_get_freq_bands

  const SyscfgListCmd: seq<byte> := Ascii("AT^SYSCFG=?\r\n")

  /** freq_band_t: a band index and a fixed-size name field. */
  datatype FreqBand = FreqBand(index: nat, name: seq<byte>)

  /**
   * One search of the pattern (HEX,"NAME"),? in a string: the whole match
   * and its two groups, or no match. The POSIX matcher is not part of this
   * model; it is given as a function.
   */
  datatype BandMatch = NoMatch | Match(whole: Capture, hex: Capture, name: Capture)

  /**
   * What the pattern guarantees of a match: it ends past offset 0, group 1
   * is a non-empty run of hex digits, and group 2 is made of letters,
   * digits, '/' and spaces, so it holds no NUL.
   */
  predicate MatchFits(s: seq<byte>, m: BandMatch)
  {
    m.Match? ==>
      && 0 < m.whole.eo <= |s|
      && m.hex.Within(|s|) && m.name.Within(|s|)
      && m.hex.so < m.hex.eo
      && AllHexDigits(Slice(s, m.hex))
      && NulFree(Slice(s, m.name))
  }

  ghost predicate MatcherFits(search: seq<byte> -> BandMatch)
  {
    forall s :: MatchFits(s, search(s))
  }

  /** "%02X": at most two hex digits are read. */
  function BandIndex(hex: seq<byte>): (i: nat)
    requires AllHexDigits(hex)
    ensures i < 0x100
    ensures |hex| <= 2 ==> i == HexValue(hex)
    ensures |hex| > 2 ==> i == HexValue(hex[..2])
  {
    var d := Prefix(hex, 2);
    assert |d| == 2 ==> HexValue(d) == 16 * HexValue(d[..1]) + HexDigitValue(d[1]);
    HexValue(d)
  }

  /** The list item one match yields: its index, and the trimmed name copied into the name field. */
  function BandOf(s: seq<byte>, m: BandMatch, nameSize: nat): (b: FreqBand)
    requires m.Match? && MatchFits(s, m) && nameSize >= 1
    ensures b.index < 0x100 && |b.name| == nameSize && b.name[nameSize - 1] == NUL
    ensures |Slice(s, m.hex)| <= 2 ==> b.index == HexValue(Slice(s, m.hex))
    ensures CString(b.name) == Prefix(Trim(Slice(s, m.name)), nameSize - 1)
  {
    TrimNulFree(Slice(s, m.name));
    CStringOfNulFree(Trim(Slice(s, m.name)));
    FreqBand(BandIndex(Slice(s, m.hex)), FieldCopy(Trim(Slice(s, m.name)), nameSize))
  }

  /**
   * The bands of a list: one item per successive match, each search
   * resuming where the last match ended. Every match consumes at least one
   * byte, so there are never more items than bytes.
   */
  function ParseBands(s: seq<byte>, search: seq<byte> -> BandMatch, nameSize: nat): (bands: seq<FreqBand>)
    requires MatcherFits(search) && nameSize >= 1
    ensures |bands| <= |s|
    decreases |s|
  {
    var m := search(s);
    assert MatchFits(s, m);
    if m.NoMatch? then [] else [BandOf(s, m, nameSize)] + ParseBands(s[m.whole.eo..], search, nameSize)
  }

  /**
   * e1550_at_get_freq_bands: AT^SYSCFG=? is sent when an AT channel is
   * bound; group 1 of the reply is the band list, which is searched match
   * after match, one item appended per match; the count is returned.
   */
  method GetFreqBands(atBound: bool, reply: AtReply, search: seq<byte> -> BandMatch, nameSize: nat)
    returns (sent: seq<seq<byte>>, bands: seq<FreqBand>, nbands: nat)
    requires ValidReply(reply) && MatcherFits(search) && nameSize >= 1
    ensures sent == if atBound then [SyscfgListCmd] else []
    ensures nbands == |bands|
    ensures bands == if atBound && reply.Answer? then ParseBands(Group(reply, 1), search, nameSize) else []
  {
    sent, bands, nbands := [], [], 0;
    if !atBound {
      return;
    }
    sent := [SyscfgListCmd];
    if reply.NoAnswer? {
      return;
    }
    bands, nbands := ScanBands(Group(reply, 1), search, nameSize);
  }

  /**
   * The re_parse loop of e1550_at_get_freq_bands: search the band list,
   * append the item of each match and resume at the match's end, until no
   * match is left.
   */
  method ScanBands(list: seq<byte>, search: seq<byte> -> BandMatch, nameSize: nat)
    returns (bands: seq<FreqBand>, nbands: nat)
    requires MatcherFits(search) && nameSize >= 1
    ensures bands == ParseBands(list, search, nameSize) && nbands == |bands|
  {
    bands, nbands := [], 0;
    var rest := list;
    ghost var whole := ParseBands(list, search, nameSize);
    assert bands + whole == whole;
    while true
      invariant nbands == |bands|
      invariant bands + ParseBands(rest, search, nameSize) == whole
      decreases |rest|
    {
      var m := search(rest);
      if m.NoMatch? {
        assert bands == whole by {
          ParseBandsEnd(rest, search, nameSize);
        }
        break;
      }
      assert MatchFits(rest, m) by {
        ParseBandsStep(rest, search, nameSize);
      }
      var item := BandOf(rest, m, nameSize);
      var next := rest[m.whole.eo..];
      assert (bands + [item]) + ParseBands(next, search, nameSize) == whole by {
        ParseBandsAdvance(bands, item, rest, next, search, nameSize, whole);
      }
      bands := bands + [item];
      rest := next;
      nbands := nbands + 1;
    }
  }

  /** The search that finds nothing ends the list. */
  lemma ParseBandsEnd(s: seq<byte>, search: seq<byte> -> BandMatch, nameSize: nat)
    requires MatcherFits(search) && nameSize >= 1 && search(s).NoMatch?
    ensures ParseBands(s, search, nameSize) == []
  {
  }

  /** A match contributes its item before the bands of the rest of the string. */
  lemma ParseBandsStep(s: seq<byte>, search: seq<byte> -> BandMatch, nameSize: nat)
    requires MatcherFits(search) && nameSize >= 1 && search(s).Match?
    ensures MatchFits(s, search(s))
    ensures ParseBands(s, search, nameSize) ==
      [BandOf(s, search(s), nameSize)] + ParseBands(s[search(s).whole.eo..], search, nameSize)
  {
  }

  /** The loop's step: appending the item of a match keeps the list built so far a prefix of the whole list. */
  lemma ParseBandsAdvance(bands: seq<FreqBand>, item: FreqBand, s: seq<byte>, next: seq<byte>,
                           search: seq<byte> -> BandMatch, nameSize: nat, list: seq<FreqBand>)
    requires MatcherFits(search) && nameSize >= 1 && search(s).Match?
    requires MatchFits(s, search(s)) && item == BandOf(s, search(s), nameSize) && next == s[search(s).whole.eo..]
    requires bands + ParseBands(s, search, nameSize) == list
    ensures (bands + [item]) + ParseBands(next, search, nameSize) == list
  {
    ParseBandsStep(s, search, nameSize);
    var tail := ParseBands(next, search, nameSize);
    assert (bands + [item]) + tail == bands + ([item] + tail);
  }

  /** Every item carries a two-digit index and a terminated name field of the given size. */
  lemma {:induction false} ParsedBandsWellFormed(s: seq<byte>, search: seq<byte> -> BandMatch, nameSize: nat)
    requires MatcherFits(search) && nameSize >= 1
    ensures forall b | b in ParseBands(s, search, nameSize) ::
      b.index < 0x100 && |b.name| == nameSize && b.name[nameSize - 1] == NUL
    decreases |s|
  {
    var m := search(s);
    assert MatchFits(s, m);
    if m.Match? {
      ParsedBandsWellFormed(s[m.whole.eo..], search, nameSize);
    }
  }

  // -------------------------------------------------------------------
  // e1550_at_get_freq_band / e1550_at_set_freq_band

  const SyscfgQueryCmd: seq<byte> := Ascii("AT^SYSCFG?\r\n")

  /** The band field of a ^SYSCFG reply is one or more hexadecimal digits (group 1, `([0-9A-F]+)`, of its pattern). */
  predicate BandReply(reply: AtReply)
  {
    && ValidReply(reply)
    && (reply.Answer? ==> reply.subs[1].so < reply.subs[1].eo && AllHexDigits(Group(reply, 1)))
  }

  /**
   * sscanf "%X" into an int: the hex value as an unsigned 32-bit number,
   * reinterpreted as signed. A field of up to eight digits is read exactly.
   */
  function BandValue(field: seq<byte>): (r: int32)
    requires AllHexDigits(field)
    ensures |field| <= 8 ==> ToUint32(r) == HexValue(field)
  {
    HexFieldFits(field);
    Uint32ToInt32(ToUint32(HexValue(field)))
  }

  /** Eight hexadecimal digits fit an unsigned 32-bit number. */
  lemma HexFieldFits(field: seq<byte>)
    requires AllHexDigits(field)
    ensures |field| <= 8 ==> HexValue(field) < 0x1_0000_0000
  {
    if |field| <= 8 {
      HexValueBound(field, 8);
      assert Pow16(8) == 0x1_0000_0000;
    }
  }

  /**
   * e1550_at_get_freq_band: -1 without an AT channel or without an answer;
   * otherwise the band field, copied into a 256-byte buffer, read as hex.
   */
  function GetFreqBand(atBound: bool, reply: AtReply): (r: Exchange<int32>)
    requires BandReply(reply)
    ensures r.sent == if atBound then [SyscfgQueryCmd] else []
    ensures !atBound || reply.NoAnswer? ==> r.result == -1
    ensures atBound && reply.Answer? ==> r.result == BandValue(NcpySlice(reply.text, reply.subs[1], 0x100))
  {
    if !atBound then Exchange([], -1)
    else if reply.NoAnswer? then Exchange([SyscfgQueryCmd], -1)
    else Exchange([SyscfgQueryCmd], BandValue(NcpySlice(reply.text, reply.subs[1], 0x100)))
  }

  /** The command e1550_at_set_freq_band sends: AT^SYSCFG=16,3,<index in %X>,2,4. */
  function SetBandCommand(bandIndex: int32): (cmd: seq<byte>)
    ensures |cmd| < 0x100
  {
    FormatHexBound(ToUint32(bandIndex), 8);
    Ascii("AT^SYSCFG=16,3,") + FormatHex(ToUint32(bandIndex)) + Ascii(",2,4\r\n")
  }

  /** e1550_at_set_freq_band: send the command; the outcome is at_raw_ok's (not part of this model). */
  function SetFreqBand(bandIndex: int32, rawOk: int): (r: Exchange<int>)
    ensures r.sent == [SetBandCommand(bandIndex)] && r.result == rawOk
  {
    Exchange([SetBandCommand(bandIndex)], rawOk)
  }

  /**
   * A band field of up to eight digits (every field the modem writes for a
   * 32-bit band mask) reads back as its hexadecimal value.
   */
  lemma BandFieldValue(reply: AtReply)
    requires BandReply(reply) && reply.Answer? && |Group(reply, 1)| <= 8
    ensures ToUint32(GetFreqBand(true, reply).result) == HexValue(Group(reply, 1))
  {
    assert NcpySlice(reply.text, reply.subs[1], 0x100) == Group(reply, 1);
  }

  /**
   * Setting a band and reading it back agree: a ^SYSCFG reply whose band
   * field is the one SetBandCommand wrote reads as the same index.
   */
  lemma BandRoundTrip(bandIndex: int32, reply: AtReply)
    requires BandReply(reply) && reply.Answer?
    requires Group(reply, 1) == FormatHex(ToUint32(bandIndex))
    ensures GetFreqBand(true, reply).result == bandIndex
  {
    var u := ToUint32(bandIndex);
    FormatHexBound(u, 8);
    HexRoundTrip(u);
    assert NcpySlice(reply.text, reply.subs[1], 0x100) == FormatHex(u);
    Int32Uint32RoundTrip(bandIndex);
  }
}
