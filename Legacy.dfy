// The client thread of the first daemon (thread.c): one RPC request at a
// time is read from the client socket, looked up by function name in the
// rpc_functions table and answered. Entries marked reg_need are refused
// while the modem's registration is still in progress (locked). Handlers
// talk to the modem through the AT engine, whose answers come in as an
// Env value per request; they also keep the sticky last error and the
// operator-scan thread handle of the shared mc7700_thread_priv.

module LegacyThread {
  import opened Common
  import opened CStr
  import opened RegMatch
  import opened Rpc
  import opened AtExec
  import opened Dispatch
  import MT = ModemTypes

  // -------------------------------------------------------------------
  // Signal quality from +CSQ (section 8.5 of 3GPP TS 27.007)

  /** A conversion to int16: the value modulo 2^16, read as two's complement. */
  function Int16Of(x: int): (r: int16)
    ensures (r - x) % 0x10000 == 0
    ensures -0x8000 <= x < 0x8000 ==> r == x
  {
    var m := x % 0x10000;
    if m >= 0x8000 then m - 0x10000 else m
  }

  /** The dBm field: 0 for an rssi above 31 ("not known"), otherwise 2·rssi − 113, stored in an int16. */
  function Dbm(rssi: int): (dbm: int16)
    ensures rssi >= 0 ==> (dbm == 0 <==> rssi > 31)
    ensures 0 <= rssi <= 31 ==> -113 <= dbm <= -51
  {
    Int16Of(if rssi > 31 then 0 else rssi * 2 - 113)
  }

  function Indicator(c: bool): nat { if c then 1 else 0 }

  /** The level: 0 for no signal, else 1 plus the number of thresholds −95, −85, −73, −65 reached. */
  function Level(dbm: int16): (level: byte)
    ensures level <= 5 && (level == 0 <==> dbm == 0)
  {
    if dbm == 0 then 0
    else 1 + Indicator(dbm >= -95) + Indicator(dbm >= -85) + Indicator(dbm >= -73) + Indicator(dbm >= -65)
  }

  /** An independent reading of the level: the band of dBm values it falls into. */
  function LevelBand(dbm: int): nat
  {
    if dbm == 0 then 0
    else if dbm < -95 then 1
    else if dbm < -85 then 2
    else if dbm < -73 then 3
    else if dbm < -65 then 4
    else 5
  }

  lemma LevelIsBand(dbm: int16)
    ensures Level(dbm) == LevelBand(dbm)
    ensures Level(dbm) <= 5
    ensures Level(dbm) == 0 <==> dbm == 0
  {
  }

  /** For a non-negative rssi the dBm is exact, and it is 0 exactly when rssi exceeds 31 (2·rssi − 113 is odd). */
  lemma DbmOfRssi(rssi: int)
    requires rssi >= 0
    ensures Dbm(rssi) == if rssi > 31 then 0 else 2 * rssi - 113
    ensures Dbm(rssi) == 0 <==> rssi > 31
    ensures rssi <= 31 ==> -113 <= Dbm(rssi) <= -51
  {
  }

  /** Every rssi from 0 to 31 reports some signal, and a stronger rssi never reports a lower level. */
  lemma LevelOfRssi(r1: int, r2: int)
    requires 0 <= r1 <= r2 <= 31
    ensures 1 <= Level(Dbm(r1)) <= Level(Dbm(r2)) <= 5
  {
    DbmOfRssi(r1);
    DbmOfRssi(r2);
  }

  function SignalOf(rssi: int): (sq: MT.SignalQuality)
    ensures sq.Valid()
    ensures sq.level == 0 <==> sq.dbm == 0
  {
    LevelIsBand(Dbm(rssi));
    MT.SignalQuality(Dbm(rssi), Level(Dbm(rssi)))
  }

  // -------------------------------------------------------------------
  // Per-request inputs

  /** What pthread_kill(thread_scan, 0) reports. */
  datatype KillResult = Alive | NoSuchThread | KillFailed

  /**
   * The outside world's answers for one request: the AT engine's replies to
   * the handler's first and second command, and the results of the calls
   * into code that is not part of this model.
   */
  datatype Env = Env(
    at1: AtReply,
    at2: AtReply,
    /** modem_find_first / modem_find_next: a modem_info_t, or none. */
    findInfo: Option<seq<byte>>,
    /** The AT port name modem_get_at_port_name settles on; empty when none. */
    tty: seq<byte>,
    /** mc7700_open */
    openResult: int32,
    /** at_get_imsi */
    imsi: Option<seq<byte>>,
    /** at_creg */
    netReg: MT.NetworkReg,
    /** usb_device_get_info: a modem_info_t, or NULL */
    usbInfo: Option<seq<byte>>,
    /** at_operator_scan */
    opers: seq<MT.Oper>,
    /** mktime of the date strptime parsed */
    time: int64,
    /** malloc */
    allocOk: bool,
    /** pthread_create */
    createResult: int32,
    /** pthread_kill(thread_scan, 0) */
    kill: KillResult)
  {
    predicate Valid() {
      && ValidReply(at1) && ValidReply(at2)
      && (findInfo.Some? ==> |findInfo.value| == MT.ModemInfoSize)
      && NulFree(tty)
      && (imsi.Some? ==> NulFree(imsi.value))
      && (usbInfo.Some? ==> |usbInfo.value| == MT.ModemInfoSize)
      && (forall i | 0 <= i < |opers| :: opers[i].Valid())
    }
  }

  /** Sizes of buffers declared outside this file: priv->port and at_operator_scan_t.file. */
  datatype Config = Config(portSize: nat, scanFileSize: nat)
  {
    predicate Valid() { portSize >= 1 && scanFileSize >= 1 }
  }

  // -------------------------------------------------------------------
  // Thread state

  /**
   * The client's priv->port, the shared locked / last_error / thread_scan
   * fields, the file the scan thread was last started with, the AT commands
   * sent so far and the reply frames sent so far.
   */
  datatype State = State(
    locked: bool,
    lastError: int32,
    threadScan: bool,
    port: seq<byte>,
    scanFile: seq<byte>,
    commands: seq<seq<byte>>,
    sent: seq<Frame>)

  /** A handler's result (NULL or a payload) together with the state it leaves. */
  datatype Outcome = Outcome(payload: Option<seq<byte>>, state: State)

  // -------------------------------------------------------------------
  // Handlers that only query the modem

  const CrLf: seq<byte> := Ascii("\r\n")
  const CgsnCmd: seq<byte> := Ascii("AT+CGSN\r\n")
  const CsqCmd: seq<byte> := Ascii("AT+CSQ\r\n")
  const TimeCmd: seq<byte> := Ascii("AT!TIME?\r\n")
  const CopsFormatCmd: seq<byte> := Ascii("AT+COPS=3,0\r\n")
  const CopsQueryCmd: seq<byte> := Ascii("AT+COPS?\r\n")
  const CntiCmd: seq<byte> := Ascii("AT*CNTI=0\r\n")
  const CgmrCmd: seq<byte> := Ascii("AT+CGMR\r\n")
  const GsmInfoCmd: seq<byte> := Ascii("AT!GSMINFO?\r\n")

  /** Sizes of the local buffers the captures are cut into. */
  const RssiBufSize: nat := 16
  const CutBufSize: nat := 0x100

  /** modem_get_imei: the digits of the +CGSN reply. */
  function GetImei(r: AtReply): (x: Exchange<Option<seq<byte>>>)
    requires ValidReply(r)
    ensures x.sent == [CgsnCmd]
    ensures x.result.Some? <==> r.Answer?
    ensures x.result.Some? ==> x.result.value == Slice(r.text, r.subs[1])
  {
    Exchange([CgsnCmd], if r.Answer? then Some(Group(r, 1)) else None)
  }

  /** modem_get_signal_quality: rssi cut into a 16-byte buffer, read by atoi, turned into dBm and level. */
  function GetSignalQuality(r: AtReply): (x: Exchange<Option<seq<byte>>>)
    requires ValidReply(r)
    ensures x.sent == [CsqCmd]
    ensures x.result.Some? <==> r.Answer?
    ensures x.result.Some? ==> |x.result.value| == MT.SignalQualitySize
    ensures x.result.Some? ==>
      MT.DecodeSignalQuality(x.result.value) == SignalOf(Atoi(NcpySlice(r.text, r.subs[1], RssiBufSize)))
  {
    if r.NoAnswer? then Exchange([CsqCmd], None)
    else
      var sq := SignalOf(Atoi(NcpySlice(r.text, r.subs[1], RssiBufSize)));
      MT.SignalQualityRoundTrip(sq);
      Exchange([CsqCmd], Some(MT.EncodeSignalQuality(sq)))
  }

  /** modem_get_network_time: the converted time as a time_t. */
  function GetNetworkTime(r: AtReply, time: int64): (x: Exchange<Option<seq<byte>>>)
    ensures x.sent == [TimeCmd]
    ensures x.result.Some? <==> r.Answer?
    ensures x.result.Some? ==> |x.result.value| == 8 && SignedLeValue(x.result.value) == time
  {
    Exchange([TimeCmd], if r.Answer? then Some(Int64Le(time)) else None)
  }

  /** modem_get_operator_name: set the +COPS format first; only if that succeeds ask for the operator. */
  function GetOperatorName(r1: AtReply, r2: AtReply): (x: Exchange<Option<seq<byte>>>)
    requires ValidReply(r2)
    ensures x.sent == if r1.Answer? then [CopsFormatCmd, CopsQueryCmd] else [CopsFormatCmd]
    ensures x.result.Some? <==> r1.Answer? && r2.Answer?
    ensures x.result.Some? ==> x.result.value == Slice(r2.text, r2.subs[1])
  {
    if r1.NoAnswer? then Exchange([CopsFormatCmd], None)
    else Exchange([CopsFormatCmd, CopsQueryCmd], if r2.Answer? then Some(Group(r2, 1)) else None)
  }

  /** modem_get_network_type: the text after "*CNTI: 0,". */
  function GetNetworkType(r: AtReply): (x: Exchange<Option<seq<byte>>>)
    requires ValidReply(r)
    ensures x.sent == [CntiCmd]
    ensures x.result.Some? <==> r.Answer?
    ensures x.result.Some? ==> x.result.value == Slice(r.text, r.subs[1])
  {
    Exchange([CntiCmd], if r.Answer? then Some(Group(r, 1)) else None)
  }

  /**
   * The +CPWD command (section 7.5 of 3GPP TS 27.007) for a 32-byte
   * payload. Each PIN is read with %s from the start of its field: an
   * old_pin without a NUL runs on into new_pin, and a new_pin without a
   * NUL is cut at the end of the payload.
   */
  function CpwdCommand(data: seq<byte>): (cmd: seq<byte>)
    requires |data| == MT.ChangePinSize
    ensures |cmd| < 0x100
  {
    Ascii("AT+CPWD=\"SC\",\"") + CString(data) + Ascii("\",\"") + CString(data[MT.PinSize..]) + Ascii("\"\r\n")
  }

  /** When both PIN fields hold a NUL, the command carries exactly the two PINs. */
  lemma CpwdOfTerminatedPins(cp: MT.ChangePin)
    requires cp.Valid() && CLen(cp.oldPin) < MT.PinSize
    ensures CpwdCommand(MT.EncodeChangePin(cp)) ==
      Ascii("AT+CPWD=\"SC\",\"") + CString(cp.oldPin) + Ascii("\",\"") + CString(cp.newPin) + Ascii("\"\r\n")
  {
    var data := MT.EncodeChangePin(cp);
    assert data[..MT.PinSize] == cp.oldPin;
    assert data[MT.PinSize..] == cp.newPin;
    assert CLen(data) == CLen(cp.oldPin) by {
      CLenOfPrefix(data, MT.PinSize);
    }
  }

  /** The string in a buffer whose first n bytes already hold a NUL ends inside those n bytes. */
  lemma {:induction false} CLenOfPrefix(s: seq<byte>, n: nat)
    requires n <= |s| && CLen(s[..n]) < n
    ensures CLen(s) == CLen(s[..n])
  {
    if s != [] && s[0] != NUL {
      assert s[..n][1..] == s[1..][..n - 1];
      CLenOfPrefix(s[1..], n - 1);
    }
  }

  /** modem_change_pin: a payload of the wrong length is refused before anything is sent. */
  function ChangePin(data: seq<byte>, r: AtReply): (x: Exchange<Option<seq<byte>>>)
    requires ValidReply(r)
    ensures |data| != MT.ChangePinSize ==> x == Exchange([], None)
    ensures |data| == MT.ChangePinSize ==> x.sent == [CpwdCommand(data)]
    ensures |data| == MT.ChangePinSize ==> (x.result.Some? <==> r.Answer?)
    ensures x.result.Some? ==> x.result.value == r.text && NulFree(x.result.value)
  {
    if |data| != MT.ChangePinSize then Exchange([], None)
    else Exchange([CpwdCommand(data)], if r.Answer? then Some(r.text) else None)
  }

  /** modem_get_fw_version: the firmware name in a 256-byte field, then the release time. */
  function GetFwVersion(r: AtReply, time: int64): (x: Exchange<Option<seq<byte>>>)
    requires ValidReply(r)
    ensures x.sent == [CgmrCmd]
    ensures x.result.Some? <==> r.Answer?
    ensures x.result.Some? ==> |x.result.value| == MT.FwVersionSize
    ensures x.result.Some? ==>
      CString(x.result.value[..MT.FirmwareSize]) == Prefix(NcpySlice(r.text, r.subs[1], CutBufSize), MT.FirmwareSize - 1)
    ensures x.result.Some? ==> SignedLeValue(x.result.value[MT.FirmwareSize..]) == time
  {
    if r.NoAnswer? then Exchange([CgmrCmd], None)
    else
      var firmware := NcpySlice(r.text, r.subs[1], CutBufSize);
      CStringOfNulFree(firmware);
      var field := FieldCopy(firmware, MT.FirmwareSize);
      var payload := field + Int64Le(time);
      assert payload[..MT.FirmwareSize] == field;
      assert payload[MT.FirmwareSize..] == Int64Le(time);
      Exchange([CgmrCmd], Some(payload))
  }

  /** modem_at_command: the payload followed by CR LF, as a C string, with a 5-second timeout. */
  function AtCommand(data: seq<byte>, allocOk: bool, r: AtReply): (x: Exchange<Option<seq<byte>>>)
    requires ValidReply(r)
    ensures !allocOk ==> x == Exchange([], None)
    ensures allocOk ==> x.sent == [CString(data + CrLf)]
    ensures x.result.Some? <==> allocOk && r.Answer?
    ensures x.result.Some? ==> x.result.value == r.text && NulFree(x.result.value)
  {
    if !allocOk then Exchange([], None)
    else Exchange([CString(data + CrLf)], if r.Answer? then Some(r.text) else None)
  }

  /** A payload without NUL bytes is sent as it is, followed by CR LF. */
  lemma AtCommandOfText(data: seq<byte>, r: AtReply)
    requires NulFree(data) && ValidReply(r)
    ensures AtCommand(data, true, r).sent == [data + CrLf]
  {
    assert NulFree(data + CrLf);
    CStringOfNulFree(data + CrLf);
  }

  /** modem_get_cell_id: the digits cut into a 256-byte buffer, read by atoi and stored as an int32. */
  function GetCellId(r: AtReply): (x: Exchange<Option<seq<byte>>>)
    requires ValidReply(r)
    ensures x.sent == [GsmInfoCmd]
    ensures x.result.Some? <==> r.Answer?
    ensures x.result.Some? ==> |x.result.value| == 4
    ensures x.result.Some? ==>
      SignedLeValue(x.result.value) == WrapInt32(Atoi(NcpySlice(r.text, r.subs[1], CutBufSize)))
  {
    if r.NoAnswer? then Exchange([GsmInfoCmd], None)
    else Exchange([GsmInfoCmd], Some(Int32Le(WrapInt32(Atoi(NcpySlice(r.text, r.subs[1], CutBufSize))))))
  }

  // -------------------------------------------------------------------
  // modem_get_info

  /** The bytes usb_device_get_info's result points at: none for NULL. */
  function InfoBytes(mi: Option<seq<byte>>): seq<byte>
  {
    if mi.Some? then mi.value else []
  }

  /**
   * The length handed to rpc_create as written: `sizeof(*mi) ? sizeof(*mi) : 0`
   * tests the size of the type, which is never 0, and not the pointer.
   */
  function InfoLenAsWritten(mi: Option<seq<byte>>): (n: nat)
    ensures n > 0
  {
    MT.ModemInfoSize
  }

  /** As written, a NULL result is handed on with sizeof(modem_info_t) bytes to copy from it. */
  lemma InfoAsWrittenReadsNull()
    ensures InfoLenAsWritten(None) == MT.ModemInfoSize > |InfoBytes(None)| == 0
  {
  }

  /** The length the test evidently means, `mi ? sizeof(*mi) : 0`: exactly the bytes there are. */
  function InfoLen(mi: Option<seq<byte>>): (n: nat)
    requires mi.Some? ==> |mi.value| == MT.ModemInfoSize
    ensures n == |InfoBytes(mi)|
  {
    if mi.Some? then MT.ModemInfoSize else 0
  }

  /** modem_get_info, corrected: the modem_info_t when there is one, an empty reply for NULL. */
  function GetInfo(mi: Option<seq<byte>>): (payload: seq<byte>)
    requires mi.Some? ==> |mi.value| == MT.ModemInfoSize
    ensures mi.Some? ==> payload == mi.value
    ensures mi.None? ==> payload == []
  {
    InfoBytes(mi)[..InfoLen(mi)]
  }

  // -------------------------------------------------------------------
  // Handlers that keep state

  /** The local 256-byte port buffer of modem_open_by_port: at most 255 payload bytes. */
  const PortBufSize: nat := 0x100

  /** modem_open_by_port: with an AT port found, remember the port (cut to the field) and reply mc7700_open's result. */
  function OpenByPort(cfg: Config, s: State, data: seq<byte>, env: Env): (o: Outcome)
    requires cfg.Valid()
    ensures env.tty == [] ==> o == Outcome(None, s)
    ensures env.tty != [] ==> o.payload == Some(Int32Le(env.openResult))
    ensures env.tty != [] ==> o.state == s.(port := FieldCopy(CString(Prefix(data, PortBufSize - 1)), cfg.portSize))
  {
    if env.tty == [] then Outcome(None, s)
    else
      var port := CString(Prefix(data, PortBufSize - 1));
      Outcome(Some(Int32Le(env.openResult)), s.(port := FieldCopy(port, cfg.portSize)))
  }

  /** The value last_error takes when a request asks for it: -1 reads as 258 ("busy") while locked. */
  const Busy: int32 := 258

  function LastErrorAfterQuery(locked: bool, lastError: int32): (e: int32)
    ensures e == Busy <==> (locked && lastError == -1) || lastError == Busy
    ensures e != lastError ==> locked && lastError == -1
  {
    if locked && lastError == -1 then Busy else lastError
  }

  /** modem_get_last_error: the (possibly rewritten) sticky error as an int32. */
  function GetLastError(s: State): (o: Outcome)
    ensures o.state == s.(lastError := LastErrorAfterQuery(s.locked, s.lastError))
    ensures o.payload.Some? && |o.payload.value| == 4 && SignedLeValue(o.payload.value) == o.state.lastError
  {
    var e := LastErrorAfterQuery(s.locked, s.lastError);
    Outcome(Some(Int32Le(e)), s.(lastError := e))
  }

  /** modem_operator_scan_start: refused while a scan thread exists; otherwise start one on the cut file name. */
  function OperatorScanStart(cfg: Config, s: State, data: seq<byte>, env: Env): (o: Outcome)
    requires cfg.Valid()
    ensures s.threadScan || !env.allocOk || env.createResult != 0 ==> o == Outcome(None, s)
    ensures !s.threadScan && env.allocOk && env.createResult == 0 ==>
      o.payload == Some(Int32Le(0)) &&
      o.state == s.(threadScan := true, scanFile := CString(Prefix(data, cfg.scanFileSize - 1)))
  {
    if s.threadScan || !env.allocOk || env.createResult != 0 then Outcome(None, s)
    else Outcome(Some(Int32Le(0)), s.(threadScan := true, scanFile := CString(Prefix(data, cfg.scanFileSize - 1))))
  }

  /** modem_operator_scan_is_running: 1 while the thread lives; 0 (and forget the thread) once it has ended. */
  function OperatorScanIsRunning(s: State, kill: KillResult): (o: Outcome)
    ensures !s.threadScan ==> o == Outcome(None, s)
    ensures s.threadScan && kill == Alive ==> o == Outcome(Some([1]), s)
    ensures s.threadScan && kill == NoSuchThread ==> o == Outcome(Some([0]), s.(threadScan := false))
    ensures s.threadScan && kill == KillFailed ==> o == Outcome(None, s)
  {
    if !s.threadScan then Outcome(None, s)
    else match kill
      case Alive => Outcome(Some([1]), s)
      case NoSuchThread => Outcome(Some([0]), s.(threadScan := false))
      case KillFailed => Outcome(None, s)
  }

  // -------------------------------------------------------------------
  // The function table

  datatype Handler =
    | FindFirstH | FindNextH | OpenByPortH | CloseH | GetInfoH | GetLastErrorH
    | GetImeiH | ChangePinH | GetFwVersionH | NetworkRegistrationH
    | GetSignalQualityH | GetImsiH | OperatorScanH | AtCommandH | GetNetworkTimeH
    | GetOperatorNameH | GetNetworkTypeH | GetCellIdH | OperatorScanStartH | OperatorScanIsRunningH

  /**
   * rpc_functions, in table order, as its three columns: the names, the
   * handlers and the reg_need flags.
   */
  const Names: seq<seq<byte>> := [
    Ascii("modem_find_first"),
    Ascii("modem_find_next"),
    Ascii("modem_open_by_port"),
    Ascii("modem_close"),
    Ascii("modem_get_info"),
    Ascii("modem_get_last_error"),
    Ascii("modem_get_imei"),
    Ascii("modem_change_pin"),
    Ascii("modem_get_fw_version"),
    Ascii("modem_network_registration"),
    Ascii("modem_get_signal_quality"),
    Ascii("modem_get_imsi"),
    Ascii("modem_operator_scan"),
    Ascii("modem_at_command"),
    Ascii("modem_get_network_time"),
    Ascii("modem_get_operator_name"),
    Ascii("modem_get_network_type"),
    Ascii("modem_get_cell_id"),
    Ascii("modem_operator_scan_start"),
    Ascii("modem_operator_scan_is_running")
  ]

  const Handlers: seq<Handler> := [
    FindFirstH,
    FindNextH,
    OpenByPortH,
    CloseH,
    GetInfoH,
    GetLastErrorH,
    GetImeiH,
    ChangePinH,
    GetFwVersionH,
    NetworkRegistrationH,
    GetSignalQualityH,
    GetImsiH,
    OperatorScanH,
    AtCommandH,
    GetNetworkTimeH,
    GetOperatorNameH,
    GetNetworkTypeH,
    GetCellIdH,
    OperatorScanStartH,
    OperatorScanIsRunningH
  ]

  const RegNeed: seq<bool> := [false, false, false, false, false, false, false, false, false, false, true, true, true, true, true, true, true, true, true, true]

  /** The three columns have twenty rows; the first ten entries are never gated, the last ten always are. */
  lemma TableGating()
    ensures |Names| == |Handlers| == |RegNeed| == 20
    ensures forall i | 0 <= i < |RegNeed| :: RegNeed[i] <==> i >= 10
  {
  }

  /** A handler's effect on the state, recording the AT commands it sent. */
  function Logged(s: State, x: Exchange<Option<seq<byte>>>): Outcome
  {
    Outcome(x.result, s.(commands := s.commands + x.sent))
  }

  /** What one handler does with a request payload. */
  function Handle(cfg: Config, h: Handler, s: State, data: seq<byte>, env: Env): (o: Outcome)
    requires cfg.Valid() && env.Valid()
    ensures o.state.sent == s.sent && o.state.locked == s.locked
  {
    match h
    case FindFirstH => Outcome(Some(if env.findInfo.Some? then env.findInfo.value else []), s)
    case FindNextH => Outcome(Some(if env.findInfo.Some? then env.findInfo.value else []), s)
    case OpenByPortH => OpenByPort(cfg, s, data, env)
    case CloseH => Outcome(Some([]), s)
    case GetInfoH => Outcome(Some(GetInfo(env.usbInfo)), s)
    case GetLastErrorH => GetLastError(s)
    case GetImeiH => Logged(s, GetImei(env.at1))
    case ChangePinH => Logged(s, ChangePin(data, env.at1))
    case GetFwVersionH => Logged(s, GetFwVersion(env.at1, env.time))
    case NetworkRegistrationH => Outcome(Some([env.netReg.Code()]), s)
    case GetSignalQualityH => Logged(s, GetSignalQuality(env.at1))
    case GetImsiH => Outcome(env.imsi, s)
    case OperatorScanH => Outcome(if |env.opers| > 0 then Some(MT.EncodeOpers(env.opers)) else None, s)
    case AtCommandH => Logged(s, AtCommand(data, env.allocOk, env.at1))
    case GetNetworkTimeH => Logged(s, GetNetworkTime(env.at1, env.time))
    case GetOperatorNameH => Logged(s, GetOperatorName(env.at1, env.at2))
    case GetNetworkTypeH => Logged(s, GetNetworkType(env.at1))
    case GetCellIdH => Logged(s, GetCellId(env.at1))
    case OperatorScanStartH => OperatorScanStart(cfg, s, data, env)
    case OperatorScanIsRunningH => OperatorScanIsRunning(s, env.kill)
  }

  /** The outcome of the table lookup for a request name, before the reply is sent. */
  function Dispatched(cfg: Config, s: State, name: seq<byte>, data: seq<byte>, env: Env): (o: Outcome)
    requires cfg.Valid() && env.Valid()
    ensures o.state.sent == s.sent
  {
    match FindName(Names, name)
    case None => Outcome(None, s)
    case Some(i) =>
      if RegNeed[i] && s.locked then Outcome(None, s)
      else Handle(cfg, Handlers[i], s, data, env)
  }

  /** The state after the reply to a request named name has been sent. */
  function Replied(name: seq<byte>, o: Outcome): State
  {
    o.state.(sent := o.state.sent + [ReplyFrame(name, o.payload)])
  }

  /** One pass of the receive loop. */
  function Step(cfg: Config, s: State, p: Frame, env: Env): (r: State)
    requires cfg.Valid() && env.Valid()
    ensures !p.IsQuery() ==> r == s
    ensures r.locked == s.locked
    ensures p.IsQuery() ==>
      |r.sent| == |s.sent| + 1 && r.sent[..|s.sent|] == s.sent && r.sent[|s.sent|].func == CString(p.func)
  {
    if !p.IsQuery() then s
    else Replied(CString(p.func), Dispatched(cfg, s, CString(p.func), p.data, env))
  }

  /** One request as read from the socket, with the world's answers while it is handled. */
  datatype Incoming = Incoming(frame: Frame, env: Env)

  predicate AllValid(ins: seq<Incoming>)
  {
    forall i | 0 <= i < |ins| :: ins[i].env.Valid()
  }

  /** The receive loop over a sequence of requests. */
  function Run(cfg: Config, s: State, ins: seq<Incoming>): (r: State)
    requires cfg.Valid() && AllValid(ins)
    ensures r.locked == s.locked
    ensures |r.sent| >= |s.sent| && r.sent[..|s.sent|] == s.sent
  {
    if ins == [] then s
    else Step(cfg, Run(cfg, s, ins[..|ins| - 1]), ins[|ins| - 1].frame, ins[|ins| - 1].env)
  }

  function CountQueries(ins: seq<Incoming>): nat
  {
    if ins == [] then 0
    else CountQueries(ins[..|ins| - 1]) + (if ins[|ins| - 1].frame.IsQuery() then 1 else 0)
  }

  // -------------------------------------------------------------------
  // Properties of the dispatcher

  /** A frame that is not a QUERY changes nothing and gets no reply. */
  lemma NonQueryDropped(cfg: Config, s: State, p: Frame, env: Env)
    requires cfg.Valid() && env.Valid() && !p.IsQuery()
    ensures Step(cfg, s, p, env) == s
  {
  }

  /** Every QUERY gets exactly one RESPONSE, under the request's name. */
  lemma QueryAnswered(cfg: Config, s: State, p: Frame, env: Env)
    requires cfg.Valid() && env.Valid() && p.IsQuery()
    ensures |Step(cfg, s, p, env).sent| == |s.sent| + 1
    ensures Step(cfg, s, p, env).sent[..|s.sent|] == s.sent
    ensures Step(cfg, s, p, env).sent[|s.sent|].kind == TypeResponse
    ensures Step(cfg, s, p, env).sent[|s.sent|].func == CString(p.func)
  {
  }

  /** An unknown name is answered with an empty RESPONSE and nothing else happens. */
  lemma UnknownNameEmptyReply(cfg: Config, s: State, p: Frame, env: Env)
    requires cfg.Valid() && env.Valid() && p.IsQuery()
    requires FindName(Names, CString(p.func)).None?
    ensures Step(cfg, s, p, env) == s.(sent := s.sent + [EmptyResponse(CString(p.func))])
  {
    var name := CString(p.func);
    DispatchedUnknown(cfg, s, name, p.data, env);
  }

  lemma DispatchedUnknown(cfg: Config, s: State, name: seq<byte>, data: seq<byte>, env: Env)
    requires cfg.Valid() && env.Valid() && FindName(Names, name).None?
    ensures Dispatched(cfg, s, name, data, env) == Outcome(None, s)
  {
  }

  /**
   * While locked, a gated entry is refused without running its handler: the
   * reply is an empty RESPONSE, no AT command is sent and last_error is left
   * as it was.
   */
  lemma LockedDenies(cfg: Config, s: State, p: Frame, env: Env, k: nat)
    requires cfg.Valid() && env.Valid() && p.IsQuery()
    requires FindName(Names, CString(p.func)) == Some(k)
    requires s.locked && RegNeed[k]
    ensures Step(cfg, s, p, env) == s.(sent := s.sent + [EmptyResponse(CString(p.func))])
  {
  }

  /** An ungated entry runs its handler whatever the registration state. */
  lemma UngatedRuns(cfg: Config, s: State, p: Frame, env: Env, k: nat)
    requires cfg.Valid() && env.Valid() && p.IsQuery()
    requires FindName(Names, CString(p.func)) == Some(k) && !RegNeed[k]
    ensures Dispatched(cfg, s, CString(p.func), p.data, env) == Handle(cfg, Handlers[k], s, p.data, env)
  {
  }

  /** Over a run, one reply is sent per QUERY read, in order after the earlier ones. */
  lemma {:induction false} RepliesPerQuery(cfg: Config, s: State, ins: seq<Incoming>)
    requires cfg.Valid() && AllValid(ins)
    ensures |Run(cfg, s, ins).sent| == |s.sent| + CountQueries(ins)
    ensures Run(cfg, s, ins).sent[..|s.sent|] == s.sent
  {
    if ins != [] {
      var init := ins[..|ins| - 1];
      assert AllValid(init);
      RepliesPerQuery(cfg, s, init);
      LastStepSent(cfg, s, ins);
    }
  }

  /** The last request of a run adds one reply to what the earlier ones sent if it is a QUERY, none otherwise. */
  lemma LastStepSent(cfg: Config, s: State, ins: seq<Incoming>)
    requires cfg.Valid() && AllValid(ins) && ins != []
    ensures var r := Run(cfg, s, ins[..|ins| - 1]).sent;
      && |Run(cfg, s, ins).sent| == |r| + (if ins[|ins| - 1].frame.IsQuery() then 1 else 0)
      && Run(cfg, s, ins).sent[..|r|] == r
  {
    var last := ins[|ins| - 1];
    var r := Run(cfg, s, ins[..|ins| - 1]);
    assert Run(cfg, s, ins) == Step(cfg, r, last.frame, last.env);
    if last.frame.IsQuery() {
      QueryAnswered(cfg, r, last.frame, last.env);
    } else {
      NonQueryDropped(cfg, r, last.frame, last.env);
    }
  }

  /** A second scan start while the first thread is still known is refused, and nothing changes. */
  lemma ScanStartRefusedWhileRunning(cfg: Config, s: State, data: seq<byte>, env: Env)
    requires cfg.Valid() && s.threadScan
    ensures OperatorScanStart(cfg, s, data, env) == Outcome(None, s)
  {
  }

  /** After a successful start, the scan reports running until its thread ends; then 0 once, then no answer. */
  lemma ScanLifecycle(cfg: Config, s: State, data: seq<byte>, env: Env)
    requires cfg.Valid() && !s.threadScan && env.allocOk && env.createResult == 0
    ensures var s1 := OperatorScanStart(cfg, s, data, env).state;
      && OperatorScanIsRunning(s1, Alive).payload == Some([1])
      && OperatorScanIsRunning(s1, NoSuchThread).payload == Some([0])
      && OperatorScanIsRunning(OperatorScanIsRunning(s1, NoSuchThread).state, Alive).payload.None?
  {
  }

  /** Asking twice for the error gives the same answer: the busy rewrite is idempotent. */
  lemma LastErrorIdempotent(s: State)
    ensures GetLastError(GetLastError(s).state) == GetLastError(s)
  {
  }

  // -------------------------------------------------------------------
  // The thread

  class ClientThread {
    const cfg: Config
    var locked: bool
    var lastError: int32
    var threadScan: bool
    var port: seq<byte>
    var scanFile: seq<byte>
    var commands: seq<seq<byte>>
    var sent: seq<Frame>

    function Snapshot(): State
      reads this
    {
      State(locked, lastError, threadScan, port, scanFile, commands, sent)
    }

    /**
     * A client thread before its first request. locked, last_error and
     * thread_scan are the process-wide fields of mc7700_thread_priv, so they
     * start as the registration thread and earlier clients left them.
     */
    constructor(cfg: Config, locked: bool, lastError: int32, threadScan: bool)
      requires cfg.Valid()
      ensures this.cfg == cfg
      ensures Snapshot() == State(locked, lastError, threadScan, seq(cfg.portSize, _ => NUL), [], [], [])
    {
      this.cfg := cfg;
      this.locked := locked;
      this.lastError := lastError;
      this.threadScan := threadScan;
      port := seq(cfg.portSize, _ => NUL);
      scanFile := [];
      commands := [];
      sent := [];
    }

    /** The registration thread's writes to the shared locked / last_error fields. */
    method SetRegistration(locked: bool, lastError: int32)
      modifies this
      ensures Snapshot() == old(Snapshot()).(locked := locked, lastError := lastError)
    {
      this.locked := locked;
      this.lastError := lastError;
    }

    /** Another client thread starting or reaping the operator scan: its write to the shared thread_scan. */
    method SetScanThread(threadScan: bool)
      modifies this
      ensures Snapshot() == old(Snapshot()).(threadScan := threadScan)
    {
      this.threadScan := threadScan;
    }

    method ModemGetLastError() returns (payload: Option<seq<byte>>)
      modifies this
      ensures Outcome(payload, Snapshot()) == GetLastError(old(Snapshot()))
    {
      if locked && lastError == -1 {
        lastError := Busy;
      }
      payload := Some(Int32Le(lastError));
    }

    method ModemOpenByPort(data: seq<byte>, env: Env) returns (payload: Option<seq<byte>>)
      requires cfg.Valid()
      modifies this
      ensures Outcome(payload, Snapshot()) == OpenByPort(cfg, old(Snapshot()), data, env)
    {
      var pathLen := if |data| >= PortBufSize then PortBufSize - 1 else |data|;
      assert data[..pathLen] == Prefix(data, PortBufSize - 1);
      var portStr := CString(data[..pathLen]);
      payload := None;
      if env.tty != [] {
        port := FieldCopy(portStr, cfg.portSize);
        payload := Some(Int32Le(env.openResult));
      }
    }

    method ModemOperatorScanStart(data: seq<byte>, env: Env) returns (payload: Option<seq<byte>>)
      requires cfg.Valid()
      modifies this
      ensures Outcome(payload, Snapshot()) == OperatorScanStart(cfg, old(Snapshot()), data, env)
    {
      payload := None;
      if threadScan || !env.allocOk {
        return;
      }
      var fileLen := if |data| >= cfg.scanFileSize then cfg.scanFileSize - 1 else |data|;
      assert data[..fileLen] == Prefix(data, cfg.scanFileSize - 1);
      var file := CString(data[..fileLen]);
      if env.createResult == 0 {
        threadScan := true;
        scanFile := file;
        payload := Some(Int32Le(0));
      }
    }

    method ModemOperatorScanIsRunning(kill: KillResult) returns (payload: Option<seq<byte>>)
      modifies this
      ensures Outcome(payload, Snapshot()) == OperatorScanIsRunning(old(Snapshot()), kill)
    {
      var killRes: Option<KillResult> := None;
      if threadScan {
        killRes := Some(kill);
      }
      payload := None;
      if killRes == Some(NoSuchThread) {
        threadScan := false;
        payload := Some([0]);
      } else if killRes == Some(Alive) {
        payload := Some([1]);
      }
    }

    method Log(x: Exchange<Option<seq<byte>>>) returns (payload: Option<seq<byte>>)
      modifies this
      ensures Outcome(payload, Snapshot()) == Logged(old(Snapshot()), x)
    {
      commands := commands + x.sent;
      payload := x.result;
    }

    method Execute(h: Handler, data: seq<byte>, env: Env) returns (payload: Option<seq<byte>>)
      requires cfg.Valid() && env.Valid()
      modifies this
      ensures Outcome(payload, Snapshot()) == Handle(cfg, h, old(Snapshot()), data, env)
    {
      match h
      case FindFirstH => payload := Some(if env.findInfo.Some? then env.findInfo.value else []);
      case FindNextH => payload := Some(if env.findInfo.Some? then env.findInfo.value else []);
      case OpenByPortH => payload := ModemOpenByPort(data, env);
      case CloseH => payload := Some([]);
      case GetInfoH => payload := Some(GetInfo(env.usbInfo));
      case GetLastErrorH => payload := ModemGetLastError();
      case GetImeiH => payload := Log(GetImei(env.at1));
      case ChangePinH => payload := Log(ChangePin(data, env.at1));
      case GetFwVersionH => payload := Log(GetFwVersion(env.at1, env.time));
      case NetworkRegistrationH => payload := Some([env.netReg.Code()]);
      case GetSignalQualityH => payload := Log(GetSignalQuality(env.at1));
      case GetImsiH => payload := env.imsi;
      case OperatorScanH =>
        payload := if |env.opers| > 0 then Some(MT.EncodeOpers(env.opers)) else None;
      case AtCommandH => payload := Log(AtCommand(data, env.allocOk, env.at1));
      case GetNetworkTimeH => payload := Log(GetNetworkTime(env.at1, env.time));
      case GetOperatorNameH => payload := Log(GetOperatorName(env.at1, env.at2));
      case GetNetworkTypeH => payload := Log(GetNetworkType(env.at1));
      case GetCellIdH => payload := Log(GetCellId(env.at1));
      case OperatorScanStartH => payload := ModemOperatorScanStart(data, env);
      case OperatorScanIsRunningH => payload := ModemOperatorScanIsRunning(env.kill);
    }

    /** The table walk: run the first entry with this name unless it is gated while locked. */
    method Lookup(name: seq<byte>, data: seq<byte>, env: Env) returns (payload: Option<seq<byte>>)
      requires cfg.Valid() && env.Valid()
      modifies this
      ensures Outcome(payload, Snapshot()) == Dispatched(cfg, old(Snapshot()), name, data, env)
    {
      var idx := ScanTable(Names, name);
      payload := None;
      if idx.Some? {
        if !(RegNeed[idx.value] && locked) {
          payload := Execute(Handlers[idx.value], data, env);
        }
      }
    }

    /** One pass of the receive loop of ThreadWrapper. */
    method HandleFrame(p: Frame, env: Env)
      requires cfg.Valid() && env.Valid()
      modifies this
      ensures Snapshot() == Step(cfg, old(Snapshot()), p, env)
    {
      if p.kind != TypeQuery {
        return;
      }
      var name := CString(p.func);
      var payload := Lookup(name, p.data, env);
      ghost var o := Outcome(payload, Snapshot());
      sent := sent + [ReplyFrame(name, payload)];
      assert Snapshot() == Replied(name, o);
    }

    /** ThreadWrapper: serve requests until the socket has no more. */
    method ThreadWrapper(ins: seq<Incoming>)
      requires cfg.Valid() && AllValid(ins)
      modifies this
      ensures Snapshot() == Run(cfg, old(Snapshot()), ins)
    {
      var i := 0;
      while i < |ins|
        invariant 0 <= i <= |ins|
        invariant Snapshot() == Run(cfg, old(Snapshot()), ins[..i])
      {
        assert ins[..i + 1][..i] == ins[..i];
        HandleFrame(ins[i].frame, ins[i].env);
        i := i + 1;
      }
      assert ins[..|ins|] == ins;
    }
  }
}
