// The payload records and enumerations exchanged between the daemon and its
// clients (lib/include/modem/types.h). Every record is packed, so its wire
// image is its fields laid end to end; enumerations are packed to one byte.

module ModemTypes {
  import opened Common
  import opened CStr

  // -------------------------------------------------------------------
  // Field widths of the packed records

  const PortSize: nat := 8
  const ManufacturerSize: nat := 256
  const ProductSize: nat := 256
  /** sizeof(modem_info_t): port, two uint16 ids, two 256-byte strings. */
  const ModemInfoSize: nat := PortSize + 2 + 2 + ManufacturerSize + ProductSize

  const PinSize: nat := 16
  /** sizeof(modem_change_pin_t): two 16-byte PIN fields. */
  const ChangePinSize: nat := 2 * PinSize

  const ApnSize: nat := 101
  const UsernameSize: nat := 33
  const PasswordSize: nat := 33
  /** sizeof(modem_data_profile_t). */
  const DataProfileSize: nat := ApnSize + UsernameSize + PasswordSize + 1

  const FirmwareSize: nat := 0x100
  const TimeSize: nat := 8
  /** sizeof(modem_fw_version_t): firmware string and a 64-bit time_t. */
  const FwVersionSize: nat := FirmwareSize + TimeSize

  const LongNameSize: nat := 17
  const ShortNameSize: nat := 9
  const NumericSize: nat := 13
  /** sizeof(modem_oper_t): stat, three name fields, act. */
  const OperSize: nat := 1 + LongNameSize + ShortNameSize + NumericSize + 1

  /** sizeof(modem_signal_quality_t): int16 dBm and uint8 level. */
  const SignalQualitySize: nat := 3

  lemma RecordSizes()
    ensures ModemInfoSize == 524 && ChangePinSize == 32 && DataProfileSize == 168
    ensures FwVersionSize == 264 && OperSize == 41 && SignalQualitySize == 3
  {
  }

  // -------------------------------------------------------------------
  // modem_signal_quality_t

  /** Signal strength in dBm and a level: 0 for "no signal", otherwise 1..5. */
  datatype SignalQuality = SignalQuality(dbm: int16, level: byte)
  {
    predicate Valid() { level <= 5 }
  }

  function EncodeSignalQuality(sq: SignalQuality): (b: seq<byte>)
    ensures |b| == SignalQualitySize
  {
    SignedLeBytes(sq.dbm, 2) + [sq.level]
  }

  function DecodeSignalQuality(b: seq<byte>): (sq: SignalQuality)
    requires |b| == SignalQualitySize
  {
    SignalQuality(SignedLeValue(b[..2]), b[2])
  }

  lemma SignalQualityRoundTrip(sq: SignalQuality)
    ensures DecodeSignalQuality(EncodeSignalQuality(sq)) == sq
  {
    var b := EncodeSignalQuality(sq);
    assert b[..2] == SignedLeBytes(sq.dbm, 2);
    SignedLeRoundTrip(sq.dbm, 2);
  }

  // -------------------------------------------------------------------
  // Enumerations

  /** ppp_auth_protocol_t */
  datatype PppAuth = PppNone | PppPap | PppChap

  /** modem_network_reg_t */
  datatype NetworkReg = RegFailed | RegHome | RegSearching | RegDenied | RegUnknown | RegRoaming
  {
    function Code(): (c: byte)
      ensures c <= 5
    {
      match this
      case RegFailed => 0
      case RegHome => 1
      case RegSearching => 2
      case RegDenied => 3
      case RegUnknown => 4
      case RegRoaming => 5
    }
  }

  function NetworkRegOf(c: int): (r: Option<NetworkReg>)
    ensures r.Some? <==> 0 <= c <= 5
    ensures r.Some? ==> r.value.Code() == c
  {
    match c
    case 0 => Some(RegFailed)
    case 1 => Some(RegHome)
    case 2 => Some(RegSearching)
    case 3 => Some(RegDenied)
    case 4 => Some(RegUnknown)
    case 5 => Some(RegRoaming)
    case _ => None
  }

  lemma NetworkRegRoundTrip(r: NetworkReg)
    ensures NetworkRegOf(r.Code()) == Some(r)
  {
  }

  /** modem_oper_stat_t */
  datatype OperStat = StatUnknown | StatAvailable | StatCurrent | StatForbidden
  {
    function Code(): (c: byte)
      ensures c <= 3
    {
      match this
      case StatUnknown => 0
      case StatAvailable => 1
      case StatCurrent => 2
      case StatForbidden => 3
    }
  }

  function OperStatOf(c: int): (r: Option<OperStat>)
    ensures r.Some? <==> 0 <= c <= 3
    ensures r.Some? ==> r.value.Code() == c
  {
    match c
    case 0 => Some(StatUnknown)
    case 1 => Some(StatAvailable)
    case 2 => Some(StatCurrent)
    case 3 => Some(StatForbidden)
    case _ => None
  }

  /** modem_oper_act_t */
  datatype OperAct = ActGsm | ActCompact | ActUtran
  {
    function Code(): (c: byte)
      ensures c <= 2
    {
      match this
      case ActGsm => 0
      case ActCompact => 1
      case ActUtran => 2
    }
  }

  function OperActOf(c: int): (r: Option<OperAct>)
    ensures r.Some? <==> 0 <= c <= 2
    ensures r.Some? ==> r.value.Code() == c
  {
    match c
    case 0 => Some(ActGsm)
    case 1 => Some(ActCompact)
    case 2 => Some(ActUtran)
    case _ => None
  }

  /** modem_cpin_state_t: UNKNOWN is -1, the rest count up from 0. */
  datatype CpinState = CpinUnknown | CpinReady | CpinPin | CpinPuk
  {
    function Code(): (c: int8)
      ensures -1 <= c <= 2
    {
      match this
      case CpinUnknown => -1
      case CpinReady => 0
      case CpinPin => 1
      case CpinPuk => 2
    }
  }

  function CpinStateOf(c: int): (r: Option<CpinState>)
    ensures r.Some? <==> -1 <= c <= 2
    ensures r.Some? ==> r.value.Code() == c
  {
    match c
    case -1 => Some(CpinUnknown)
    case 0 => Some(CpinReady)
    case 1 => Some(CpinPin)
    case 2 => Some(CpinPuk)
    case _ => None
  }

  /** modem_cops_mode_t: UNKNOWN is -1, AUTO 0 up to MANUAL_AUTO 4. */
  datatype CopsMode = CopsUnknown | CopsAuto | CopsManual | CopsDeregister | CopsSetFormat | CopsManualAuto
  {
    function Code(): (c: int8)
      ensures -1 <= c <= 4
    {
      match this
      case CopsUnknown => -1
      case CopsAuto => 0
      case CopsManual => 1
      case CopsDeregister => 2
      case CopsSetFormat => 3
      case CopsManualAuto => 4
    }
  }

  function CopsModeOf(c: int): (r: Option<CopsMode>)
    ensures r.Some? <==> -1 <= c <= 4
    ensures r.Some? ==> r.value.Code() == c
  {
    match c
    case -1 => Some(CopsUnknown)
    case 0 => Some(CopsAuto)
    case 1 => Some(CopsManual)
    case 2 => Some(CopsDeregister)
    case 3 => Some(CopsSetFormat)
    case 4 => Some(CopsManualAuto)
    case _ => None
  }

  // -------------------------------------------------------------------
  // modem_change_pin_t

  /** Two raw 16-byte PIN fields, each meant to hold a NUL-terminated PIN. */
  datatype ChangePin = ChangePin(oldPin: seq<byte>, newPin: seq<byte>)
  {
    predicate Valid() { |oldPin| == PinSize && |newPin| == PinSize }
  }

  function EncodeChangePin(cp: ChangePin): (b: seq<byte>)
    requires cp.Valid()
    ensures |b| == ChangePinSize
  {
    cp.oldPin + cp.newPin
  }

  function DecodeChangePin(b: seq<byte>): (cp: ChangePin)
    requires |b| == ChangePinSize
    ensures cp.Valid()
  {
    ChangePin(b[..PinSize], b[PinSize..])
  }

  lemma ChangePinRoundTrip(cp: ChangePin, b: seq<byte>)
    requires cp.Valid() && |b| == ChangePinSize
    ensures DecodeChangePin(EncodeChangePin(cp)) == cp
    ensures EncodeChangePin(DecodeChangePin(b)) == b
  {
    assert (cp.oldPin + cp.newPin)[..PinSize] == cp.oldPin;
    assert (cp.oldPin + cp.newPin)[PinSize..] == cp.newPin;
  }

  // -------------------------------------------------------------------
  // modem_oper_t

  /** One operator found by a network scan: status, names of fixed width, access technology. */
  datatype Oper = Oper(stat: OperStat, longName: seq<byte>, shortName: seq<byte>, numeric: seq<byte>, act: OperAct)
  {
    predicate Valid() {
      |longName| == LongNameSize && |shortName| == ShortNameSize && |numeric| == NumericSize
    }
  }

  function EncodeOper(o: Oper): (b: seq<byte>)
    requires o.Valid()
    ensures |b| == OperSize
  {
    [o.stat.Code()] + o.longName + o.shortName + o.numeric + [o.act.Code()]
  }

  function DecodeOper(b: seq<byte>): (r: Option<Oper>)
    requires |b| == OperSize
    ensures r.Some? ==> r.value.Valid()
  {
    match (OperStatOf(b[0]), OperActOf(b[OperSize - 1]))
    case (Some(stat), Some(act)) =>
      Some(Oper(stat, b[1..18], b[18..27], b[27..40], act))
    case _ => None
  }

  lemma OperRoundTrip(o: Oper)
    requires o.Valid()
    ensures DecodeOper(EncodeOper(o)) == Some(o)
  {
    var b := EncodeOper(o);
    assert b[1..18] == o.longName;
    assert b[18..27] == o.shortName;
    assert b[27..40] == o.numeric;
    match o.stat {
      case StatUnknown =>
      case StatAvailable =>
      case StatCurrent =>
      case StatForbidden =>
    }
    match o.act {
      case ActGsm =>
      case ActCompact =>
      case ActUtran =>
    }
  }

  /** The wire image of a scan result: the records laid end to end. */
  function EncodeOpers(os: seq<Oper>): (b: seq<byte>)
    requires forall i | 0 <= i < |os| :: os[i].Valid()
    ensures |b| == OperSize * |os|
  {
    if os == [] then [] else EncodeOper(os[0]) + EncodeOpers(os[1..])
  }
}
