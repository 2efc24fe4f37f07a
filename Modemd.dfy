// The client thread of the second daemon (source/modemd/thread.c): each
// request read from the client socket is looked up by function name in the
// rpc_functions table and handed to a *_packet handler, which calls into
// libmodem on the client's modem handle and turns the library's answer into
// a reply payload, or into NULL. There is no registration gating here;
// instead every handler that needs an open modem refuses while the client
// has none. libmodem itself is not part of this model: what its calls
// return for one request comes in as a Lib value, and the calls it is asked
// to make are recorded in the thread's state.

module ModemdThread {
  import opened Common
  import opened CStr
  import opened Rpc
  import opened Dispatch
  import MT = ModemTypes

  // -------------------------------------------------------------------
  // Handlers and library calls

  /** The *_packet handlers, one per library entry point. */
  datatype Handler =
    | FindFirstH | FindNextH | FindCloseH | OpenByPortH | CloseH | ConfReloadH
    | GetImeiH | GetImsiH | GetSignalQualityH | GetNetworkTimeH | GetOperatorNameH
    | NetworkRegistrationH | GetNetworkTypeH | ChangePinH | GetFwVersionH | GetInfoH
    | OperatorScanH | AtCommandH | GetCellIdH | OperatorScanStartH | OperatorScanIsRunningH
    | GetLastErrorH | SetWwanProfileH | StartWwanH | StopWwanH | StateWwanH | UssdCmdH

  /** The handlers that may run without an open modem: the search functions and open_by_port. */
  predicate NeedsModem(h: Handler)
  {
    !(h.FindFirstH? || h.FindNextH? || h.FindCloseH? || h.OpenByPortH?)
  }

  /** One call into libmodem: the modem_* function a handler wraps, and the bytes it is given. */
  datatype Call = Call(op: Handler, arg: seq<byte>)

  /**
   * What libmodem answers, for the calls one request may make. Records
   * whose layout is declared outside this model (modem_find_first_next_t,
   * the modem_t handle, modem_fw_ver_t, usb_device_info_t,
   * modem_state_wwan_t) are given as their byte images.
   */
  datatype Lib = Lib(
    /** modem_find_first / modem_find_next: the image of the search result, or NULL. */
    find: Option<seq<byte>>,
    /** modem_open_by_port: the image of the opened handle, or NULL. */
    openResult: Option<seq<byte>>,
    /** The 256-byte buffer filled by modem_get_imei / _imsi / _operator_name / _network_type, or failure. */
    text: Option<seq<byte>>,
    /** modem_get_signal_quality: its return code and the record it filled. */
    signalRet: int,
    signal: MT.SignalQuality,
    /** modem_get_network_time */
    time: int64,
    /** modem_network_registration */
    netReg: MT.NetworkReg,
    /** modem_change_pin */
    pinRet: int,
    /** modem_get_fw_version / modem_get_info: the filled record, or failure. */
    fwVersion: Option<seq<byte>>,
    info: Option<seq<byte>>,
    /** modem_operator_scan: the operators found (none on failure). */
    opers: seq<MT.Oper>,
    /** modem_at_command / modem_ussd_cmd: the reply string, or NULL. */
    reply: Option<seq<byte>>,
    /** modem_get_cell_id */
    cellId: int32,
    /** modem_operator_scan_start / modem_operator_scan_is_running */
    scanStart: int32,
    scanRunning: int8,
    /** modem_get_last_error */
    lastError: int32,
    /** modem_set_wwan_profile */
    profileRet: int,
    /** modem_start_wwan / modem_stop_wwan */
    wwanResult: int32,
    /** modem_state_wwan: the image of the state. */
    wwanState: seq<byte>,
    /** The two pointer fields of the request packet, as they lie in memory after its header. */
    pointers: seq<byte>)
  {
    predicate Valid() {
      && (text.Some? ==> |text.value| == TextBufSize && NUL in text.value)
      && (forall i | 0 <= i < |opers| :: opers[i].Valid())
    }
  }

  /** The local buffers of the string handlers and of open_by_port. */
  const TextBufSize: nat := 0x100
  const PortBufSize: nat := 0x100

  // -------------------------------------------------------------------
  // Thread state

  /** priv->modem, the library calls made so far and the reply frames sent so far. */
  datatype State = State(modem: Option<seq<byte>>, calls: seq<Call>, sent: seq<Frame>)

  /** A handler's result (NULL or a payload) together with the state it leaves. */
  datatype Outcome = Outcome(payload: Option<seq<byte>>, state: State)

  /** A handler that makes one library call and changes nothing else. */
  function Called(s: State, c: Call, payload: Option<seq<byte>>): Outcome
  {
    Outcome(payload, s.(calls := s.calls + [c]))
  }

  // -------------------------------------------------------------------
  // From library answers to payloads

  /** The string handlers: strlen bytes of the filled buffer, or NULL when the call failed. */
  function TextPayload(buf: Option<seq<byte>>): (r: Option<seq<byte>>)
    requires buf.Some? ==> |buf.value| == TextBufSize && NUL in buf.value
    ensures r.Some? <==> buf.Some?
    ensures r.Some? ==> NulFree(r.value) && r.value <= buf.value && |r.value| < TextBufSize
    ensures r.Some? ==> buf.value[|r.value|] == NUL
  {
    if buf.None? then None else Some(CString(buf.value))
  }

  /** modem_get_signal_quality_packet: the record, only when the library returns 0. */
  function SignalPayload(ret: int, sq: MT.SignalQuality): (r: Option<seq<byte>>)
    ensures r.Some? <==> ret == 0
    ensures r.Some? ==> |r.value| == MT.SignalQualitySize && MT.DecodeSignalQuality(r.value) == sq
  {
    if ret != 0 then None
    else
      MT.SignalQualityRoundTrip(sq);
      Some(MT.EncodeSignalQuality(sq))
  }

  /** modem_get_network_time_packet: a time of 0 is failure; otherwise the 8-byte time_t. */
  function TimePayload(t: int64): (r: Option<seq<byte>>)
    ensures r.Some? <==> t != 0
    ensures r.Some? ==> |r.value| == 8 && SignedLeValue(r.value) == t
  {
    if t == 0 then None else Some(Int64Le(t))
  }

  /** modem_get_cell_id_packet: a cell id of 0 is failure; otherwise the int32. */
  function CellIdPayload(cellId: int32): (r: Option<seq<byte>>)
    ensures r.Some? <==> cellId != 0
    ensures r.Some? ==> |r.value| == 4 && SignedLeValue(r.value) == cellId
  {
    if cellId == 0 then None else Some(Int32Le(cellId))
  }

  /** modem_start_wwan_packet / modem_stop_wwan_packet: a reply only for result 0, carrying that 0. */
  function WwanPayload(result: int32): (r: Option<seq<byte>>)
    ensures r.Some? <==> result == 0
    ensures r.Some? ==> |r.value| == 4 && SignedLeValue(r.value) == 0
  {
    if result != 0 then None else Some(Int32Le(result))
  }

  /** modem_operator_scan_packet: the operator records, only when at least one was found. */
  function OpersPayload(opers: seq<MT.Oper>): (r: Option<seq<byte>>)
    requires forall i | 0 <= i < |opers| :: opers[i].Valid()
    ensures r.Some? <==> |opers| > 0
    ensures r.Some? ==> |r.value| == MT.OperSize * |opers|
  {
    if |opers| > 0 then Some(MT.EncodeOpers(opers)) else None
  }

  /**
   * modem_set_wwan_profile_packet: when the library accepts the profile,
   * the reply carries the bytes of the request packet structure itself,
   * its packed header followed by its two pointers.
   */
  function ProfilePayload(ret: int, p: Frame, pointers: seq<byte>): (r: Option<seq<byte>>)
    requires p.WellSized()
    ensures r.Some? <==> ret == 0
    ensures r.Some? ==> |r.value| == HeaderSize + |pointers| && DecodeHeader(r.value) == p.Hdr()
    ensures r.Some? ==> r.value[HeaderSize..] == pointers
  {
    if ret != 0 then None
    else
      var b := EncodeHeader(p.Hdr()) + pointers;
      HeaderRoundTrip(p.Hdr(), b);
      DecodeHeaderPrefix(b);
      assert b[..HeaderSize] == EncodeHeader(p.Hdr());
      Some(b)
  }

  /** The in-memory byte of an int8_t. */
  function Int8Byte(x: int8): (b: seq<byte>)
    ensures |b| == 1 && SignedLeValue(b) == x
  {
    SignedLeRoundTrip(x, 1);
    SignedLeBytes(x, 1)
  }

  // -------------------------------------------------------------------
  // Handlers that keep state or check their payload

  /** The port name open_by_port passes on: at most 255 payload bytes, up to the first NUL. */
  function PortName(data: seq<byte>): (port: seq<byte>)
    ensures NulFree(port) && |port| < PortBufSize && port <= data
  {
    CString(Prefix(data, PortBufSize - 1))
  }

  /** modem_open_by_port_packet: the handle it returns becomes the client's modem, NULL included. */
  function OpenByPort(s: State, data: seq<byte>, lib: Lib): (o: Outcome)
    ensures o.payload == lib.openResult
    ensures o.state == s.(modem := lib.openResult, calls := s.calls + [Call(OpenByPortH, PortName(data))])
  {
    Outcome(lib.openResult, s.(modem := lib.openResult, calls := s.calls + [Call(OpenByPortH, PortName(data))]))
  }

  /**
   * modem_change_pin_packet: a payload that is not one modem_change_pin_t
   * fails without calling the library; otherwise the request payload is
   * echoed when the library returns 0.
   */
  function ChangePin(s: State, data: seq<byte>, lib: Lib): (o: Outcome)
    ensures |data| != MT.ChangePinSize ==> o == Outcome(None, s)
    ensures |data| == MT.ChangePinSize ==> o.state == s.(calls := s.calls + [Call(ChangePinH, data)])
    ensures o.payload.Some? <==> |data| == MT.ChangePinSize && lib.pinRet == 0
    ensures o.payload.Some? ==> o.payload.value == data
  {
    if |data| != MT.ChangePinSize then Outcome(None, s)
    else Called(s, Call(ChangePinH, data), if lib.pinRet == 0 then Some(data) else None)
  }

  // -------------------------------------------------------------------
  // The function table

  /**
   * rpc_functions, in table order, as its two columns: the names and the
   * handlers. modem_find_close has a handler but no entry.
   */
  const Names: seq<seq<byte>> := [
    Ascii("modem_find_first"),
    Ascii("modem_find_next"),
    Ascii("modem_open_by_port"),
    Ascii("modem_close"),
    Ascii("modem_get_info"),
    Ascii("modem_get_last_error"),
    Ascii("modem_get_imei"),
    Ascii("modem_change_pin"),
    Ascii("modem_get_fw_version"),
    Ascii("modem_network_registration"),
    Ascii("modem_get_imsi"),
    Ascii("modem_operator_scan_start"),
    Ascii("modem_operator_scan_is_running"),
    Ascii("modem_get_signal_quality"),
    Ascii("modem_operator_scan"),
    Ascii("modem_at_command"),
    Ascii("modem_get_network_time"),
    Ascii("modem_get_operator_name"),
    Ascii("modem_get_network_type"),
    Ascii("modem_get_cell_id"),
    Ascii("modem_conf_reload"),
    Ascii("modem_set_wwan_profile"),
    Ascii("modem_start_wwan"),
    Ascii("modem_stop_wwan"),
    Ascii("modem_state_wwan"),
    Ascii("modem_ussd_cmd")
  ]

  const Handlers: seq<Handler> := [
    FindFirstH,
    FindNextH,
    OpenByPortH,
    CloseH,
    GetInfoH,
    GetLastErrorH,
    GetImeiH,
    ChangePinH,
    GetFwVersionH,
    NetworkRegistrationH,
    GetImsiH,
    OperatorScanStartH,
    OperatorScanIsRunningH,
    GetSignalQualityH,
    OperatorScanH,
    AtCommandH,
    GetNetworkTimeH,
    GetOperatorNameH,
    GetNetworkTypeH,
    GetCellIdH,
    ConfReloadH,
    SetWwanProfileH,
    StartWwanH,
    StopWwanH,
    StateWwanH,
    UssdCmdH
  ]

  /** The name a client uses for modem_find_close. */
  const FindCloseName: seq<byte> := Ascii("modem_find_close")

  /** What one handler does with a request, given the library's answers. */
  function Handle(h: Handler, s: State, p: Frame, lib: Lib): (o: Outcome)
    requires lib.Valid() && p.WellSized()
    ensures o.state.sent == s.sent
    ensures NeedsModem(h) && s.modem.None? ==> o == Outcome(None, s)
  {
    if NeedsModem(h) && s.modem.None? then Outcome(None, s)
    else
      var data := p.data;
      match h
      case FindFirstH => Called(s, Call(h, []), lib.find)
      case FindNextH => Called(s, Call(h, data), lib.find)
      case FindCloseH => Called(s, Call(h, data), None)
      case OpenByPortH => OpenByPort(s, data, lib)
      case CloseH => Called(s, Call(h, []), Some([]))
      case ConfReloadH => Called(s, Call(h, []), Some([]))
      case GetImeiH => Called(s, Call(h, []), TextPayload(lib.text))
      case GetImsiH => Called(s, Call(h, []), TextPayload(lib.text))
      case GetSignalQualityH => Called(s, Call(h, []), SignalPayload(lib.signalRet, lib.signal))
      case GetNetworkTimeH => Called(s, Call(h, []), TimePayload(lib.time))
      case GetOperatorNameH => Called(s, Call(h, []), TextPayload(lib.text))
      case NetworkRegistrationH => Called(s, Call(h, []), Some([lib.netReg.Code()]))
      case GetNetworkTypeH => Called(s, Call(h, []), TextPayload(lib.text))
      case ChangePinH => ChangePin(s, data, lib)
      case GetFwVersionH => Called(s, Call(h, []), lib.fwVersion)
      case GetInfoH => Called(s, Call(h, []), lib.info)
      case OperatorScanH => Called(s, Call(h, []), OpersPayload(lib.opers))
      case AtCommandH => Called(s, Call(h, CString(data)), if lib.reply.Some? then Some(CString(lib.reply.value)) else None)
      case GetCellIdH => Called(s, Call(h, []), CellIdPayload(lib.cellId))
      case OperatorScanStartH => Called(s, Call(h, CString(data)), Some(Int32Le(lib.scanStart)))
      case OperatorScanIsRunningH => Called(s, Call(h, []), Some(Int8Byte(lib.scanRunning)))
      case GetLastErrorH => Called(s, Call(h, []), Some(Int32Le(lib.lastError)))
      case SetWwanProfileH => Called(s, Call(h, data), ProfilePayload(lib.profileRet, p, lib.pointers))
      case StartWwanH => Called(s, Call(h, []), WwanPayload(lib.wwanResult))
      case StopWwanH => Called(s, Call(h, []), WwanPayload(lib.wwanResult))
      case StateWwanH => Called(s, Call(h, []), Some(lib.wwanState))
      case UssdCmdH => Called(s, Call(h, CString(data)), if lib.reply.Some? then Some(CString(lib.reply.value)) else None)
  }

  /** The outcome of the table lookup for a request: the first entry with its name runs, if there is one. */
  function Dispatched(s: State, p: Frame, lib: Lib): (o: Outcome)
    requires lib.Valid() && p.WellSized()
    ensures o.state.sent == s.sent
  {
    match FindName(Names, CString(p.func))
    case None => Outcome(None, s)
    case Some(i) => Handle(Handlers[i], s, p, lib)
  }

  /** The state after the reply to a request named name has been sent. */
  function Replied(name: seq<byte>, o: Outcome): State
  {
    o.state.(sent := o.state.sent + [ReplyFrame(name, o.payload)])
  }

  /** One pass of the receive loop. */
  function Step(s: State, p: Frame, lib: Lib): (r: State)
    requires lib.Valid() && p.WellSized()
    ensures !p.IsQuery() ==> r == s
    ensures p.IsQuery() ==>
      |r.sent| == |s.sent| + 1 && r.sent[..|s.sent|] == s.sent && r.sent[|s.sent|].func == CString(p.func)
  {
    if !p.IsQuery() then s
    else Replied(CString(p.func), Dispatched(s, p, lib))
  }

  /** A request whose name selects entry k is answered with what entry k's handler returns. */
  lemma StepOfEntry(s: State, p: Frame, lib: Lib, k: nat)
    requires lib.Valid() && p.WellSized() && p.IsQuery()
    requires FindName(Names, CString(p.func)) == Some(k)
    ensures k < |Handlers|
    ensures Step(s, p, lib) == Replied(CString(p.func), Handle(Handlers[k], s, p, lib))
  {
  }

  /** One request as rpc_recv delivered it, with libmodem's answers while it is handled. */
  datatype Incoming = Incoming(frame: Frame, lib: Lib)

  /** Frames read off the socket fit their header fields. */
  predicate AllValid(ins: seq<Incoming>)
  {
    forall i | 0 <= i < |ins| :: ins[i].lib.Valid() && ins[i].frame.WellSized()
  }

  /** The receive loop over a sequence of requests. */
  function Run(s: State, ins: seq<Incoming>): (r: State)
    requires AllValid(ins)
    ensures |r.sent| >= |s.sent| && r.sent[..|s.sent|] == s.sent
  {
    if ins == [] then s
    else Step(Run(s, ins[..|ins| - 1]), ins[|ins| - 1].frame, ins[|ins| - 1].lib)
  }

  function CountQueries(ins: seq<Incoming>): nat
  {
    if ins == [] then 0
    else CountQueries(ins[..|ins| - 1]) + (if ins[|ins| - 1].frame.IsQuery() then 1 else 0)
  }

  // -------------------------------------------------------------------
  // Properties of the dispatcher

  /** The table has twenty-six entries, and modem_find_close is not among them. */
  lemma FindCloseNotListed()
    ensures |Names| == |Handlers| == 26
    ensures FindName(Names, FindCloseName).None?
  {
    var k := |Names|;
    while k > 0
      invariant 0 <= k <= |Names|
      invariant FindNameFrom(Names, FindCloseName, k).None?
    {
      k := k - 1;
      NotFindClose(k);
    }
  }

  /** Entry k's name differs from modem_find_close, in length or in one byte. */
  lemma NotFindClose(k: nat)
    requires k < |Names|
    ensures Names[k] != FindCloseName
  {
    if k == 0 {
      assert Names[0][11] != FindCloseName[11];
    } else if k == 1 {
      assert |Names[1]| != |FindCloseName|;
    } else if k == 2 {
      assert |Names[2]| != |FindCloseName|;
    } else if k == 3 {
      assert |Names[3]| != |FindCloseName|;
    } else if k == 4 {
      assert |Names[4]| != |FindCloseName|;
    } else if k == 5 {
      assert |Names[5]| != |FindCloseName|;
    } else if k == 6 {
      assert |Names[6]| != |FindCloseName|;
    } else if k == 7 {
      assert Names[7][6] != FindCloseName[6];
    } else if k == 8 {
      assert |Names[8]| != |FindCloseName|;
    } else if k == 9 {
      assert |Names[9]| != |FindCloseName|;
    } else if k == 10 {
      assert |Names[10]| != |FindCloseName|;
    } else if k == 11 {
      assert |Names[11]| != |FindCloseName|;
    } else if k == 12 {
      assert |Names[12]| != |FindCloseName|;
    } else if k == 13 {
      assert |Names[13]| != |FindCloseName|;
    } else if k == 14 {
      assert |Names[14]| != |FindCloseName|;
    } else if k == 15 {
      assert Names[15][6] != FindCloseName[6];
    } else if k == 16 {
      assert |Names[16]| != |FindCloseName|;
    } else if k == 17 {
      assert |Names[17]| != |FindCloseName|;
    } else if k == 18 {
      assert |Names[18]| != |FindCloseName|;
    } else if k == 19 {
      assert |Names[19]| != |FindCloseName|;
    } else if k == 20 {
      assert |Names[20]| != |FindCloseName|;
    } else if k == 21 {
      assert |Names[21]| != |FindCloseName|;
    } else if k == 22 {
      assert Names[22][6] != FindCloseName[6];
    } else if k == 23 {
      assert |Names[23]| != |FindCloseName|;
    } else if k == 24 {
      assert Names[24][6] != FindCloseName[6];
    } else {
      assert |Names[25]| != |FindCloseName|;
    }
  }

  /** A frame that is not a QUERY changes nothing and gets no reply. */
  lemma NonQueryDropped(s: State, p: Frame, lib: Lib)
    requires lib.Valid() && p.WellSized() && !p.IsQuery()
    ensures Step(s, p, lib) == s
  {
  }

  /** Every QUERY gets exactly one RESPONSE, under the request's name. */
  lemma QueryAnswered(s: State, p: Frame, lib: Lib)
    requires lib.Valid() && p.WellSized() && p.IsQuery()
    ensures |Step(s, p, lib).sent| == |s.sent| + 1
    ensures Step(s, p, lib).sent[..|s.sent|] == s.sent
    ensures Step(s, p, lib).sent[|s.sent|].kind == TypeResponse
    ensures Step(s, p, lib).sent[|s.sent|].func == CString(p.func)
  {
  }

  /** An unknown name is answered with an empty RESPONSE, and no library call is made. */
  lemma UnknownNameEmptyReply(s: State, p: Frame, lib: Lib)
    requires lib.Valid() && p.WellSized() && p.IsQuery()
    requires FindName(Names, CString(p.func)).None?
    ensures Step(s, p, lib) == s.(sent := s.sent + [EmptyResponse(CString(p.func))])
  {
    DispatchedUnknown(s, p, lib);
  }

  lemma DispatchedUnknown(s: State, p: Frame, lib: Lib)
    requires lib.Valid() && p.WellSized() && FindName(Names, CString(p.func)).None?
    ensures Dispatched(s, p, lib) == Outcome(None, s)
  {
  }

  /** A modem_find_close request always gets the empty reply and reaches no handler. */
  lemma FindCloseEmptyReply(s: State, p: Frame, lib: Lib)
    requires lib.Valid() && p.WellSized() && p.IsQuery() && CString(p.func) == FindCloseName
    ensures Step(s, p, lib) == s.(sent := s.sent + [EmptyResponse(FindCloseName)])
  {
    FindCloseNotListed();
    UnknownNameEmptyReply(s, p, lib);
  }

  /**
   * Without an open modem, a request for any entry other than the search
   * functions and open_by_port is answered with an empty RESPONSE and no
   * library call is made.
   */
  lemma NoModemEmptyReply(s: State, p: Frame, lib: Lib, k: nat)
    requires lib.Valid() && p.WellSized() && p.IsQuery()
    requires FindName(Names, CString(p.func)) == Some(k) && NeedsModem(Handlers[k])
    requires s.modem.None?
    ensures Step(s, p, lib) == s.(sent := s.sent + [EmptyResponse(CString(p.func))])
  {
    StepOfEntry(s, p, lib, k);
  }

  /** open_by_port makes the opened handle, or NULL, the client's modem, whatever the client had before. */
  lemma OpenByPortReplaces(s: State, p: Frame, lib: Lib, k: nat)
    requires lib.Valid() && p.WellSized() && p.IsQuery()
    requires FindName(Names, CString(p.func)) == Some(k) && Handlers[k] == OpenByPortH
    ensures Step(s, p, lib).modem == lib.openResult
    ensures Step(s, p, lib).calls == s.calls + [Call(OpenByPortH, PortName(p.data))]
  {
    StepOfEntry(s, p, lib, k);
  }

  /**
   * close answers with an empty RESPONSE but keeps the handle: requests
   * after it still pass the no-modem guard.
   */
  lemma {:induction false} CloseKeepsHandle(s: State, p: Frame, lib: Lib, k: nat)
    requires lib.Valid() && p.WellSized() && p.IsQuery() && s.modem.Some?
    requires FindName(Names, CString(p.func)) == Some(k) && Handlers[k] == CloseH
    ensures Step(s, p, lib).modem == s.modem
    ensures Step(s, p, lib).calls == s.calls + [Call(CloseH, [])]
    ensures Step(s, p, lib).sent == s.sent + [EmptyResponse(CString(p.func))]
  {
    StepOfEntry(s, p, lib, k);
    assert Handle(CloseH, s, p, lib) == Called(s, Call(CloseH, []), Some([]));
  }

  /** Over a run, one reply is sent per QUERY read, in order after the earlier ones. */
  lemma {:induction false} RepliesPerQuery(s: State, ins: seq<Incoming>)
    requires AllValid(ins)
    ensures |Run(s, ins).sent| == |s.sent| + CountQueries(ins)
    ensures Run(s, ins).sent[..|s.sent|] == s.sent
  {
    if ins != [] {
      var init := ins[..|ins| - 1];
      assert AllValid(init);
      RepliesPerQuery(s, init);
      LastStepSent(s, ins);
    }
  }

  /** The last request of a run adds one reply to what the earlier ones sent if it is a QUERY, none otherwise. */
  lemma LastStepSent(s: State, ins: seq<Incoming>)
    requires AllValid(ins) && ins != []
    ensures var r := Run(s, ins[..|ins| - 1]).sent;
      && |Run(s, ins).sent| == |r| + (if ins[|ins| - 1].frame.IsQuery() then 1 else 0)
      && Run(s, ins).sent[..|r|] == r
  {
    var last := ins[|ins| - 1];
    var r := Run(s, ins[..|ins| - 1]);
    assert Run(s, ins) == Step(r, last.frame, last.lib);
    if last.frame.IsQuery() {
      QueryAnswered(r, last.frame, last.lib);
    } else {
      NonQueryDropped(r, last.frame, last.lib);
    }
  }

  /** Without a modem and without a successful open, a run makes no library call outside the search functions. */
  lemma {:induction false} NoModemNoCalls(s: State, ins: seq<Incoming>)
    requires AllValid(ins) && s.modem.None?
    requires forall i | 0 <= i < |ins| :: ins[i].lib.openResult.None?
    ensures Run(s, ins).modem.None?
    ensures NoModemCalls(s.calls, Run(s, ins).calls)
  {
    if ins != [] {
      var init := ins[..|ins| - 1];
      assert AllValid(init);
      NoModemNoCalls(s, init);
      var last := ins[|ins| - 1];
      var r := Run(s, init);
      assert Run(s, ins) == Step(r, last.frame, last.lib);
      if last.frame.IsQuery() {
        NoModemStep(r, last.frame, last.lib);
      } else {
        NonQueryDropped(r, last.frame, last.lib);
      }
      NoModemCallsTrans(s.calls, r.calls, Run(s, ins).calls);
    }
  }

  /** calls extends before, and every call added is one that does not need the modem. */
  predicate NoModemCalls(before: seq<Call>, calls: seq<Call>)
  {
    && |before| <= |calls| && calls[..|before|] == before
    && forall j | |before| <= j < |calls| :: !NeedsModem(calls[j].op)
  }

  lemma NoModemCallsTrans(a: seq<Call>, b: seq<Call>, c: seq<Call>)
    requires NoModemCalls(a, b) && NoModemCalls(b, c)
    ensures NoModemCalls(a, c)
  {
    assert c[..|b|][..|a|] == c[..|a|];
  }

  /** One request without a modem: at most one call, never one that needs the modem, and the modem stays NULL unless opened. */
  lemma NoModemStep(s: State, p: Frame, lib: Lib)
    requires lib.Valid() && p.WellSized() && p.IsQuery() && s.modem.None? && lib.openResult.None?
    ensures Step(s, p, lib).modem.None?
    ensures NoModemCalls(s.calls, Step(s, p, lib).calls)
  {
    var r := FindName(Names, CString(p.func));
    if r.None? {
      NoModemUnknown(s, p, lib);
    } else {
      NoModemEntry(s, p, lib, r.value);
    }
  }

  lemma NoModemUnknown(s: State, p: Frame, lib: Lib)
    requires lib.Valid() && p.WellSized() && p.IsQuery() && s.modem.None?
    requires FindName(Names, CString(p.func)).None?
    ensures Step(s, p, lib).modem.None?
    ensures NoModemCalls(s.calls, Step(s, p, lib).calls)
  {
    StepFields(s, p, lib);
    DispatchedUnknown(s, p, lib);
    NoModemCallsRefl(s.calls);
  }

  lemma NoModemCallsRefl(c: seq<Call>)
    ensures NoModemCalls(c, c)
  {
    assert c[..|c|] == c;
  }

  /** A QUERY leaves the modem and the calls as the handler run for it leaves them. */
  lemma StepFields(s: State, p: Frame, lib: Lib)
    requires lib.Valid() && p.WellSized() && p.IsQuery()
    ensures Step(s, p, lib).modem == Dispatched(s, p, lib).state.modem
    ensures Step(s, p, lib).calls == Dispatched(s, p, lib).state.calls
  {
  }

  lemma NoModemEntry(s: State, p: Frame, lib: Lib, k: nat)
    requires lib.Valid() && p.WellSized() && p.IsQuery() && s.modem.None? && lib.openResult.None?
    requires FindName(Names, CString(p.func)) == Some(k)
    ensures Step(s, p, lib).modem.None?
    ensures NoModemCalls(s.calls, Step(s, p, lib).calls)
  {
    StepOfEntry(s, p, lib, k);
    NoModemHandle(Handlers[k], s, p, lib);
  }

  /** A handler run without a modem makes at most one call, never one that needs the modem. */
  lemma NoModemHandle(h: Handler, s: State, p: Frame, lib: Lib)
    requires lib.Valid() && p.WellSized() && s.modem.None? && lib.openResult.None?
    ensures Handle(h, s, p, lib).state.modem.None?
    ensures NoModemCalls(s.calls, Handle(h, s, p, lib).state.calls)
  {
    if !NeedsModem(h) {
      var arg := if h.FindFirstH? then [] else if h.OpenByPortH? then PortName(p.data) else p.data;
      assert Handle(h, s, p, lib).state.calls == s.calls + [Call(h, arg)];
    }
  }

  // -------------------------------------------------------------------
  // The thread

  class ClientThread {
    var modem: Option<seq<byte>>
    var calls: seq<Call>
    var sent: seq<Frame>

    function Snapshot(): State
      reads this
    {
      State(modem, calls, sent)
    }

    /** A client thread as the daemon creates it: no modem yet. */
    constructor()
      ensures Snapshot() == State(None, [], [])
    {
      modem := None;
      calls := [];
      sent := [];
    }

    method LibCall(c: Call, result: Option<seq<byte>>) returns (payload: Option<seq<byte>>)
      modifies this
      ensures Outcome(payload, Snapshot()) == Called(old(Snapshot()), c, result)
    {
      calls := calls + [c];
      payload := result;
    }

    method ModemOpenByPort(data: seq<byte>, lib: Lib) returns (payload: Option<seq<byte>>)
      modifies this
      ensures Outcome(payload, Snapshot()) == OpenByPort(old(Snapshot()), data, lib)
    {
      var pathLen := if |data| >= PortBufSize then PortBufSize - 1 else |data|;
      assert data[..pathLen] == Prefix(data, PortBufSize - 1);
      var port := CString(data[..pathLen]);
      calls := calls + [Call(OpenByPortH, port)];
      modem := lib.openResult;
      payload := modem;
    }

    method ModemChangePin(data: seq<byte>, lib: Lib) returns (payload: Option<seq<byte>>)
      modifies this
      ensures Outcome(payload, Snapshot()) == ChangePin(old(Snapshot()), data, lib)
    {
      payload := None;
      if |data| != MT.ChangePinSize {
        return;
      }
      calls := calls + [Call(ChangePinH, data)];
      if lib.pinRet == 0 {
        payload := Some(data);
      }
    }

    /** The body of the handler h, after the no-modem guard. */
    method Execute(h: Handler, p: Frame, lib: Lib) returns (payload: Option<seq<byte>>)
      requires lib.Valid() && p.WellSized()
      modifies this
      ensures Outcome(payload, Snapshot()) == Handle(h, old(Snapshot()), p, lib)
    {
      if NeedsModem(h) && modem.None? {
        return None;
      }
      var data := p.data;
      match h
      case FindFirstH => payload := LibCall(Call(h, []), lib.find);
      case FindNextH => payload := LibCall(Call(h, data), lib.find);
      case FindCloseH => payload := LibCall(Call(h, data), None);
      case OpenByPortH => payload := ModemOpenByPort(data, lib);
      case CloseH => payload := LibCall(Call(h, []), Some([]));
      case ConfReloadH => payload := LibCall(Call(h, []), Some([]));
      case GetImeiH => payload := LibCall(Call(h, []), TextPayload(lib.text));
      case GetImsiH => payload := LibCall(Call(h, []), TextPayload(lib.text));
      case GetSignalQualityH => payload := LibCall(Call(h, []), SignalPayload(lib.signalRet, lib.signal));
      case GetNetworkTimeH => payload := LibCall(Call(h, []), TimePayload(lib.time));
      case GetOperatorNameH => payload := LibCall(Call(h, []), TextPayload(lib.text));
      case NetworkRegistrationH => payload := LibCall(Call(h, []), Some([lib.netReg.Code()]));
      case GetNetworkTypeH => payload := LibCall(Call(h, []), TextPayload(lib.text));
      case ChangePinH => payload := ModemChangePin(data, lib);
      case GetFwVersionH => payload := LibCall(Call(h, []), lib.fwVersion);
      case GetInfoH => payload := LibCall(Call(h, []), lib.info);
      case OperatorScanH => payload := LibCall(Call(h, []), OpersPayload(lib.opers));
      case AtCommandH =>
        payload := LibCall(Call(h, CString(data)), if lib.reply.Some? then Some(CString(lib.reply.value)) else None);
      case GetCellIdH => payload := LibCall(Call(h, []), CellIdPayload(lib.cellId));
      case OperatorScanStartH => payload := LibCall(Call(h, CString(data)), Some(Int32Le(lib.scanStart)));
      case OperatorScanIsRunningH => payload := LibCall(Call(h, []), Some(Int8Byte(lib.scanRunning)));
      case GetLastErrorH => payload := LibCall(Call(h, []), Some(Int32Le(lib.lastError)));
      case SetWwanProfileH => payload := LibCall(Call(h, data), ProfilePayload(lib.profileRet, p, lib.pointers));
      case StartWwanH => payload := LibCall(Call(h, []), WwanPayload(lib.wwanResult));
      case StopWwanH => payload := LibCall(Call(h, []), WwanPayload(lib.wwanResult));
      case StateWwanH => payload := LibCall(Call(h, []), Some(lib.wwanState));
      case UssdCmdH =>
        payload := LibCall(Call(h, CString(data)), if lib.reply.Some? then Some(CString(lib.reply.value)) else None);
    }

    /** One pass of the receive loop of ThreadWrapper. */
    method HandleFrame(p: Frame, lib: Lib)
      requires lib.Valid() && p.WellSized()
      modifies this
      ensures Snapshot() == Step(old(Snapshot()), p, lib)
    {
      if p.kind != TypeQuery {
        return;
      }
      var name := CString(p.func);
      var payload := Lookup(p, lib);
      sent := sent + [ReplyFrame(name, payload)];
    }

    /** The table walk: run the first entry with the request's name, if any. */
    method Lookup(p: Frame, lib: Lib) returns (payload: Option<seq<byte>>)
      requires lib.Valid() && p.WellSized()
      modifies this
      ensures Outcome(payload, Snapshot()) == Dispatched(old(Snapshot()), p, lib)
    {
      var idx := ScanTable(Names, CString(p.func));
      payload := None;
      if idx.Some? {
        payload := Execute(Handlers[idx.value], p, lib);
      }
    }

    /** ThreadWrapper: serve requests until the socket has no more. */
    method ThreadWrapper(ins: seq<Incoming>)
      requires AllValid(ins)
      modifies this
      ensures Snapshot() == Run(old(Snapshot()), ins)
    {
      var i := 0;
      while i < |ins|
        invariant 0 <= i <= |ins|
        invariant Snapshot() == Run(old(Snapshot()), ins[..i])
      {
        assert ins[..i + 1][..i] == ins[..i];
        HandleFrame(ins[i].frame, ins[i].lib);
        i := i + 1;
      }
      assert ins[..|ins|] == ins;
    }
  }
}
