# modemd request layer in Dafny

This project models the request-dispatch and reply-interpretation layer of the
modem daemons, and proves properties about it.

A client sends an RPC frame over the control socket. The frame carries a
packed four-byte header, a function name and a payload. The daemon's client
thread reads frames one at a time. It drops anything that is not a QUERY. It
looks the function name up in its `rpc_functions` table. It answers with a
RESPONSE under the same name, which carries the handler's payload, or no
payload when the name is unknown, the call is refused or the handler fails.

Two daemons are modelled:

- **The first daemon** (`thread.c`, module `LegacyThread`). It talks to an
  MC7700 through AT commands. Table entries marked `reg_need` are refused
  while the registration thread holds `locked`. `modem_get_last_error`
  rewrites a pending -1 to 258 ("busy") while locked. A small state machine
  tracks the operator-scan thread. The +CSQ reply (section 8.5 of 3GPP TS
  27.007) is turned into dBm and a 0..5 level.
- **The second daemon** (`source/modemd/thread.c`, module `ModemdThread`). It
  forwards every request to libmodem on the client's modem handle. There is
  no gating. Instead, every handler except the search functions and
  `open_by_port` refuses while the client has no modem. Each handler turns the
  library's sentinel (0, NULL, a return code) into a payload or a failure.

Both client threads are classes whose fields are the thread's state:

- the legacy thread holds copies of the process-wide `mc7700_thread_priv` fields `locked`, `last_error` and `thread_scan`, which every client thread shares, together with its own port, the AT commands sent and the frames sent. The constructor takes the shared fields as it finds them, and `SetRegistration` and `SetScanThread` stand for other threads' writes to them;
- the modemd thread keeps `priv->modem`, the library calls made and the frames sent.

Their methods are proved against a pure `Step`/`Run` specification. The
dispatcher lemmas are proved about that specification.

The helpers the handlers rely on are modelled as well:

- **Sub-match extraction** (`re.c`, module `RegMatch`): methods over arrays.
- **The Huawei E1550 reply parsers** (`at_func.c`, module `E1550AtFunc`): the network type lookup, the frequency-band list loop and the band read/write pair.
- **The modem registry** (`modem_db.c`, module `ModemDb`).
- **The QMI queue** (`qcqmi_queue.c`, module `QcqmiQueue`): the session-state callback and the device-key search of the opening sequence.
- **The wire and payload layouts** (`rpc.h`, module `Rpc`; `types.h`, module `ModemTypes`).

Modules `Common` (integer widths, little-endian images), `CStr` (C strings,
`strncpy` into a field, `atoi`, hex) and `AtExec` (the AT engine's reply)
hold shared definitions. `Dispatch` holds the table scan both daemons share.

Oracles stand in for everything that is not part of this model: the AT
engine, the regex matcher, libmodem, pthreads and the vendor SDK. Each is
passed in as a value per request:

| oracle | type |
|---|---|
| AT engine reply | `AtReply` |
| legacy thread's outside world | `Env` |
| libmodem's answers | `Lib` |
| QMI SDK's answers | `SdkAnswers` |
| band-list regex search | a search function |

Two behaviours of the code a reader might not expect:

- A legacy call refused by `reg_need` only logs a warning. It does not set the sticky last error.
- modemd's `modem_close_packet` closes the modem but keeps `priv->modem`. Later requests still pass the no-modem guard.

## Model

| member | source | states |
|---|---|---|
| Common.WrapInt32 | thread.c:444 | the int32 an integer is stored as equals it modulo 2^32, and equals it when it fits |
| Common.Int32Le | thread.c:446 | the 4-byte image of an int32 reads back as the same value |
| Common.SignedLeRoundTrip | source/modemd/thread.c:170 | an n-byte two's-complement image reads back as the value written |
| Common.LeBytesOfValue | lib/rpc.h:26 | writing back the value read from bytes gives the same bytes |
| CStr.Trim | source/libmodem/modems/e1550/at_func.c:107 | the trimmed name is a slice of the capture with only white space cut from either end, and neither of its ends is white space |
| CStr.TrimNulFree | source/libmodem/modems/e1550/at_func.c:107 | trimming a string without NUL leaves one without NUL, so the trimmed name is the whole string strncpy copies |
| CStr.FieldCopy | source/libmodem/modems/e1550/at_func.c:65-66 | strncpy of n-1 bytes plus a terminator leaves an n-byte field ending in NUL whose string is the source string cut to n-1 bytes |
| CStr.AtoiTerminated | source/libmodem/utils/re.c:20-22 | atoi of a buffer with a terminator appended equals atoi of the bytes before it |
| CStr.HexRoundTrip | source/libmodem/modems/e1550/at_func.c:153 | reading back the upper-case hex digits of a number gives the number |
| CStr.FormatHexBound | source/libmodem/modems/e1550/at_func.c:167 | a 32-bit value has at most 8 hex digits, so the command fits its 256-byte buffer |
| CStr.HexValueBound | source/libmodem/modems/e1550/at_func.c:153 | at most k hex digits hold a value below 16^k, so up to eight digits fit the unsigned int "%X" writes |
| RegMatch.RegMatchAtoi | source/libmodem/utils/re.c:8-27 | returns atoi of exactly the captured bytes, or 0 when the allocation fails; src is only read |
| RegMatch.RegMatchStrdup | source/libmodem/utils/re.c:46-60 | returns null exactly when malloc fails; otherwise a fresh buffer of capture length + 1 holding the capture and a NUL |
| RegMatch.StrdupHoldsCapture | source/libmodem/utils/re.c:56-57 | for an answer without NUL bytes, the string in the duplicated buffer is the capture itself |
| RegMatch.NcpyLenAsWritten | source/libmodem/utils/re.c:35-36 | as written, the terminator's index is at most min(capture length, n), so it can reach n itself |
| RegMatch.NcpyAsWrittenOverflows | source/libmodem/utils/re.c:36-39 | as written, a capture exactly n bytes long puts the terminator at dst[n], past the buffer |
| RegMatch.NcpyAsWrittenWraps | source/libmodem/utils/re.c:36 | as written, n = 0 makes `n - 1` wrap to the largest size_t |
| RegMatch.NcpyAsWrittenOtherwiseInBounds | source/libmodem/utils/re.c:35-39 | as written, every other case keeps the terminator inside the buffer |
| RegMatch.NcpySlice | source/libmodem/utils/re.c:35-39 | the corrected copy holds the whole capture when it is shorter than n, and otherwise its first n-1 bytes |
| RegMatch.RegMatchNcpy | source/libmodem/utils/re.c:31-42 | writes the (corrected) cut capture and a NUL into dst, returns the terminator's offset, which is always in bounds, and leaves the rest of dst alone |
| ModemTypes.RecordSizes | lib/include/modem/types.h:13-152 | the packed sizes of modem_info_t, modem_change_pin_t, modem_data_profile_t, modem_fw_version_t, modem_oper_t and modem_signal_quality_t |
| ModemTypes.SignalQualityRoundTrip | lib/include/modem/types.h:33-40 | decoding the 3-byte packed signal record gives back dBm and level |
| ModemTypes.NetworkReg.Code | lib/include/modem/types.h:72-77 | each registration state encodes to a byte in 0..5 |
| ModemTypes.NetworkRegOf | lib/include/modem/types.h:70-78 | a byte names a registration state exactly when it is 0..5, and then the state encodes back to it |
| ModemTypes.NetworkRegRoundTrip | lib/include/modem/types.h:72-77 | every registration state decodes from its own code |
| ModemTypes.OperStatOf | lib/include/modem/types.h:100-106 | operator status codes are exactly 0..3 |
| ModemTypes.OperActOf | lib/include/modem/types.h:110-115 | access technology codes are exactly 0..2 |
| ModemTypes.CpinStateOf | lib/include/modem/types.h:119-125 | PIN state codes are exactly -1..2, UNKNOWN being -1 |
| ModemTypes.CopsModeOf | lib/include/modem/types.h:129-137 | +COPS mode codes are exactly -1..4, UNKNOWN being -1 |
| ModemTypes.ChangePinRoundTrip | lib/include/modem/types.h:82-87 | the 32-byte change-PIN record splits into and rebuilds from its two 16-byte PIN fields |
| ModemTypes.OperRoundTrip | lib/include/modem/types.h:141-152 | a packed modem_oper_t decodes back to the same status, three fixed-width names and technology |
| ModemTypes.EncodeOpers | thread.c:389 | a scan result is sizeof(modem_oper_t) bytes per operator |
| Rpc.PacketTypeOf | lib/rpc.h:8-11 | a type byte names a packet type exactly when it is 0 or 1, and encodes back to it |
| Rpc.PacketTypeEncoding | lib/rpc.h:8-11 | QUERY is 0 and RESPONSE is 1 |
| Rpc.Frame.Hdr | lib/rpc.h:15-27 | a frame's header carries its name and payload lengths |
| Rpc.HeaderRoundTrip | lib/rpc.h:15-27 | the packed header (type, uint8 func_len, uint16 data_len) reads back the same, and any 4 bytes re-encode to themselves |
| Rpc.Encode | lib/rpc.h:15-34 | a frame has a wire image exactly when its name fits 255 bytes and its payload 65535, and that image is header + name + payload long |
| Rpc.Decode | lib/rpc.h:15-34 | a frame read from a stream fits its header fields and took header + name + payload bytes |
| Rpc.RoundTrip | lib/rpc.h:15-34 | decoding an encoded frame, whatever follows it, gives back the frame and its length |
| Rpc.TruncatedIsShortRead | lib/rpc.h:15-34 | a stream cut inside a frame reads as a short read |
| Rpc.SentBytes | lib/rpc.h:38-44 | the count rpc_send reports is the length of the frame's wire image |
| Rpc.EmptyResponse | thread.c:596-598 | the failure reply is a RESPONSE with the same name and no payload |
| Rpc.ReplyFrame | thread.c:596-598 | the reply is a RESPONSE under the request's name, carrying the handler's payload or nothing |
| Dispatch.FindName | thread.c:575-594 | the entry run is the first whose name equals the request's; there is none exactly when no name equals it |
| Dispatch.ScanTable | source/modemd/thread.c:512-526 | the table walk stops at exactly the entry FindName describes |
| LegacyThread.Int16Of | thread.c:180 | the int16 dBm field keeps every value in range unchanged |
| LegacyThread.Dbm | thread.c:180 | for rssi >= 0, dBm is 0 exactly when rssi exceeds 31; for rssi 0..31 it lies in -113..-51 |
| LegacyThread.Level | thread.c:183-189 | the level is at most 5 and is 0 exactly when dBm is 0 |
| LegacyThread.LevelIsBand | thread.c:183-189 | the level equals the band dBm falls into (below -95, -85, -73, -65, or above), lies in 0..5, and is 0 exactly when dBm is 0 |
| LegacyThread.DbmOfRssi | thread.c:180 | dBm is 0 for rssi above 31 and 2·rssi - 113 otherwise: 0 exactly when rssi exceeds 31, else within -113..-51 |
| LegacyThread.LevelOfRssi | thread.c:176-189 | every rssi 0..31 reports a level of at least 1, and a stronger rssi never reports a lower level |
| LegacyThread.SignalOf | thread.c:176-189 | the signal record has a level in 0..5 that is 0 exactly when dBm is 0 |
| LegacyThread.GetImei | thread.c:128-137 | sends AT+CGSN; replies with exactly group 1 of the answer, and fails without one |
| LegacyThread.GetSignalQuality | thread.c:167-191 | sends AT+CSQ; the 3-byte reply decodes to the signal computed from atoi of the rssi cut into a 16-byte buffer |
| LegacyThread.GetNetworkTime | thread.c:209-222 | sends AT!TIME?; the 8-byte reply reads back as the converted time |
| LegacyThread.GetOperatorName | thread.c:239-256 | sends AT+COPS=3,0 and, only if that is answered, AT+COPS?; replies with group 1 of the second answer |
| LegacyThread.GetNetworkType | thread.c:284-294 | sends AT*CNTI=0; replies with group 1 of the answer |
| LegacyThread.CpwdCommand | thread.c:313 | the +CPWD command (section 7.5 of 3GPP TS 27.007) built from the two PIN fields fits the 256-byte buffer |
| LegacyThread.CpwdOfTerminatedPins | thread.c:313 | when the PIN fields are terminated, the command carries exactly the old and new PIN |
| LegacyThread.ChangePin | thread.c:310-321 | a payload that is not 32 bytes sends nothing and fails; otherwise the command is sent and the answer text is the reply |
| LegacyThread.GetFwVersion | thread.c:339-357 | sends AT+CGMR; the 264-byte record holds the firmware cut into its field with a terminator, then the release time |
| LegacyThread.AtCommand | thread.c:405-420 | sends the payload followed by CR LF, and nothing when malloc fails; replies with the answer text |
| LegacyThread.AtCommandOfText | thread.c:408-409 | a payload without NUL bytes is sent verbatim followed by CR LF |
| LegacyThread.GetCellId | thread.c:436-446 | sends AT!GSMINFO?; the 4-byte reply is atoi of the cut cell id stored as an int32 |
| LegacyThread.InfoLenAsWritten | thread.c:373 | as written, the length handed to rpc_create is never 0, whatever usb_device_get_info returned |
| LegacyThread.InfoAsWrittenReadsNull | thread.c:372-373 | as written, a NULL modem_info_t is handed on with 524 bytes to copy from it |
| LegacyThread.InfoLen | thread.c:373 | corrected: the length is exactly the number of bytes the result holds, 0 for NULL |
| LegacyThread.GetInfo | thread.c:367-378 | corrected: the reply is the modem_info_t when there is one and empty for NULL |
| LegacyThread.OpenByPort | thread.c:80-106 | without an AT port nothing changes and the call fails; otherwise the port, cut to 255 bytes and to its field, is remembered and mc7700_open's result is the reply |
| LegacyThread.LastErrorAfterQuery | thread.c:518-519 | last_error becomes 258 exactly when it is -1 while locked (or already 258), and changes only in that case |
| LegacyThread.GetLastError | thread.c:516-526 | replies with the possibly rewritten last_error as an int32, and keeps it |
| LegacyThread.LastErrorIdempotent | thread.c:518-525 | asking for the error twice gives the same answer and state as asking once |
| LegacyThread.OperatorScanStart | thread.c:462-479 | refused while a scan thread exists or when malloc or pthread_create fails; otherwise starts the thread on the file name cut to its buffer and replies 0 |
| LegacyThread.OperatorScanIsRunning | thread.c:496-511 | no reply without a thread; 1 while it lives; 0 once it has ended, and then the thread is forgotten |
| LegacyThread.ScanStartRefusedWhileRunning | thread.c:462-463 | a second start while a thread is known changes nothing and fails |
| LegacyThread.ScanLifecycle | thread.c:462-511 | after a start, is-running says 1 while alive, 0 once ended, and nothing after that |
| LegacyThread.TableGating | thread.c:530-552 | the table has 20 entries; the first ten are never gated and the last ten always are |
| LegacyThread.Handle | thread.c:36-526 | no handler sends a frame or touches the registration lock |
| LegacyThread.Dispatched | thread.c:575-594 | the table lookup sends no frame |
| LegacyThread.Step | thread.c:566-600 | one pass of the loop leaves a non-QUERY frame's state alone, never changes the lock, and for a QUERY appends exactly one frame, under the request's name |
| LegacyThread.Run | thread.c:562-604 | a run of the loop never changes the lock and only appends to the frames already sent |
| LegacyThread.NonQueryDropped | thread.c:566-570 | a frame that is not a QUERY changes nothing and gets no reply |
| LegacyThread.QueryAnswered | thread.c:596-600 | every QUERY gets exactly one RESPONSE, under its own name, after the earlier replies |
| LegacyThread.UnknownNameEmptyReply | thread.c:575-598 | an unknown name gets the empty RESPONSE and nothing else changes |
| LegacyThread.DispatchedUnknown | thread.c:575-594 | an unknown name runs no handler |
| LegacyThread.LockedDenies | thread.c:579-585 | while locked, a gated entry gets the empty RESPONSE without running its handler; last_error is left as it was |
| LegacyThread.UngatedRuns | thread.c:577-590 | an ungated entry runs its handler whatever the lock |
| LegacyThread.RepliesPerQuery | thread.c:562-604 | over a run, one reply is sent per QUERY read, after the replies sent before |
| LegacyThread.LastStepSent | thread.c:562-604 | the last request of a run adds one reply if it is a QUERY and none otherwise |
| LegacyThread.ClientThread.SetScanThread | thread.c:476-502 | another client thread's write to the shared thread_scan changes that field and nothing else |
| LegacyThread.ClientThread.ModemGetLastError | thread.c:516-526 | the method's reply and new state are those GetLastError specifies |
| LegacyThread.ClientThread.ModemOpenByPort | thread.c:72-110 | the method's reply and new state are those OpenByPort specifies |
| LegacyThread.ClientThread.ModemOperatorScanStart | thread.c:456-485 | the method's reply and new state are those OperatorScanStart specifies |
| LegacyThread.ClientThread.ModemOperatorScanIsRunning | thread.c:489-512 | the method's reply and new state are those OperatorScanIsRunning specifies |
| LegacyThread.ClientThread.Execute | thread.c:530-552 | running a table entry's handler has the effect Handle specifies |
| LegacyThread.ClientThread.Lookup | thread.c:572-594 | the table walk with the gating check has the effect Dispatched specifies |
| LegacyThread.ClientThread.HandleFrame | thread.c:566-603 | one pass of the receive loop has the effect Step specifies |
| LegacyThread.ClientThread.ThreadWrapper | thread.c:556-604 | serving a sequence of requests leaves the state Run specifies |
| E1550AtFunc.SysSubmodeStr | source/libmodem/modems/e1550/at_func.c:19-39 | each of the 19 names is a non-empty C string of at most 13 bytes |
| E1550AtFunc.SubmodeIndex | source/libmodem/modems/e1550/at_func.c:60-63 | every submode indexes the table in bounds; one in 0..18 indexes itself |
| E1550AtFunc.SubmodeName | source/libmodem/modems/e1550/at_func.c:62-65 | the name picked for any submode is a short C string |
| E1550AtFunc.SubmodeNames | source/libmodem/modems/e1550/at_func.c:19-39 | 9..16 name HSPA+, 17 HSPA+ (64QAM), 18 HSPA+ (MIMO), and anything outside 0..18 WCDMA |
| E1550AtFunc.SysSubmode | source/libmodem/modems/e1550/at_func.c:51-52 | 0 without an answer; for an all-digit group 1, its decimal value |
| E1550AtFunc.NetworkTypeOf | source/libmodem/modems/e1550/at_func.c:48-63 | NULL exactly when the query fails or the submode is 0; otherwise the table name of the clamped submode |
| E1550AtFunc.GetNetworkType | source/libmodem/modems/e1550/at_func.c:17-69 | sends AT^SYSINFO only with an AT channel; on success the buffer holds the name cut to len-1 and terminated, and otherwise it is untouched |
| E1550AtFunc.NetworkNameInBuffer | source/libmodem/modems/e1550/at_func.c:65-66 | the string left in the buffer is the name cut to len-1 bytes |
| E1550AtFunc.BandIndex | source/libmodem/modems/e1550/at_func.c:112-113 | "%02X" reads at most two hex digits: a field of one or two digits reads as its hex value, a longer one as the value of its first two, always below 256 |
| E1550AtFunc.BandOf | source/libmodem/modems/e1550/at_func.c:106-117 | one list item: its index is the %02X read of group 1, and its name field, terminated and of the given size, holds the trimmed group 2 cut to size - 1 bytes |
| E1550AtFunc.ParseBands | source/libmodem/modems/e1550/at_func.c:102-124 | one item per successive match; each match moves the cursor `j` forward, so there are never more items than bytes in the list |
| E1550AtFunc.GetFreqBands | source/libmodem/modems/e1550/at_func.c:73-129 | sends AT^SYSCFG=? only with an AT channel; its list is the one ParseBands describes and the count is its length; none without an answer |
| E1550AtFunc.ScanBands | source/libmodem/modems/e1550/at_func.c:102-124 | the re_parse loop leaves exactly the items ParseBands gives for the band list, one per successive match in order, and counts them |
| E1550AtFunc.ParsedBandsWellFormed | source/libmodem/modems/e1550/at_func.c:112-117 | every parsed band has an index below 256 and a terminated name field |
| E1550AtFunc.BandValue | source/libmodem/modems/e1550/at_func.c:153 | "%X" into an int: a field of up to eight digits reads as its hex value as an unsigned 32-bit number |
| E1550AtFunc.GetFreqBand | source/libmodem/modems/e1550/at_func.c:133-159 | sends AT^SYSCFG? only with an AT channel; yields -1 without a channel or an answer, and otherwise the band field cut to its 256-byte buffer read with "%X" |
| E1550AtFunc.BandFieldValue | source/libmodem/modems/e1550/at_func.c:150-154 | a band field of up to eight hex digits reads back as its value |
| E1550AtFunc.SetBandCommand | source/libmodem/modems/e1550/at_func.c:165-167 | the AT^SYSCFG=16,3,<hex>,2,4 command fits its 256-byte buffer |
| E1550AtFunc.SetFreqBand | source/libmodem/modems/e1550/at_func.c:163-170 | sends that one command and returns at_raw_ok's result |
| E1550AtFunc.BandRoundTrip | source/libmodem/modems/e1550/at_func.c:146-167 | a band written with SetBandCommand's hex field reads back as the same index |
| ModemDb.Binding | source/libmodem/modem_db.c:23-26 | an operation is bound exactly when the entry's function table names it |
| ModemDb.IfaceNum | source/libmodem/modem_db.c:17-22 | finds an interface of a protocol exactly when the entry declares one, and returns its number |
| ModemDb.Lookup | source/libmodem/modem_db.c:14-51 | finds the entry with the given ids, or none when no entry has them |
| ModemDb.RegistrySize | source/libmodem/modem_db.c:85 | modem_db_devices_cnt is 3 |
| ModemDb.IdsIdentifyEntries | source/libmodem/modem_db.c:14-51 | the (vendor id, product id) pairs are pairwise distinct and each finds its own entry |
| ModemDb.Interfaces | source/libmodem/modem_db.c:17-61 | AT on interface 0 for the E1550 and 3 for both MC77x0; QMI only on the MC7750, interface 8 |
| ModemDb.Bindings | source/libmodem/modem_db.c:23-67 | get_imei and get_network_time are bound only on the MC7750; get_imsi and get_fw_version everywhere |
| ModemDb.SharedThreadAndStrings | source/libmodem/modem_db.c:13-52 | every entry uses mc77x0_thread_reg; the E1550 entry has no vendor or product strings |
| QcqmiQueue.SessionStateMap | source/libmodem/proto/qcqmi/qcqmi_queue.c:24-34 | CONNECTED exactly for 2, CONNECTING exactly for 4, DISCONNECTED for everything else |
| QcqmiQueue.SessionStateIgnoresEndReason | source/libmodem/proto/qcqmi/qcqmi_queue.c:24-34 | the end reason never changes the state; DISCONNECTED and SUSPENDED both disconnect |
| QcqmiQueue.StrncpyImage | source/libmodem/proto/qcqmi/qcqmi_queue.c:84 | strncpy leaves the string's bytes and then zeros |
| QcqmiQueue.Strncpy | source/libmodem/proto/qcqmi/qcqmi_queue.c:84 | the copy loops leave exactly that image in the buffer |
| QcqmiQueue.KeyFor | source/libmodem/proto/qcqmi/qcqmi_queue.c:77-89 | the key is always 16 bytes ending in NUL |
| QcqmiQueue.FindDeviceKey | source/libmodem/proto/qcqmi/qcqmi_queue.c:77-89 | the search loop finds the key KeyFor describes |
| QcqmiQueue.FirstMatch | source/libmodem/proto/qcqmi/qcqmi_queue.c:78-80 | the first device whose node path equals dev |
| QcqmiQueue.KeyOfFirstMatch | source/libmodem/proto/qcqmi/qcqmi_queue.c:77-93 | the key is the first matching device's, cut to 15 bytes and terminated; it is empty exactly when none matches or that key is empty |
| QcqmiQueue.Open | source/libmodem/proto/qcqmi/qcqmi_queue.c:38-112 | a queue comes back exactly when every SDK step succeeds and the key is non-empty; connect is only tried with that key |
| QcqmiQueue.UnknownDeviceFails | source/libmodem/proto/qcqmi/qcqmi_queue.c:91-93 | with no enumerated device on the path, open fails without connecting |
| QcqmiQueue.QmiSession.constructor | source/libmodem/proto/qcqmi/qcqmi_queue.c:20 | the WWAN state starts DISCONNECTED |
| QcqmiQueue.QmiSession.CallbackSessionState | source/libmodem/proto/qcqmi/qcqmi_queue.c:24-34 | the callback stores SessionStateMap's state |
| QcqmiQueue.QmiSession.QueueOpen | source/libmodem/proto/qcqmi/qcqmi_queue.c:38-112 | returns Open's queue, and installs the callback only on success |
| QcqmiQueue.QmiSession.QueueDestroy | source/libmodem/proto/qcqmi/qcqmi_queue.c:116-130 | a NULL queue is a no-op; otherwise the callback is removed |
| ModemdThread.TextPayload | source/modemd/thread.c:120-121 | a reply exactly when the library call succeeds: the strlen bytes of the 256-byte buffer, a NUL-free prefix of it |
| ModemdThread.SignalPayload | source/modemd/thread.c:153-154 | a reply exactly when the library returns 0, decoding to the record it filled |
| ModemdThread.TimePayload | source/modemd/thread.c:169-170 | a time of 0 is failure; otherwise the 8-byte time reads back as itself |
| ModemdThread.CellIdPayload | source/modemd/thread.c:325-326 | a cell id of 0 is failure; otherwise the 4-byte id reads back as itself |
| ModemdThread.WwanPayload | source/modemd/thread.c:406-407 | start/stop wwan reply exactly when the result is 0, carrying that 0 |
| ModemdThread.OpersPayload | source/modemd/thread.c:288-289 | a reply exactly when at least one operator was found, 41 bytes per operator |
| ModemdThread.ProfilePayload | source/modemd/thread.c:390-391 | a reply exactly when the library accepts the profile; it is the packet structure, its header reading back as the request's |
| ModemdThread.Int8Byte | source/modemd/thread.c:357-359 | the int8 scan status is one byte reading back as itself |
| ModemdThread.PortName | source/modemd/thread.c:76-78 | the port is at most 255 payload bytes, up to the first NUL |
| ModemdThread.OpenByPort | source/modemd/thread.c:70-84 | the opened handle, NULL included, becomes the client's modem and is the reply |
| ModemdThread.ChangePin | source/modemd/thread.c:227-242 | a payload that is not 32 bytes fails with no library call; otherwise the payload is echoed exactly when the library returns 0 |
| ModemdThread.Handle | source/modemd/thread.c:29-460 | no handler sends a frame; every handler that needs a modem fails and changes nothing while there is none |
| ModemdThread.Dispatched | source/modemd/thread.c:512-526 | the table lookup sends no frame |
| ModemdThread.StepOfEntry | source/modemd/thread.c:515-526 | a request naming entry k is answered with what entry k's handler returns, with no gating |
| ModemdThread.FindCloseNotListed | source/modemd/thread.c:464-492 | the table has 26 entries and none is named modem_find_close |
| ModemdThread.Step | source/modemd/thread.c:506-532 | one pass of the loop leaves a non-QUERY frame's state alone and for a QUERY appends exactly one frame, under the request's name |
| ModemdThread.Run | source/modemd/thread.c:502-536 | a run of the loop only appends to the frames already sent |
| ModemdThread.NonQueryDropped | source/modemd/thread.c:506-510 | a frame that is not a QUERY changes nothing and gets no reply |
| ModemdThread.QueryAnswered | source/modemd/thread.c:528-532 | every QUERY gets exactly one RESPONSE, under its own name, after the earlier replies |
| ModemdThread.UnknownNameEmptyReply | source/modemd/thread.c:528-530 | an unknown name gets the empty RESPONSE and no library call is made |
| ModemdThread.DispatchedUnknown | source/modemd/thread.c:512-526 | an unknown name runs no handler |
| ModemdThread.FindCloseEmptyReply | source/modemd/thread.c:57-66 | a modem_find_close request always gets the empty RESPONSE and reaches no handler |
| ModemdThread.NoModemEmptyReply | source/modemd/thread.c:88-460 | without a modem, every entry but the search functions and open_by_port gets the empty RESPONSE with no library call |
| ModemdThread.OpenByPortReplaces | source/modemd/thread.c:80 | open_by_port replaces the client's modem with the opened handle, whatever it was |
| ModemdThread.CloseKeepsHandle | source/modemd/thread.c:88-96 | close replies with an empty RESPONSE but keeps the modem handle |
| ModemdThread.RepliesPerQuery | source/modemd/thread.c:502-536 | over a run, one reply is sent per QUERY read, after the replies sent before |
| ModemdThread.LastStepSent | source/modemd/thread.c:502-536 | the last request of a run adds one reply if it is a QUERY and none otherwise |
| ModemdThread.NoModemNoCalls | source/modemd/thread.c:80-460 | without a modem and without a successful open, a whole run keeps the modem NULL and makes only calls that need no modem |
| ModemdThread.ClientThread.constructor | source/modemd/thread.c:496-500 | a new client thread has no modem, has made no calls and has sent nothing |
| ModemdThread.ClientThread.ModemOpenByPort | source/modemd/thread.c:70-84 | the method's reply and new state are those OpenByPort specifies |
| ModemdThread.ClientThread.ModemChangePin | source/modemd/thread.c:227-242 | the method's reply and new state are those ChangePin specifies |
| ModemdThread.ClientThread.Execute | source/modemd/thread.c:29-460 | running a handler has the effect Handle specifies |
| ModemdThread.ClientThread.Lookup | source/modemd/thread.c:512-526 | the table walk has the effect Dispatched specifies |
| ModemdThread.ClientThread.HandleFrame | source/modemd/thread.c:504-535 | one pass of the receive loop has the effect Step specifies |
| ModemdThread.ClientThread.ThreadWrapper | source/modemd/thread.c:496-544 | serving a sequence of requests leaves the state Run specifies |

## Left out

- The AT query engine (`mc7700_query_execute`, `at_query_exec`, the reader/writer threads of `source/libmodem/proto/at/at_queue.h`) is not part of this model. Each command's outcome is an `AtReply` input: no answer, or the answer text with capture offsets inside it.
- POSIX regex compilation and matching (`regexec`, `re_parse`) are not part of this model. Capture offsets are inputs with rm_so <= rm_eo <= the answer length, and the band-list search is a function parameter whose matches end past the cursor.
- Socket I/O: the bodies of `rpc_send` and `rpc_recv`, `rpc_print`, `close` and the final `free(priv)` are not modelled. The frames read are an input sequence, and the frames sent are recorded in the thread's state.
- The `terminate` flag of both receive loops is not modelled. A run ends when its input sequence ends.
- pthread creation, kill and join in the legacy scan handlers are not modelled. Their results are inputs (`createResult`, `KillResult`), and the scan thread's own work is not modelled.
- The registration thread that sets `locked` and `last_error` is not modelled. `LegacyThread.ClientThread.SetRegistration` stands for its writes.
- Other client threads of the first daemon share `thread_scan`, `locked` and `last_error` with this one. `LegacyThread.ClientThread.SetScanThread` and `SetRegistration` stand for their writes, but the pure `Step`/`Run` specification does not interleave them between requests, and no locking or race between threads is modelled.
- LegacyThread.CpwdCommand: a `new_pin` field without a NUL is cut at the end of the 32-byte payload. The `%s` in C reads on past `p->data`; memory beyond the payload is not modelled.
- E1550AtFunc.BandValue: a band field of more than eight hex digits overflows sscanf's unsigned int, which C leaves undefined. The model keeps the value modulo 2^32.
- strptime/mktime in the network-time and firmware handlers depend on locale and timezone. The converted time is an input.
- LegacyThread.GetNetworkTime: the reply is the given time whenever there is an answer. The date text the time came from is not related to it.
- LegacyThread.GetFwVersion: the release date is the given time; only the firmware part is derived from the reply.
- The `init_port`/`sleep(20)` wake-up loop and `modem_get_at_port_name` of the legacy `open_by_port` are not modelled. The AT port they settle on is an input.
- `usb_device_get_info`, `modem_find_first`/`modem_find_next` and directory iteration enumerate hardware. Their results are inputs given as byte images, NULL included.
- `at_get_imsi`, `at_creg` and `at_operator_scan` are not part of this model. Their results are inputs, and the AT commands they send are not recorded in the legacy state.
- LegacyThread.AtCommand: the 5-second timeout the handler sets on its query is not recorded.
- The sizes of `priv->port`, `at_operator_scan_t.file` and `freq_band_t.name` are declared outside the modelled files. They are parameters (`Config`, `nameSize`).
- `trim` comes from a utility file that is not part of this model. CStr.Trim strips leading and trailing white space, as its name and use suggest.
- `__REGMATCH_N_CUT` and `re_strncpy` are defined outside the modelled files. They are taken to be the bounded copy of `regmatch_ncpy` (RegMatch.NcpySlice).
- E1550AtFunc.GetNetworkType, GetFreqBands, GetFreqBand: a malloc or realloc failure inside these functions is not modelled, nor is `at_query_is_error` beyond "no answer".
- `e1550_at_ussd_cmd` and its PDU codec are not part of this model. So is `at_raw_ok`, whose result SetFreqBand passes through.
- CStr.Atoi does not model atoi's undefined behaviour on overflow. It returns the exact value.
- Malloc failure is modelled in the legacy `modem_operator_scan_start` and `modem_at_command` (`Env.allocOk`). The other mallocs and frees in the handlers are not: `re_strdup` inside the handlers is taken to succeed.
- Platform and layout assumptions: the host is little-endian, so every integer in a payload and the header's `data_len` are written as little-endian bytes (`Common.Int32Le`, `Common.SignedLeBytes`, `Rpc.EncodeHeader`). `time_t` is 8 bytes wide (the network-time and firmware-version payloads). The byte order of a frame on the socket (header, then name, then payload) and the `OversizedField` refusal in `Rpc.Encode` are assumed: `rpc_send` and `rpc_recv` are not part of this model, and `rpc.h` declares only the in-memory structure.
- libmodem, which the second daemon calls, is not part of this model. What its calls return for one request is a `Lib` input. Records whose layout is declared outside the modelled files are given as byte images: `modem_find_first_next_t`, the modem handle, `modem_fw_ver_t`, `usb_device_info_t` and `modem_state_wwan_t`.
- `modem_find_next_packet`, `modem_find_close_packet`, `modem_set_wwan_profile_packet`, `modem_at_command_packet` and `modem_ussd_cmd_packet` read the payload without a length check. The model records the payload that is passed on; it does not model reads past a short payload.
- ModemdThread.ProfilePayload: the two pointer fields of the request structure are an input, since their values are addresses.
- Names in both `rpc_functions` tables are not proved pairwise distinct. Dispatch is specified as "first match", which is what the loops do either way.
- The vendor SDK calls of `qcqmi_queue.c` are not part of this model. These are `SLQSKillSDKProcess`, `SetSDKImagePath`, `SLQSStart`, `QCWWAN2kEnumerateDevices`, `QCWWAN2kConnect`, `QCWWANDisconnect` and `SetSessionStateCallback`. Their results are an `SdkAnswers` input. `SLQSKillSDKProcess`'s result is only printed, so it is not an input.
- The `pthread_mutex` of the QMI queue is not modelled.
- `qcqmi_queue_suspend` and `qcqmi_queue_resume` only print, so they are not modelled.
- `cli/main.c` is command-line handling and output, and is not part of this model.
- The modem handle of the second daemon is a byte image. Its width and contents are not interpreted.

## Findings

| source | as written | input that shows it | evidently intended | confidence | as-written member | corrected member |
|---|---|---|---|---|---|---|
| source/libmodem/utils/re.c:35-39 | `len = (len > n ? n - 1 : len)` then `dst[len] = 0`, with n the size of dst | a 16-byte capture cut into a 16-byte buffer (`rssi[16]`) writes the NUL at dst[16]; n = 0 wraps `n - 1` to SIZE_MAX | cut when `len >= n`, so at most n-1 bytes plus the terminator are written | not executed | RegMatch.NcpyAsWrittenOverflows | RegMatch.RegMatchNcpy |
| thread.c:373 | `sizeof(*mi) ? sizeof(*mi) : 0` as the length of the modem_get_info reply | usb_device_get_info returns NULL (no device at priv->port): rpc_create is asked to copy 524 bytes from NULL | test the pointer, `mi ? sizeof(*mi) : 0`, so a missing device gets an empty reply | not executed | LegacyThread.InfoAsWrittenReadsNull | LegacyThread.GetInfo |
