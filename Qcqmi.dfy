// The QMI transport's queue (source/libmodem/proto/qcqmi/qcqmi_queue.c):
// the session-state callback that keeps the WWAN state, and the opening
// sequence that finds the device's key among the devices the vendor SDK
// enumerates. Every SDK call is an oracle: its answers come in as an
// SdkAnswers value.

module QcqmiQueue {
  import opened Common
  import opened CStr

  /** modem_state_wwan_t */
  datatype WwanState = WwanDisconnected | WwanConnected | WwanConnecting

  /** The SDK's session states that the callback singles out. */
  const SessionDisconnected: int := 1
  const SessionConnected: int := 2
  const SessionSuspended: int := 3
  const SessionAuthenticating: int := 4

  /**
   * The WWAN state a session-state notification leads to. The end reason
   * is never consulted.
   */
  function SessionStateMap(state: int, endReason: int): (w: WwanState)
    ensures w == WwanConnected <==> state == SessionConnected
    ensures w == WwanConnecting <==> state == SessionAuthenticating
    ensures w == WwanDisconnected <==> state != SessionConnected && state != SessionAuthenticating
  {
    if state == SessionDisconnected || state == SessionSuspended then WwanDisconnected
    else if state == SessionConnected then WwanConnected
    else if state == SessionAuthenticating then WwanConnecting
    else WwanDisconnected
  }

  /** The end reason has no influence on the state, and DISCONNECTED and SUSPENDED both disconnect. */
  lemma SessionStateIgnoresEndReason(state: int, r1: int, r2: int)
    ensures SessionStateMap(state, r1) == SessionStateMap(state, r2)
    ensures SessionStateMap(SessionDisconnected, r1) == SessionStateMap(SessionSuspended, r2) == WwanDisconnected
  {
  }

  // -------------------------------------------------------------------
  // Device keys

  const DevPathSize: nat := 256
  const KeySize: nat := 16
  /** The enumeration buffer holds ten devices. */
  const MaxDevices: nat := 10
  /** eQCWWAN_ERR_NONE */
  const ErrNone: int := 0

  /** device_info_t: a device node path and its key, both fixed-width fields. */
  datatype DeviceInfo = DeviceInfo(dev: seq<byte>, key: seq<byte>)
  {
    predicate Valid() { |dev| == DevPathSize && |key| == KeySize }
  }

  function Zeros(n: nat): (z: seq<byte>)
    ensures |z| == n && forall i | 0 <= i < n :: z[i] == NUL
  {
    seq(n, _ => NUL)
  }

  /** What strncpy(dst, src, n) leaves in an n-byte destination. */
  function StrncpyImage(src: seq<byte>, n: nat): (d: seq<byte>)
    requires n <= |src|
    ensures |d| == n
    ensures forall i | 0 <= i < n :: d[i] == (if i < CLen(src) then src[i] else NUL)
  {
    seq(n, i requires 0 <= i < n => if i < CLen(src) then src[i] else NUL)
  }

  /**
   * The key the opening sequence settles on: that of the first enumerated
   * device whose node path equals dev, cut to fifteen bytes and
   * terminated; sixteen zero bytes when no device matches.
   */
  function KeyFor(devices: seq<DeviceInfo>, dev: seq<byte>): (k: seq<byte>)
    requires forall i | 0 <= i < |devices| :: devices[i].Valid()
    ensures |k| == KeySize && k[KeySize - 1] == NUL
  {
    if devices == [] then Zeros(KeySize)
    else if CString(devices[0].dev) == dev then FieldCopy(devices[0].key, KeySize)
    else KeyFor(devices[1..], dev)
  }

  /** strncpy into a buffer: the string, then zeros up to the buffer's end. */
  method Strncpy(dst: array<byte>, src: seq<byte>)
    requires dst.Length <= |src|
    modifies dst
    ensures dst[..] == StrncpyImage(src, dst.Length)
  {
    var j := 0;
    while j < dst.Length && src[j] != NUL
      invariant 0 <= j <= dst.Length
      invariant j <= CLen(src)
      invariant forall k | 0 <= k < j :: dst[k] == src[k]
    {
      dst[j] := src[j];
      j := j + 1;
    }
    var m := j;
    while j < dst.Length
      invariant m <= j <= dst.Length
      invariant forall k | 0 <= k < m :: dst[k] == src[k]
      invariant forall k | m <= k < j :: dst[k] == NUL
    {
      dst[j] := NUL;
      j := j + 1;
    }
    assert m == dst.Length || m == CLen(src);
  }

  /** The key search of qcqmi_queue_open: the first device with the given node path wins. */
  method FindDeviceKey(devices: seq<DeviceInfo>, dev: seq<byte>) returns (key: seq<byte>)
    requires |devices| <= MaxDevices
    requires forall i | 0 <= i < |devices| :: devices[i].Valid()
    ensures key == KeyFor(devices, dev)
  {
    var buf := new byte[KeySize](_ => NUL);
    var i := 0;
    while i < |devices|
      invariant 0 <= i <= |devices|
      invariant buf[..] == Zeros(KeySize)
      invariant KeyFor(devices[i..], dev) == KeyFor(devices, dev)
    {
      assert devices[i..][1..] == devices[i + 1..];
      if CString(devices[i].dev) == dev {
        Strncpy(buf, devices[i].key);
        buf[KeySize - 1] := NUL;
        var src := devices[i].key;
        assert forall k | 0 <= k < KeySize :: buf[k] == FieldCopy(src, KeySize)[k];
        key := buf[..];
        return;
      }
      i := i + 1;
    }
    key := buf[..];
  }

  /** The index of the first device, from i on, whose node path equals dev. */
  function FirstMatch(devices: seq<DeviceInfo>, dev: seq<byte>, i: nat): (r: Option<nat>)
    requires i <= |devices|
    ensures r.Some? ==> i <= r.value < |devices| && CString(devices[r.value].dev) == dev
    ensures r.Some? ==> forall j | i <= j < r.value :: CString(devices[j].dev) != dev
    ensures r.None? ==> forall j | i <= j < |devices| :: CString(devices[j].dev) != dev
    decreases |devices| - i
  {
    if i == |devices| then None
    else if CString(devices[i].dev) == dev then Some(i)
    else FirstMatch(devices, dev, i + 1)
  }

  /**
   * KeyFor takes the key of the first matching device, and the key comes
   * out empty exactly when no device matches or that device's key field
   * starts with NUL.
   */
  lemma {:induction false} KeyOfFirstMatch(devices: seq<DeviceInfo>, dev: seq<byte>, i: nat)
    requires forall j | 0 <= j < |devices| :: devices[j].Valid()
    requires i <= |devices|
    ensures KeyFor(devices[i..], dev) ==
      match FirstMatch(devices, dev, i)
      case None => Zeros(KeySize)
      case Some(m) => FieldCopy(devices[m].key, KeySize)
    ensures KeyFor(devices[i..], dev)[0] == NUL <==>
      FirstMatch(devices, dev, i).None? || devices[FirstMatch(devices, dev, i).value].key[0] == NUL
    decreases |devices| - i
  {
    if i < |devices| {
      assert devices[i..][0] == devices[i];
      assert devices[i..][1..] == devices[i + 1..];
      if CString(devices[i].dev) != dev {
        KeyOfFirstMatch(devices, dev, i + 1);
      }
    }
  }

  // -------------------------------------------------------------------
  // Opening and closing

  /** The answers of the SDK calls one qcqmi_queue_open makes. */
  datatype SdkAnswers = SdkAnswers(
    imagePathErr: int,
    startErr: int,
    allocOk: bool,
    enumerateErr: int,
    devices: seq<DeviceInfo>,
    connectErr: int)
  {
    predicate Valid() {
      |devices| <= MaxDevices && forall i | 0 <= i < |devices| :: devices[i].Valid()
    }
  }

  /** qcqmi_queue_t as far as the model sees it: the last SDK error. */
  datatype Queue = Queue(lastError: int)

  /** The outcome of an open: the queue, and the key passed to the connect call when it was made. */
  datatype OpenOutcome = OpenOutcome(queue: Option<Queue>, connectKey: Option<seq<byte>>)

  /** The opening sequence, with the key found as KeyFor describes. */
  function Open(sdk: SdkAnswers, dev: seq<byte>): (r: OpenOutcome)
    requires sdk.Valid()
    ensures r.queue.Some? <==>
      sdk.imagePathErr == ErrNone && sdk.startErr == ErrNone && sdk.allocOk
      && sdk.enumerateErr == ErrNone && KeyFor(sdk.devices, dev)[0] != NUL
      && sdk.connectErr == ErrNone
    ensures r.queue.Some? ==> r.queue.value.lastError == ErrNone
    ensures r.connectKey.Some? ==> r.connectKey.value == KeyFor(sdk.devices, dev) && r.connectKey.value[0] != NUL
  {
    if sdk.imagePathErr != ErrNone || sdk.startErr != ErrNone || !sdk.allocOk then OpenOutcome(None, None)
    else if sdk.enumerateErr != ErrNone then OpenOutcome(None, None)
    else
      var key := KeyFor(sdk.devices, dev);
      if key[0] == NUL then OpenOutcome(None, None)
      else if sdk.connectErr != ErrNone then OpenOutcome(None, Some(key))
      else OpenOutcome(Some(Queue(ErrNone)), Some(key))
  }

  /** When no enumerated device has the node path, open fails without connecting. */
  lemma {:induction false} UnknownDeviceFails(sdk: SdkAnswers, dev: seq<byte>)
    requires sdk.Valid()
    requires forall i | 0 <= i < |sdk.devices| :: CString(sdk.devices[i].dev) != dev
    ensures Open(sdk, dev) == OpenOutcome(None, None)
  {
    KeyOfFirstMatch(sdk.devices, dev, 0);
    assert sdk.devices[0..] == sdk.devices;
  }

  /**
   * The state the module keeps outside any queue: the WWAN state the
   * callback writes, and whether the SDK currently holds the callback.
   */
  class QmiSession {
    var stateWwan: WwanState
    var callbackInstalled: bool

    constructor()
      ensures stateWwan == WwanDisconnected && !callbackInstalled
    {
      stateWwan := WwanDisconnected;
      callbackInstalled := false;
    }

    /** CallbackSessionState */
    method CallbackSessionState(state: int, endReason: int)
      modifies this
      ensures stateWwan == SessionStateMap(state, endReason)
      ensures callbackInstalled == old(callbackInstalled)
    {
      if state == SessionDisconnected || state == SessionSuspended {
        stateWwan := WwanDisconnected;
      } else if state == SessionConnected {
        stateWwan := WwanConnected;
      } else if state == SessionAuthenticating {
        stateWwan := WwanConnecting;
      } else {
        stateWwan := WwanDisconnected;
      }
    }

    /** qcqmi_queue_open: a queue is returned, and the callback installed, only when every step succeeds. */
    method QueueOpen(sdk: SdkAnswers, dev: seq<byte>) returns (q: Option<Queue>)
      requires sdk.Valid()
      modifies this
      ensures q == Open(sdk, dev).queue
      ensures callbackInstalled == (old(callbackInstalled) || q.Some?)
      ensures stateWwan == old(stateWwan)
    {
      if sdk.imagePathErr != ErrNone || sdk.startErr != ErrNone || !sdk.allocOk {
        return None;
      }
      var res := Queue(sdk.enumerateErr);
      if res.lastError != ErrNone {
        return None;
      }
      var key := FindDeviceKey(sdk.devices, dev);
      if key[0] == NUL {
        return None;
      }
      res := Queue(sdk.connectErr);
      if res.lastError != ErrNone {
        return None;
      }
      callbackInstalled := true;
      return Some(res);
    }

    /** qcqmi_queue_destroy: nothing happens for a null queue; otherwise the callback is removed. */
    method QueueDestroy(q: Option<Queue>)
      modifies this
      ensures q.None? ==> callbackInstalled == old(callbackInstalled)
      ensures q.Some? ==> !callbackInstalled
      ensures stateWwan == old(stateWwan)
    {
      if q.None? {
        return;
      }
      callbackInstalled := false;
    }
  }
}
