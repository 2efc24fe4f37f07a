// The registry of supported modem models (source/libmodem/modem_db.c): for
// each model its USB ids, the interfaces it exposes and which operations
// have a model-specific implementation. An operation missing from an
// entry's table is unbound for that model.

module ModemDb {
  import opened Common

  /** The protocol spoken on a USB interface. */
  datatype Proto = ProtoAt | ProtoQcqmi

  /** One interface binding: USB interface number and its protocol. */
  datatype Iface = Iface(num: nat, proto: Proto)

  /** The registration thread routine every entry names. */
  datatype ThreadReg = Mc77x0ThreadReg

  /** The abstract operations of the function table. */
  datatype Op =
    | GetImei | GetImsi | GetSignalQuality | GetNetworkTime | GetOperatorName
    | NetworkRegistration | GetNetworkType | ChangePin | GetFwVersion | OperatorScan
    | GetCellId | UssdCmd | SetWwanProfile | StartWwan | StopWwan | StateWwan

  /** The implementations the table refers to. */
  datatype Impl =
    | AtGetFwVersion | Mc77x0AtGetFwVersion | AtGetImsi
    | QcqmiGetImsi | QcqmiGetImei | QcqmiGetNetworkTime

  /** modem_db_device_t */
  datatype Device = Device(
    vendor: Option<seq<byte>>,
    product: Option<seq<byte>>,
    vendorId: uint16,
    productId: uint16,
    threadReg: ThreadReg,
    ifaces: seq<Iface>,
    functions: map<Op, Impl>)

  const SierraWireless: seq<byte> := Ascii("Sierra Wireless, Incorporated")

  const HuaweiE1550: Device := Device(
    None, None, 0x12d1, 0x1001, Mc77x0ThreadReg,
    [Iface(0, ProtoAt)],
    map[GetFwVersion := AtGetFwVersion, GetImsi := AtGetImsi])

  const SierraMc7700: Device := Device(
    Some(SierraWireless), Some(Ascii("MC7700")), 0x1199, 0x68a3, Mc77x0ThreadReg,
    [Iface(3, ProtoAt)],
    map[GetFwVersion := Mc77x0AtGetFwVersion, GetImsi := AtGetImsi])

  const SierraMc7750: Device := Device(
    Some(SierraWireless), Some(Ascii("MC7750")), 0x1199, 0x68a2, Mc77x0ThreadReg,
    [Iface(3, ProtoAt), Iface(8, ProtoQcqmi)],
    map[GetFwVersion := Mc77x0AtGetFwVersion, GetImsi := QcqmiGetImsi,
        GetImei := QcqmiGetImei, GetNetworkTime := QcqmiGetNetworkTime])

  /** modem_db_devices */
  const Devices: seq<Device> := [HuaweiE1550, SierraMc7700, SierraMc7750]

  /** modem_db_devices_cnt */
  const DevicesCnt: nat := |Devices|

  /** The implementation bound to an operation, or None when the slot is unbound. */
  function Binding(d: Device, op: Op): (r: Option<Impl>)
    ensures r.Some? <==> op in d.functions
  {
    if op in d.functions then Some(d.functions[op]) else None
  }

  /** The number of the first interface speaking the given protocol, if any. */
  function IfaceNum(ifaces: seq<Iface>, p: Proto): (r: Option<nat>)
    ensures r.None? <==> forall i | 0 <= i < |ifaces| :: ifaces[i].proto != p
    ensures r.Some? ==> exists i | 0 <= i < |ifaces| :: ifaces[i] == Iface(r.value, p)
  {
    if ifaces == [] then None
    else if ifaces[0].proto == p then Some(ifaces[0].num)
    else IfaceNum(ifaces[1..], p)
  }

  /** The index of the registry entry with these ids, if any. */
  function Lookup(vendorId: int, productId: int): (r: Option<nat>)
    ensures r.Some? ==>
      (r.value < |Devices| && Devices[r.value].vendorId == vendorId && Devices[r.value].productId == productId)
    ensures r.None? ==> forall i | 0 <= i < |Devices| ::
      Devices[i].vendorId != vendorId || Devices[i].productId != productId
  {
    if vendorId == 0x12d1 && productId == 0x1001 then Some(0)
    else if vendorId == 0x1199 && productId == 0x68a3 then Some(1)
    else if vendorId == 0x1199 && productId == 0x68a2 then Some(2)
    else None
  }

  lemma RegistrySize()
    ensures DevicesCnt == 3
  {
  }

  /** No two entries share a (vendor id, product id) pair, so each entry is found by its own ids. */
  lemma IdsIdentifyEntries()
    ensures forall i, j | 0 <= i < j < |Devices| ::
      (Devices[i].vendorId, Devices[i].productId) != (Devices[j].vendorId, Devices[j].productId)
    ensures forall i | 0 <= i < |Devices| :: Lookup(Devices[i].vendorId, Devices[i].productId) == Some(i)
  {
  }

  /** Every entry has an AT interface: number 0 on the E1550, 3 on the MC77x0; only the MC7750 has QMI, on 8. */
  lemma Interfaces()
    ensures IfaceNum(HuaweiE1550.ifaces, ProtoAt) == Some(0)
    ensures IfaceNum(SierraMc7700.ifaces, ProtoAt) == Some(3)
    ensures IfaceNum(SierraMc7750.ifaces, ProtoAt) == Some(3)
    ensures IfaceNum(SierraMc7750.ifaces, ProtoQcqmi) == Some(8)
    ensures IfaceNum(HuaweiE1550.ifaces, ProtoQcqmi) == None
    ensures IfaceNum(SierraMc7700.ifaces, ProtoQcqmi) == None
  {
  }

  /** IMEI and network time are bound only on the MC7750; IMSI and firmware version everywhere. */
  lemma Bindings()
    ensures forall i | 0 <= i < |Devices| ::
      (Binding(Devices[i], GetImei).Some? <==> i == 2) &&
      (Binding(Devices[i], GetNetworkTime).Some? <==> i == 2)
    ensures forall i | 0 <= i < |Devices| ::
      Binding(Devices[i], GetImsi).Some? && Binding(Devices[i], GetFwVersion).Some?
    ensures Binding(SierraMc7750, GetImei) == Some(QcqmiGetImei)
    ensures Binding(SierraMc7750, GetNetworkTime) == Some(QcqmiGetNetworkTime)
  {
  }

  /** All entries share the registration thread; the E1550 entry has no vendor or product strings. */
  lemma SharedThreadAndStrings()
    ensures forall i | 0 <= i < |Devices| :: Devices[i].threadReg == Mc77x0ThreadReg
    ensures HuaweiE1550.vendor.None? && HuaweiE1550.product.None?
  {
  }
}
