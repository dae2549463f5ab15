/** Bluetooth service class identifiers as `java.util.UUID` values, and the
    expansion of a 16-bit assigned number over the Bluetooth Base UUID
    (Bluetooth Core Specification, Vol 3, Part B, section 2.5.1). */
module BluetoothUuid {

  const TwoTo32: nat := 0x1_0000_0000
  const TwoTo64: nat := 0x1_0000_0000_0000_0000

  /** A UUID as its two 64-bit halves, read unsigned (Java keeps them as
      signed longs, so the SPP UUID's low half is negative there). */
  datatype Uuid = Uuid(mostSigBits: nat, leastSigBits: nat)

  /** The 128-bit number a UUID denotes. */
  function Value(u: Uuid): nat
  {
    u.mostSigBits * TwoTo64 + u.leastSigBits
  }

  predicate WellFormed(u: Uuid)
  {
    u.mostSigBits < TwoTo64 && u.leastSigBits < TwoTo64
  }

  /** 00000000-0000-1000-8000-00805F9B34FB */
  const BaseUuid: Uuid := Uuid(0x0000_0000_0000_1000, 0x8000_0080_5F9B_34FB)

  /** The Serial Port service class, assigned number 0x1101. */
  const SerialPortServiceClass: nat := 0x1101

  /** The constant the controller opens its RFCOMM socket with:
      `UUID.fromString("00001101-0000-1000-8000-00805F9B34FB")`. */
  const SppUuid: Uuid := Uuid(0x0000_1101_0000_1000, 0x8000_0080_5F9B_34FB)

  /** A 16-bit assigned number occupies bits 96..111 of the Base UUID. */
  function FromShort(short: nat): (u: Uuid)
    requires short < 0x1_0000
    ensures WellFormed(u)
    ensures Value(u) == Value(BaseUuid) + short * TwoTo32 * TwoTo64
  {
    Uuid(BaseUuid.mostSigBits + short * TwoTo32, BaseUuid.leastSigBits)
  }

  /** The controller's UUID is exactly the Serial Port Profile identifier. */
  lemma SppIsSerialPort()
    ensures SppUuid == FromShort(SerialPortServiceClass)
    ensures WellFormed(SppUuid)
  {
  }
}
