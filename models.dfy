/** The transport-independent records shared by both backends. */
module Models {
  import opened Wrappers
  import opened JsonValues

  /** One observed state of a thermostat. Every field may be absent (Python None). */
  datatype TerneoTelemetry = TerneoTelemetry(
    currentTemperature: Option<real>,
    targetTemperature: Option<int>,
    heating: Option<bool>,
    powerOff: Option<bool>)

  /** A device seen on the local network. The annotations say `str`, but nothing enforces
      them: discovery stores whatever the announcement's "sn" held (JNull when it is missing). */
  datatype TerneoDevice = TerneoDevice(ip: Json, serialNumber: Json)

  /** The right operand of `device == other`: another TerneoDevice or any other value. */
  datatype Operand = DeviceOperand(device: TerneoDevice) | OtherOperand(value: Json)

  /** `TerneoDevice.__eq__`: both the address and the serial number must be equal. */
  predicate Equals(self: TerneoDevice, other: Operand): (b: bool)
    ensures b ==> other.DeviceOperand? && PyEq(self.serialNumber, other.device.serialNumber)
  {
    match other
    case DeviceOperand(d) => PyEq(self.ip, d.ip) && PyEq(self.serialNumber, d.serialNumber)
    case OtherOperand(_) => false
  }

  /** Two devices with equal serials but different addresses are different devices. */
  lemma EqualsNeedsBothFields(a: TerneoDevice, b: TerneoDevice)
    ensures Equals(a, DeviceOperand(b)) <==> PyEq(a.ip, b.ip) && PyEq(a.serialNumber, b.serialNumber)
    ensures !PyEq(a.ip, b.ip) ==> !Equals(a, DeviceOperand(b))
  {
  }

  lemma NeverEqualsOtherValue(a: TerneoDevice, v: Json)
    ensures !Equals(a, OtherOperand(v))
  {
  }

  lemma EqualsReflexive(a: TerneoDevice)
    ensures Equals(a, DeviceOperand(a))
  {
    PyEqReflexive(a.ip);
    PyEqReflexive(a.serialNumber);
  }

  lemma EqualsSymmetric(a: TerneoDevice, b: TerneoDevice)
    requires Equals(a, DeviceOperand(b))
    ensures Equals(b, DeviceOperand(a))
  {
    PyEqSymmetric(a.ip, b.ip);
    PyEqSymmetric(a.serialNumber, b.serialNumber);
  }
}
