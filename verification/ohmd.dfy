/**
 * The parts of OpenHMD's driver interface that both drivers share: the float
 * property kinds a device answers, the error slot of the context, the device
 * descriptors a driver appends during enumeration, and the driver record.
 * (The header that declares them, openhmdi.h, is not part of this model; only
 * the names the drivers use appear here.)
 */
module Ohmd {
  import opened Floats
  import opened Decimal
  import opened CInt
  import opened Wrappers

  /**
   * The `ohmd_float_value` a caller asks for; any other enumerator by its
   * code. The numbers of the three named kinds are set in openhmd.h, which is
   * not part of this model, so nothing here stops an `OtherKind` from carrying
   * one of them; such a value stands for no kind the drivers receive.
   */
  datatype FloatKind = RotationQuat | PositionVector | DistortionK | OtherKind(code: int)

  /** How many floats a driver writes into `out` for a kind (none for an unknown kind). */
  function FloatCount(kind: FloatKind): nat
  {
    match kind
    case RotationQuat => 4
    case PositionVector => 3
    case DistortionK => 6
    case OtherKind(_) => 0
  }

  /**
   * The text `ohmd_set_error(ctx, "invalid type given to getf (%ud)", type)`
   * records: `%u` prints the kind as an unsigned number and the `d` that
   * follows is literal. The number can be read back from the message.
   */
  function GetfError(code: int): (msg: string)
    ensures |msg| > 30 && msg[..28] == "invalid type given to getf ("
    ensures Atoi(msg[28..]) == ToU32(code)
  {
    var digits := DecimalString(ToU32(code));
    var msg := "invalid type given to getf (" + digits + "d)";
    assert msg[28..] == digits + "d)";
    AtoiOfDigitsThenText(digits, "d)");
    DigitsValueOfDecimal(ToU32(code));
    msg
  }

  /** The buffer after the first `|vals|` floats were stored: the rest is untouched. */
  function Overwrite(buf: seq<Flt>, vals: seq<Flt>): (r: seq<Flt>)
    requires |vals| <= |buf|
    ensures |r| == |buf|
    ensures forall i :: 0 <= i < |vals| ==> r[i] == vals[i]
    ensures forall i :: |vals| <= i < |buf| ==> r[i] == buf[i]
  {
    vals + buf[|vals|..]
  }

  /** The error state of an `ohmd_context`. */
  class Context {
    var error: string

    constructor ()
      ensures error == ""
    {
      error := "";
    }
  }

  datatype DeviceClass = HmdClass | ControllerClass | GenericTrackerClass

  datatype DeviceFlag = NullDevice | PositionalTracking | RotationalTracking | LeftController | RightController

  /** Identity of an `ohmd_driver` (the `driver_ptr` of a descriptor). */
  type DriverId = nat

  /** An `ohmd_device_desc`. */
  datatype DeviceDesc = DeviceDesc(
    driver: string,
    vendor: string,
    product: string,
    path: string,
    revision: int,
    driverPtr: DriverId,
    deviceClass: DeviceClass,
    deviceFlags: set<DeviceFlag>)

  /** An `ohmd_device_list`: a fixed array of descriptors and the number in use. */
  class DeviceList {
    var devices: array<DeviceDesc>
    var numDevices: nat

    ghost predicate Valid()
      reads this
    {
      numDevices <= devices.Length
    }

    /** The descriptors in use. */
    ghost function Listed(): seq<DeviceDesc>
      reads this, devices
      requires Valid()
    {
      devices[..numDevices]
    }

    /** How many more descriptors fit. */
    function Room(): nat
      reads this
      requires Valid()
    {
      devices.Length - numDevices
    }

    constructor (capacity: nat, blank: DeviceDesc)
      ensures Valid() && fresh(devices)
      ensures devices.Length == capacity && numDevices == 0
      ensures forall i :: 0 <= i < capacity ==> devices[i] == blank
    {
      devices := new DeviceDesc[capacity](_ => blank);
      numDevices := 0;
    }
  }

  /** A driver's callbacks. */
  datatype Callback = GetDeviceListFn | OpenDeviceFn | DestroyFn

  /** An `ohmd_driver` as a driver's create function fills it in. */
  datatype DriverRecord = DriverRecord(callbacks: set<Callback>, ctx: Option<nat>)
}
