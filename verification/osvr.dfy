/**
 * The OSVR SDK driver (src/drv_osvr_sdk/osvr.c): the float property query
 * over the last pose state fetched from the OSVR client, the refresh of that
 * state, enumeration of the single OSVR device and the driver record.
 */
module Osvr {
  import opened Floats
  import opened Ohmd
  import opened Wrappers

  /** An `OSVR_PoseState`: a translation and a rotation. */
  datatype PoseState = PoseState(translation: Vec3, rotation: Quat)

  /**
   * The floats `getf` leaves in `out` for a kind: the rotation as X, Y, Z, W
   * (W last), the translation as X, Y, Z, six zeros for distortion.
   */
  function OsvrFloats(kind: FloatKind, state: PoseState): (r: seq<Flt>)
    ensures |r| == FloatCount(kind)
  {
    match kind
    case RotationQuat => [state.rotation.x, state.rotation.y, state.rotation.z, state.rotation.w]
    case PositionVector => [state.translation.x, state.translation.y, state.translation.z]
    case DistortionK => Zeros(6)
    case OtherKind(_) => []
  }

  /** An `osvr_sdk_priv`: the last pose state and the context errors go to. */
  class OsvrDevice {
    var state: PoseState
    const ctx: Context

    /**
     * `ctx` is the context `getf` records errors in. osvr.c never sets the
     * device's context (nor the driver's), so it is taken as given here.
     */
    constructor (ctx: Context, state: PoseState)
      ensures this.ctx == ctx && this.state == state
    {
      this.ctx := ctx;
      this.state := state;
    }

    /**
     * `getf`: copies the stored rotation or translation component by
     * component, zero-fills six floats for distortion, and for any other kind
     * records an error and writes nothing.
     */
    method Getf(kind: FloatKind, out: array<Flt>) returns (ret: int)
      requires FloatCount(kind) <= out.Length
      modifies out, ctx
      ensures ret == if kind.OtherKind? then -1 else 0
      ensures out[..] == Overwrite(old(out[..]), OsvrFloats(kind, state))
      ensures ctx.error == if kind.OtherKind? then GetfError(kind.code) else old(ctx.error)
    {
      match kind {
        case RotationQuat =>
          out[0] := state.rotation.x;
          out[1] := state.rotation.y;
          out[2] := state.rotation.z;
          out[3] := state.rotation.w;
        case PositionVector =>
          out[0] := state.translation.x;
          out[1] := state.translation.y;
          out[2] := state.translation.z;
        case DistortionK =>
          for i := 0 to 6
            modifies out
            invariant forall j :: 0 <= j < i ==> out[j] == Zero
            invariant forall j :: 6 <= j < out.Length ==> out[j] == old(out[j])
          {
            out[i] := Zero;
          }
        case OtherKind(code) =>
          ctx.error := GetfError(code);
          return -1;
      }
      return 0;
    }
  }

  /**
   * `update_device`: a null device is ignored; otherwise the device's state
   * becomes what the OSVR client reports (`fetched`).
   */
  method UpdateDevice(device: OsvrDevice?, fetched: PoseState)
    modifies device
    ensures device != null ==> device.state == fetched
  {
    if device == null {
      return;
    }
    device.state := fetched;
  }

  /** The descriptor `get_device_list` leaves in the slot it takes: the fields it does not set keep their value. */
  function OsvrDescriptor(slot: DeviceDesc, driver: DriverId): DeviceDesc
  {
    slot.(driver := "OpenHMD OSVR SDK Driver", vendor := "OpenHMD", product := "OSVR Device",
          path := "(none)", driverPtr := driver)
  }

  /** `get_device_list`: always exactly one more device, in the next free slot. */
  method GetDeviceList(driver: DriverId, list: DeviceList)
    requires list.Valid() && list.Room() >= 1
    modifies list, list.devices
    ensures list.Valid() && list.devices == old(list.devices)
    ensures list.numDevices == old(list.numDevices) + 1
    ensures list.devices[old(list.numDevices)] == OsvrDescriptor(old(list.devices[list.numDevices]), driver)
    ensures forall i :: 0 <= i < list.devices.Length && i != old(list.numDevices) ==>
              list.devices[i] == old(list.devices[i])
    ensures list.Listed() == old(list.Listed()) + [OsvrDescriptor(old(list.devices[list.numDevices]), driver)]
  {
    var slot := list.numDevices;
    list.numDevices := list.numDevices + 1;
    var desc := list.devices[slot];

    desc := desc.(driver := "OpenHMD OSVR SDK Driver");
    desc := desc.(vendor := "OpenHMD");
    desc := desc.(product := "OSVR Device");

    desc := desc.(path := "(none)");

    desc := desc.(driverPtr := driver);
    list.devices[slot] := desc;
  }

  /**
   * `ohmd_create_osvr_sdk_drv`: no record when allocation fails, else all
   * three callbacks (the repeated assignments of two of them change nothing);
   * unlike the Vive driver it does not store the context.
   */
  function CreateDriver(allocOk: bool): (r: Option<DriverRecord>)
    ensures r.None? <==> !allocOk
    ensures r.Some? ==> r.value.callbacks == {GetDeviceListFn, OpenDeviceFn, DestroyFn}
    ensures r.Some? ==> r.value.ctx.None?
  {
    if !allocOk then None
    else Some(DriverRecord({GetDeviceListFn, OpenDeviceFn, DestroyFn}, None))
  }
}
