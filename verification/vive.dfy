/**
 * The HTC Vive driver (src/drv_htc_vive/vive.c): the float property query,
 * the plausibility filter through which libsurvive's raw HMD poses reach the
 * file-level published pose, device enumeration and the driver record.
 */
module Vive {
  import opened Floats
  import opened CInt
  import opened Decimal
  import opened Ohmd
  import opened Wrappers

  /** The USB ids the driver enumerates: HTC's vendor id and the Vive HMD's product id. */
  const HtcId: int := 0x0bb4
  const ViveHmdId: int := 0x2c87

  // ---------------------------------------------------------------------------
  // The published pose

  /**
   * The file-level buffers `libsurvive_pos[3]` and `libsurvive_quat[4]`:
   * written by the raw-pose callback, read by `getf`. Static storage starts
   * zeroed.
   */
  class SurvivePose {
    const pos: array<Flt>
    const quat: array<Flt>

    ghost predicate Valid()
      reads this
    {
      pos.Length == 3 && quat.Length == 4
    }

    ghost function Value(): PoseValue
      reads this, pos, quat
    {
      PoseValue(pos[..], quat[..])
    }

    constructor ()
      ensures Valid() && fresh(pos) && fresh(quat)
      ensures Value() == PoseValue(Zeros(3), Zeros(4))
    {
      pos := new Flt[3](_ => Zero);
      quat := new Flt[4](_ => Zero);
    }
  }

  /** The contents of the published pose. */
  datatype PoseValue = PoseValue(pos: seq<Flt>, quat: seq<Flt>)

  /** The part of a `SurviveObject` the callback looks at. */
  datatype SurviveObject = SurviveObject(codename: string)

  /** One call of the raw-pose callback: the object, the lighthouse and the pose it reports. */
  datatype RawPose = RawPose(so: SurviveObject, lighthouse: U8, pos: seq<Flt>, quat: seq<Flt>)
  {
    ghost predicate WellFormed() { |pos| >= 3 && |quat| >= 4 }
  }

  /** `x < -10 || x > 10`, as C evaluates it; NaN is never out of range. */
  predicate OutOfRange(x: Flt)
  {
    Less(x, -10.0) || Greater(x, 10.0)
  }

  /** A component the filter lets through. */
  lemma NotOutOfRange(x: Flt)
    ensures !OutOfRange(x) <==> x.NaN? || (x.Finite? && -10.0 <= x.value <= 10.0)
  {
  }

  /** The callback's test: the HMD, seen from lighthouse 0, with no component out of range. */
  predicate Accepts(e: RawPose)
    requires e.WellFormed()
  {
    && e.so.codename == "HMD"
    && e.lighthouse == 0
    && (forall i :: 0 <= i < 3 ==> !OutOfRange(e.pos[i]))
    && (forall i :: 0 <= i < 4 ==> !OutOfRange(e.quat[i]))
  }

  /** The published pose after one callback. */
  function AfterRawPose(p: PoseValue, e: RawPose): (r: PoseValue)
    requires e.WellFormed()
  {
    if Accepts(e) then PoseValue(e.pos[..3], e.quat[..4]) else p
  }

  /**
   * `testprog_raw_pose_process`: the component checks run in order and the
   * first component out of range abandons the update; only a pose that passes
   * every check is copied into the published buffers.
   */
  method RawPoseProcess(g: SurvivePose, so: SurviveObject, lighthouse: U8, pos: seq<Flt>, quat: seq<Flt>)
    requires g.Valid() && |pos| >= 3 && |quat| >= 4
    modifies g.pos, g.quat
    ensures g.Value() == AfterRawPose(old(g.Value()), RawPose(so, lighthouse, pos, quat))
  {
    if so.codename == "HMD" && lighthouse == 0 {
      for i := 0 to 3
        invariant forall j :: 0 <= j < i ==> !OutOfRange(pos[j])
      {
        if Less(pos[i], -10.0) || Greater(pos[i], 10.0) {
          return;
        }
      }
      for i := 0 to 4
        invariant forall j :: 0 <= j < i ==> !OutOfRange(quat[j])
      {
        if Less(quat[i], -10.0) || Greater(quat[i], 10.0) {
          return;
        }
      }
      g.pos[0] := pos[0];
      g.pos[1] := pos[1];
      g.pos[2] := pos[2];

      g.quat[0] := quat[0];
      g.quat[1] := quat[1];
      g.quat[2] := quat[2];
      g.quat[3] := quat[3];
    }
  }

  /** The published pose after a sequence of callbacks, oldest first. */
  function Replay(p: PoseValue, events: seq<RawPose>): PoseValue
    requires forall k :: 0 <= k < |events| ==> events[k].WellFormed()
  {
    if events == [] then p
    else AfterRawPose(Replay(p, events[..|events| - 1]), events[|events| - 1])
  }

  /**
   * The published pose is the pose of the last accepted callback, or the
   * starting pose when no callback was accepted.
   */
  lemma {:induction false} ReplayIsLastAccepted(p: PoseValue, events: seq<RawPose>)
    requires forall k :: 0 <= k < |events| ==> events[k].WellFormed()
    ensures (forall k :: 0 <= k < |events| ==> !Accepts(events[k])) ==> Replay(p, events) == p
    ensures forall k :: 0 <= k < |events| && Accepts(events[k]) &&
                        (forall j :: k < j < |events| ==> !Accepts(events[j])) ==>
              Replay(p, events) == PoseValue(events[k].pos[..3], events[k].quat[..4])
  {
    if events != [] {
      var n := |events| - 1;
      var front := events[..n];
      assert forall k :: 0 <= k < n ==> front[k] == events[k];
      ReplayIsLastAccepted(p, front);
    }
  }

  /** Every component is a number in [-10, 10] or NaN. */
  ghost predicate InRange(p: PoseValue)
  {
    |p.pos| == 3 && |p.quat| == 4 &&
    (forall i :: 0 <= i < 3 ==> !OutOfRange(p.pos[i])) &&
    (forall i :: 0 <= i < 4 ==> !OutOfRange(p.quat[i]))
  }

  /**
   * From the zeroed start, whatever libsurvive reports, the published pose
   * never holds a component outside [-10, 10].
   */
  lemma {:induction false} PublishedPoseStaysInRange(events: seq<RawPose>)
    requires forall k :: 0 <= k < |events| ==> events[k].WellFormed()
    ensures InRange(Replay(PoseValue(Zeros(3), Zeros(4)), events))
  {
    if events != [] {
      var n := |events| - 1;
      PublishedPoseStaysInRange(events[..n]);
    }
  }

  // ---------------------------------------------------------------------------
  // The device

  /** The floats `getf` leaves in `out` for a kind, read from the published pose. */
  function ViveFloats(kind: FloatKind, pos: seq<Flt>, quat: seq<Flt>): (r: seq<Flt>)
    requires |pos| == 3 && |quat| == 4
    ensures |r| == FloatCount(kind)
  {
    match kind
    case RotationQuat => quat
    case PositionVector => pos
    case DistortionK => Zeros(6)
    case OtherKind(_) => []
  }

  /** A `vive_priv`: the device's own (unused) pose and its context. */
  class ViveDevice {
    var rot: Quat
    var pos: Vec3
    const ctx: Context
    const published: SurvivePose

    constructor (ctx: Context, published: SurvivePose, rot: Quat, pos: Vec3)
      ensures this.ctx == ctx && this.published == published
      ensures this.rot == rot && this.pos == pos
    {
      this.ctx := ctx;
      this.published := published;
      this.rot := rot;
      this.pos := pos;
    }

    /**
     * `getf`: the rotation and position queries first copy the device's own
     * pose and then overwrite the same slots from the published pose, so only
     * the published values remain; the distortion query zeroes six floats; any
     * other kind records an error and writes nothing.
     */
    method Getf(kind: FloatKind, out: array<Flt>) returns (ret: int)
      requires published.Valid()
      requires out != published.pos && out != published.quat
      requires FloatCount(kind) <= out.Length
      modifies out, ctx
      ensures ret == if kind.OtherKind? then -1 else 0
      ensures out[..] == Overwrite(old(out[..]), ViveFloats(kind, published.pos[..], published.quat[..]))
      ensures ctx.error == if kind.OtherKind? then GetfError(kind.code) else old(ctx.error)
    {
      match kind {
        case RotationQuat =>
          out[0] := rot.w;
          out[1] := rot.x;
          out[2] := rot.y;
          out[3] := rot.z;

          out[0] := published.quat[0];
          out[1] := published.quat[1];
          out[2] := published.quat[2];
          out[3] := published.quat[3];
          assert out[..4] == published.quat[..];
        case PositionVector =>
          out[0] := pos.x;
          out[1] := pos.y;
          out[2] := pos.z;

          out[0] := published.pos[0];
          out[1] := published.pos[1];
          out[2] := published.pos[2];
          assert out[..3] == published.pos[..];
        case DistortionK =>
          for i := 0 to 6
            modifies out
            invariant forall j :: 0 <= j < i ==> out[j] == Zero
            invariant forall j :: 6 <= j < out.Length ==> out[j] == old(out[j])
          {
            out[i] := Zero;
          }
        case OtherKind(code) =>
          ctx.error := GetfError(code);
          return -1;
      }
      return 0;
    }
  }

  // ---------------------------------------------------------------------------
  // Enumeration and the driver record

  /** An entry of the HID enumeration; only how many there are matters. */
  datatype HidDeviceInfo = HidDeviceInfo(vendorId: int, productId: int, path: string)

  /** The descriptor `get_device_list` writes for the `k`-th enumerated device. */
  function ViveDescriptor(k: nat, driver: DriverId): DeviceDesc
  {
    DeviceDesc(
      "OpenHMD HTC Vive Driver", "HTC/Valve", "HTC Vive", DecimalString(k), 0, driver,
      HmdClass, {PositionalTracking, RotationalTracking, LeftController, RightController})
  }

  /** Two devices of one enumeration never share a path. */
  lemma ViveDescriptorPathsDistinct(j: nat, k: nat, driver: DriverId)
    requires j != k
    ensures ViveDescriptor(j, driver).path != ViveDescriptor(k, driver).path
  {
    if DecimalString(j) == DecimalString(k) {
      DecimalStringInjective(j, k);
    }
  }

  /**
   * `open_device` reads the index back from the path with `atoi` (vive.c
   * line 163). The driver never uses that `idx` afterwards; the lemma only
   * shows the path names the device's position in the enumeration.
   */
  lemma OpenDeviceRecoversIndex(k: nat, driver: DriverId)
    ensures Atoi(ViveDescriptor(k, driver).path) == k
  {
    AtoiOfDecimal(k);
  }

  /**
   * `get_device_list`: one descriptor per device HID enumeration reports for
   * the Vive's ids, appended after the entries already listed, numbered from 0.
   */
  method GetDeviceList(driver: DriverId, list: DeviceList, enumerate: (int, int) -> seq<HidDeviceInfo>)
    requires list.Valid() && |enumerate(HtcId, ViveHmdId)| <= list.Room()
    modifies list, list.devices
    ensures list.Valid() && list.devices == old(list.devices)
    ensures list.numDevices == old(list.numDevices) + |enumerate(HtcId, ViveHmdId)|
    ensures forall i :: 0 <= i < old(list.numDevices) ==> list.devices[i] == old(list.devices[i])
    ensures forall k :: 0 <= k < |enumerate(HtcId, ViveHmdId)| ==>
              list.devices[old(list.numDevices) + k] == ViveDescriptor(k, driver)
    ensures forall i :: list.numDevices <= i < list.devices.Length ==> list.devices[i] == old(list.devices[i])
    ensures list.Listed() == old(list.Listed()) + seq(|enumerate(HtcId, ViveHmdId)|, (k: nat) => ViveDescriptor(k, driver))
  {
    var devs := enumerate(HtcId, ViveHmdId);
    var curDev := devs;

    var idx := 0;
    while curDev != []
      invariant 0 <= idx <= |devs| && curDev == devs[idx..]
      invariant list.devices == old(list.devices) && list.numDevices == old(list.numDevices) + idx
      invariant list.Valid()
      invariant forall i :: 0 <= i < old(list.numDevices) ==> list.devices[i] == old(list.devices[i])
      invariant forall k :: 0 <= k < idx ==> list.devices[old(list.numDevices) + k] == ViveDescriptor(k, driver)
      invariant forall i :: list.numDevices <= i < list.devices.Length ==> list.devices[i] == old(list.devices[i])
    {
      var slot := list.numDevices;
      list.numDevices := list.numDevices + 1;
      list.devices[slot] := ViveDescriptor(idx, driver);

      curDev := curDev[1..];
      idx := idx + 1;
    }
  }

  /** `ohmd_create_htc_vive_drv`: no record when allocation fails, else all callbacks and the context. */
  function CreateDriver(ctx: nat, allocOk: bool): (r: Option<DriverRecord>)
    ensures r.None? <==> !allocOk
    ensures r.Some? ==> r.value.callbacks == {GetDeviceListFn, OpenDeviceFn, DestroyFn}
    ensures r.Some? ==> r.value.ctx == Some(ctx)
  {
    if !allocOk then None
    else Some(DriverRecord({GetDeviceListFn, OpenDeviceFn, DestroyFn}, Some(ctx)))
  }
}
