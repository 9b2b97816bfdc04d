/**
 * The pose path end to end: a driver's `getf` fills the float buffers that
 * the SteamVR HMD driver's `GetPose` reads (steamvr/driver_openhmd.cpp), so
 * these lemmas say where each driver's rotation and position end up in the
 * pose SteamVR receives.
 */
module PosePath {
  import opened Floats
  import opened Ohmd
  import Vive
  import Osvr
  import SteamVr

  /**
   * The OSVR driver writes the rotation W last and SteamVR reads W last, so
   * the pose SteamVR receives carries the OSVR client's rotation and
   * translation unchanged.
   */
  lemma OsvrPoseReachesSteamVr(state: Osvr.PoseState)
    ensures var p := SteamVr.HmdPose(Osvr.OsvrFloats(RotationQuat, state), Osvr.OsvrFloats(PositionVector, state));
      && SteamVr.Tracked(p)
      && p.qRotation == state.rotation
      && p.vecPosition == [state.translation.x, state.translation.y, state.translation.z]
  {
  }

  /**
   * The Vive driver passes libsurvive's quaternion through in libsurvive's
   * order, and SteamVR reads the fourth float as W: its W is libsurvive's
   * fourth component and its X, Y, Z are libsurvive's first three.
   */
  lemma VivePoseReachesSteamVr(pos: seq<Flt>, quat: seq<Flt>)
    requires |pos| == 3 && |quat| == 4
    ensures var p := SteamVr.HmdPose(Vive.ViveFloats(RotationQuat, pos, quat), Vive.ViveFloats(PositionVector, pos, quat));
      && SteamVr.Tracked(p)
      && p.qRotation == Quat(quat[3], quat[0], quat[1], quat[2])
      && p.vecPosition == pos
  {
  }

  /**
   * Whatever libsurvive reports, every rotation and position component
   * SteamVR receives from a Vive is a number in [-10, 10] or NaN.
   */
  lemma ViveSteamVrPoseInRange(events: seq<Vive.RawPose>)
    requires forall k :: 0 <= k < |events| ==> events[k].WellFormed()
    ensures var g := Vive.Replay(Vive.PoseValue(Zeros(3), Zeros(4)), events);
      |g.pos| == 3 && |g.quat| == 4 &&
      var p := SteamVr.HmdPose(Vive.ViveFloats(RotationQuat, g.pos, g.quat), Vive.ViveFloats(PositionVector, g.pos, g.quat));
      && (forall i :: 0 <= i < 3 ==> !Vive.OutOfRange(p.vecPosition[i]))
      && !Vive.OutOfRange(p.qRotation.w) && !Vive.OutOfRange(p.qRotation.x)
      && !Vive.OutOfRange(p.qRotation.y) && !Vive.OutOfRange(p.qRotation.z)
  {
    Vive.PublishedPoseStaysInRange(events);
  }
}
