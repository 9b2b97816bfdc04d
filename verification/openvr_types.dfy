/**
 * The OpenVR types the SteamVR driver and the OpenVR shim share. Their
 * numeric values live in openvr.h and openvr_driver.h, which are not part of
 * this model; only the values the code relies on are named.
 */
module OpenVrTypes {
  import opened CInt

  /** `EVRInitError`; any value the code does not name is kept by its number. */
  datatype InitError = InitNone | InitInterfaceNotFound | OtherInitError(code: int)

  /** `vr::k_unTrackedDeviceIndexInvalid`. */
  const TrackedDeviceIndexInvalid: U32 := 0xFFFF_FFFF

  /** `vr::k_ulInvalidPropertyContainer`. */
  const InvalidPropertyContainer: nat := 0

  datatype Eye = EyeLeft | EyeRight
}
