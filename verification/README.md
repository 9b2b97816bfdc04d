# OpenHMD drivers and SteamVR bridge — a Dafny model

This project models the bookkeeping and decision logic of OpenHMD's HTC Vive and
OSVR drivers. It also models the SteamVR driver that exposes an OpenHMD device to
SteamVR, and the stand-in OpenVR client library. Poses arrive ready-made, from
libsurvive (Vive) or the OSVR client. The model follows them from the Vive
driver's plausibility filter, through each driver's `getf` float query, into the
`DriverPose` that SteamVR receives. The OpenHMD library call between the two,
`ohmd_device_getf`, is taken to pass the floats through unchanged.

The modules:

- `CInt`: C integer conversions the code relies on. These are the conversion
  to `uint32_t` and C99's truncating division.
- `Floats`: a C float as a finite real, a signed infinity or NaN. C comparisons
  with NaN are false, and the model keeps that.
- `Decimal`: `%d`/`%u` and `std::to_string` text, plus C `atoi`. It proves
  their round trips and injectivity.
- `Ohmd`: what the drivers share. This covers the float-query kinds, the
  context's error text, device descriptors, the device list and driver records.
- `Vive`: `src/drv_htc_vive/vive.c`. It covers:
  - the published libsurvive pose and its range filter;
  - `getf`;
  - HID-based enumeration;
  - driver creation.
- `Osvr`: `src/drv_osvr_sdk/osvr.c`. It covers `getf`, the pose refresh,
  enumeration and driver creation.
- `OpenVrTypes`: the OpenVR enumerations and constants both OpenVR files use.
- `SteamVr`: `steamvr/driver_openhmd.cpp`. It covers:
  - the HMD device (window, render target, eye viewports, activation,
    properties, pose posting);
  - the controllers;
  - the server provider;
  - `HmdDriverFactory`.
- `OpenVrApi`: `src/libopenvr/openvr_api_public.cpp`. It covers the init
  token and the constant answers.
- `PosePath`: where each driver's rotation and position end up in the pose
  SteamVR receives.

Foreign calls become inputs:
- libsurvive's raw pose callback arguments;
- the OSVR client's pose state;
- the HID enumeration result, as a function of vendor and product id;
- the OpenVR host's settings, the object id and the property container;
- the outcome of `VR_INIT_SERVER_DRIVER_CONTEXT` in `ServerDriver.Init`;
- the OpenHMD device's resolution, product name and float buffers.

Host calls that the code makes are recorded as state that the methods extend:
- `TrackedDevicePoseUpdated` goes into `HmdDriver.posted`;
- `TrackedDeviceAdded` goes into `ServerDriver.added`;
- property writes go into `HmdDriver.properties`.

## Model

| member | source | states |
|---|---|---|
| CInt.ToU32 | steamvr/driver_openhmd.cpp:486-487 | storing an `int32_t` into a `uint32_t` keeps non-negative values and adds 2^32 to negative ones |
| CInt.TruncDiv | steamvr/driver_openhmd.cpp:372-373 | C's `/` rounds toward zero: the remainder is smaller than the divisor, takes the dividend's sign, and the quotient is no larger in magnitude than the exact quotient |
| CInt.HalfOfI32 | steamvr/driver_openhmd.cpp:372-373 | halving an `int32_t` cannot overflow, so `m_nRenderWidth /= 2` stays in range |
| Floats.Zeros | src/drv_htc_vive/vive.c:84 | `memset(out, 0, sizeof(float) * 6)` leaves exactly six zero floats |
| Decimal.DecimalString | src/drv_htc_vive/vive.c:275 | `"%d"` of a non-negative number is a non-empty digit string without a leading zero |
| Decimal.IntToString | steamvr/driver_openhmd.cpp:290 | `std::to_string` is non-empty and starts with `-` exactly for negative numbers |
| Decimal.DigitsValueOfDecimal | src/drv_htc_vive/vive.c:275 | the digits printed for `n` denote `n` |
| Decimal.AtoiOfDecimal | src/drv_htc_vive/vive.c:163 | `atoi` reads back the number `"%d"` printed |
| Decimal.AtoiOfIntToString | steamvr/driver_openhmd.cpp:290 | `atoi` reads back what `std::to_string` printed, negative numbers included |
| Decimal.AtoiOfDigitsThenText | src/drv_htc_vive/vive.c:88 | `atoi` on a digit string followed by any non-digit text yields the digits' value |
| Decimal.DecimalStringInjective | src/drv_htc_vive/vive.c:275 | different indices print as different paths |
| Decimal.IntToStringInjective | steamvr/driver_openhmd.cpp:290 | different integers print differently |
| Ohmd.GetfError | src/drv_htc_vive/vive.c:88 | the getf error message starts with `invalid type given to getf (` followed by the kind printed as an unsigned number, which can be read back from the text |
| Ohmd.Overwrite | src/drv_htc_vive/vive.c:54-94 | a query writes the first floats of `out` and leaves every later float untouched |
| Vive.SurvivePose.constructor | src/drv_htc_vive/vive.c:52-53 | the file-scope `libsurvive_pos`/`libsurvive_quat` start zeroed |
| Vive.NotOutOfRange | src/drv_htc_vive/vive.c:123 | a component passes the `< -10 \|\| > 10` test exactly when it is a number in [-10, 10] or NaN |
| Vive.RawPoseProcess | src/drv_htc_vive/vive.c:116-139 | the published pose becomes the reported pos/quat exactly when the object is "HMD", the lighthouse is 0 and no component is out of range; otherwise both globals are unchanged |
| Vive.ReplayIsLastAccepted | src/drv_htc_vive/vive.c:121-137 | after any run of raw poses, the published pose is the last accepted one, or the starting pose if none was accepted |
| Vive.PublishedPoseStaysInRange | src/drv_htc_vive/vive.c:121-137 | from the zeroed start, no published component is ever outside [-10, 10] |
| Vive.ViveFloats | src/drv_htc_vive/vive.c:59-85 | a query produces 4 floats for the quaternion, 3 for the position, 6 for distortion and none otherwise |
| Vive.ViveDevice.Getf | src/drv_htc_vive/vive.c:54-94 | the quaternion and position queries leave `libsurvive_quat[0..3]` / `libsurvive_pos[0..2]` in `out`, overwriting the `priv` values; distortion leaves six zeros; all return 0; any other kind returns -1, sets the context error and writes nothing |
| Vive.ViveDescriptorPathsDistinct | src/drv_htc_vive/vive.c:275 | descriptors appended in one enumeration have distinct paths |
| Vive.OpenDeviceRecoversIndex | src/drv_htc_vive/vive.c:163 | `atoi` of the k-th descriptor's path is k |
| Vive.GetDeviceList | src/drv_htc_vive/vive.c:260-290 | the count grows by the number of HID devices enumerated for 0x0bb4/0x2c87; earlier entries are untouched, so the listed descriptors are the old ones followed by the new ones; the k-th new entry has path "k", revision 0, class HMD, the four tracking/controller flags and this driver |
| Vive.CreateDriver | src/drv_htc_vive/vive.c:298-311 | null when allocation fails; otherwise all three callbacks and the context are set |
| Osvr.OsvrFloats | src/drv_osvr_sdk/osvr.c:44-60 | a query produces 4, 3, 6 or no floats by kind |
| Osvr.OsvrDevice.Getf | src/drv_osvr_sdk/osvr.c:39-69 | the rotation as X, Y, Z, W and the translation as X, Y, Z; six zeros for distortion; 0 returned; any other kind returns -1, sets the error and writes nothing |
| Osvr.UpdateDevice | src/drv_osvr_sdk/osvr.c:25-37 | a null device is ignored; otherwise the stored pose becomes what the client reports |
| Osvr.GetDeviceList | src/drv_osvr_sdk/osvr.c:121-132 | exactly one descriptor is appended to the listed ones, with path "(none)", vendor "OpenHMD", product "OSVR Device" and this driver; its other fields and all other slots are unchanged |
| Osvr.CreateDriver | src/drv_osvr_sdk/osvr.c:141-154 | null when allocation fails; otherwise the three callbacks are set and no context is stored |
| SteamVr.HmdQuaternionInit | steamvr/driver_openhmd.cpp:52-60 | each argument lands in its named component |
| SteamVr.SetIdentity | steamvr/driver_openhmd.cpp:62-76 | ones on the diagonal of the 3x4 matrix and zeros in the other nine entries |
| SteamVr.ComputeDistortion | steamvr/driver_openhmd.cpp:530-540 | red, green and blue all sample at (u, v) |
| SteamVr.HmdPose | steamvr/driver_openhmd.cpp:542-571 | the HMD pose is valid, running, connected, with identity frame rotations; it reads `quat[0..2]` as X, Y, Z and `quat[3]` as W, and copies the position |
| SteamVr.ControllerPose | steamvr/driver_openhmd.cpp:210-241 | the controller pose is valid, running and connected, with identity frame rotations and a zero rotation and position |
| SteamVr.HmdDriverFactory | steamvr/driver_openhmd.cpp:671-686 | the server provider exactly for its interface name, the watchdog exactly for its own, otherwise null, with "interface not found" stored only when a return-code slot was given |
| SteamVr.DebugRequest | steamvr/driver_openhmd.cpp:476-480 | one NUL at index 0 when the size is at least 1, otherwise nothing written (the controller's copy at lines 204-208 is identical) |
| SteamVr.EyeViewportsTile | steamvr/driver_openhmd.cpp:506-520 | the eyes share row 0 and the height, are equally wide, the right starts where the left ends, and together they span the window up to its last odd column |
| SteamVr.ActivationValues | steamvr/driver_openhmd.cpp:397-445 | model number and render model name agree, the universe id is neither 0 nor 1, the display is not on the desktop, and every icon lies under `{openhmd}/icons/` |
| SteamVr.HmdDriver.constructor | steamvr/driver_openhmd.cpp:299-384 | the object id and container start invalid, the window is at (1920, 0) with the screen's size, the render target is half of it, and the model number is "OpenHMD: " followed by the product |
| SteamVr.HmdDriver.Activate | steamvr/driver_openhmd.cpp:391-449 | stores the object id and container, writes every property, and returns success |
| SteamVr.HmdDriver.Deactivate | steamvr/driver_openhmd.cpp:451-454 | the object id becomes invalid |
| SteamVr.HmdDriver.GetComponent | steamvr/driver_openhmd.cpp:460-469 | the device itself exactly for the display component's name, else null |
| SteamVr.HmdDriver.GetWindowBounds | steamvr/driver_openhmd.cpp:482-488 | (1920, 0) and the stored size as unsigned |
| SteamVr.HmdDriver.IsDisplayOnDesktop | steamvr/driver_openhmd.cpp:490-493 | always true |
| SteamVr.DesktopAnswersDisagree | steamvr/driver_openhmd.cpp:408 | the `IsOnDesktop` property set on activation is false while `IsDisplayOnDesktop` answers true: the driver tells the host both |
| SteamVr.HmdDriver.IsDisplayRealDisplay | steamvr/driver_openhmd.cpp:495-498 | always false |
| SteamVr.HmdDriver.GetRecommendedRenderTargetSize | steamvr/driver_openhmd.cpp:500-504 | the screen resolution halved by truncating division in each dimension |
| SteamVr.HmdDriver.GetEyeOutputViewport | steamvr/driver_openhmd.cpp:506-520 | the eye's viewport as `EyeViewport`, whose width equals the recommended render width |
| SteamVr.HmdDriver.GetProjectionRaw | steamvr/driver_openhmd.cpp:522-528 | the float tangents -1, 1, -1, 1 (left, right, top, bottom) for both eyes |
| SteamVr.HmdDriver.RunFrame | steamvr/driver_openhmd.cpp:574-583 | one pose update under the object id is posted exactly while the id is valid |
| SteamVr.ControllerSerialNumbersDistinct | steamvr/driver_openhmd.cpp:289-290 | different controller indices get different serial numbers |
| SteamVr.ControllerDriver.constructor | steamvr/driver_openhmd.cpp:174-176 | keeps its index and derives serial and model numbers from it |
| SteamVr.ControllerDriver.Activate | steamvr/driver_openhmd.cpp:177-181 | stores the object id and returns success |
| SteamVr.ControllerDriver.Deactivate | steamvr/driver_openhmd.cpp:183-186 | the object id becomes invalid |
| SteamVr.ControllerDriver.GetComponent | steamvr/driver_openhmd.cpp:192-201 | the controller itself exactly for the controller component's name, else null |
| SteamVr.ControllerDriver.GetControllerState | steamvr/driver_openhmd.cpp:244-245 | the stored state, unchanged |
| SteamVr.ControllerDriver.TriggerHapticPulse | steamvr/driver_openhmd.cpp:274-276 | always false |
| SteamVr.ControllerDriver.Exists | steamvr/driver_openhmd.cpp:280-283 | always true |
| SteamVr.ServerDriver.constructor | steamvr/driver_openhmd.cpp:611-614 | no HMD device yet |
| SteamVr.ServerDriver.Init | steamvr/driver_openhmd.cpp:632-650 | when the host context fails to initialise (634), its error is returned and no field changes; otherwise the result is `InitNone` and a fresh, inactive HMD device with an invalid container, no properties and no posted poses, the given serial number, "OpenHMD: " + product as model number, the given IPD and timings and the screen's window size, is registered; then fresh controllers 0 and 1 are created and both registered |
| SteamVr.ServerDriver.Cleanup | steamvr/driver_openhmd.cpp:652-657 | the HMD device is gone |
| SteamVr.ServerDriver.RunFrame | steamvr/driver_openhmd.cpp:660-666 | the HMD device's frame runs when there is one: a pose is posted exactly while its object id is valid, and nothing else about the HMD changes, so the class invariant and the id that gates the next frame are kept |
| OpenVrApi.NextToken | src/libopenvr/openvr_api_public.cpp:38 | `++` on the `uint32_t` token adds one and wraps to 0 after 0xFFFFFFFF |
| OpenVrApi.TokenAfterIsModular | src/libopenvr/openvr_api_public.cpp:22-45 | after n inits or shutdowns the token is the old one plus n modulo 2^32 |
| OpenVrApi.TokenChanges | src/libopenvr/openvr_api_public.cpp:22-45 | fewer than 2^32 inits and shutdowns always change the token; exactly 2^32 restore it |
| OpenVrApi.ClientLibrary.constructor | src/libopenvr/openvr_api_public.cpp:16-22 | the token starts at 0 and no client core is loaded |
| OpenVrApi.ClientLibrary.GetInitToken | src/libopenvr/openvr_api_public.cpp:24-28 | the current token, nothing changed |
| OpenVrApi.ClientLibrary.InitInternal | src/libopenvr/openvr_api_public.cpp:34-39 | the error is None, the token advances, and the new token is returned |
| OpenVrApi.ClientLibrary.ShutdownInternal | src/libopenvr/openvr_api_public.cpp:41-45 | the token advances by one step |
| OpenVrApi.ClientLibrary.AsSymbol | src/libopenvr/openvr_api_public.cpp:90-96 | with no client core loaded, the local symbol name |
| OpenVrApi.ClientLibrary.AsEnglishDescription | src/libopenvr/openvr_api_public.cpp:100-106 | with no client core loaded, the local English description |
| OpenVrApi.ClientLibrary.GetStringForHmdError | src/libopenvr/openvr_api_public.cpp:112-115 | equals the English description |
| OpenVrApi.LoadHmdSystemInternal | src/libopenvr/openvr_api_public.cpp:47-51 | success |
| OpenVrApi.GetGenericInterface | src/libopenvr/openvr_api_public.cpp:54-59 | null and error None for every name |
| OpenVrApi.IsInterfaceVersionValid | src/libopenvr/openvr_api_public.cpp:61-65 | true for every name |
| OpenVrApi.IsHmdPresent | src/libopenvr/openvr_api_public.cpp:67-71 | true |
| OpenVrApi.IsRuntimeInstalled | src/libopenvr/openvr_api_public.cpp:74-78 | true |
| OpenVrApi.RuntimePath | src/libopenvr/openvr_api_public.cpp:82-86 | the empty string |
| PosePath.OsvrPoseReachesSteamVr | src/drv_osvr_sdk/osvr.c:44-55 | SteamVR receives the OSVR client's rotation and translation unchanged |
| PosePath.VivePoseReachesSteamVr | src/drv_htc_vive/vive.c:59-80 | SteamVR takes libsurvive's fourth quaternion component as W and the first three as X, Y, Z |
| PosePath.ViveSteamVrPoseInRange | src/drv_htc_vive/vive.c:121-137 | every rotation and position component SteamVR receives from a Vive is in [-10, 10] or NaN |

## Left out

- Threads are not modelled: the Vive polling thread and the SteamVR watchdog
  thread with its exit flag are concurrency.
- Foreign calls are not modelled beyond their results. This covers libsurvive,
  the OSVR client API, HIDAPI, the OpenVR host, properties and settings
  interfaces, and OpenHMD context calls. Each becomes an input or recorded state.
- Float numerics are not modelled: the projection frustum, the field of view,
  and the distortion and aberration constants of the Vive's `open_device`.
- Narrowing libsurvive's `FLT` and OSVR's doubles to `float` is not modelled.
  Values are copied as they are.
- Vive `open_device` is not modelled beyond reading the index back from the path
  (`Vive.OpenDeviceRecoversIndex`). Its device set-up is foreign calls and float
  constants.
- OSVR `open_device` is not modelled. It opens the OSVR client, sets fixed
  screen and lens properties, and installs the `update`, `close` and `getf`
  callbacks (src/drv_osvr_sdk/osvr.c:77-119). These are foreign calls, float
  constants and callback wiring.
- Osvr.OsvrDevice.constructor takes the context that `getf` records errors in
  as given. osvr.c never sets the device's `base.ctx`, and its create function
  never sets the driver's `ctx`, so the model assumes code outside osvr.c sets
  it.
- Both drivers' destroy functions and OSVR's close function only call `free`
  and log.
- Vive `update_device` does nothing.
- Logging and printing (`printf`, `DriverLog`, `print_infof`, `print_infoi`)
  are not modelled.
- The code after the early `return` in the controller's `GetControllerState`
  never runs, so it is not modelled.
- The lighthouse files under src/drv_htc_vive/lighthouse hold no logic that
  runs here.
- The header files are not part of this model: openhmdi.h, openvr.h,
  openvr_driver.h, and hmderrors_public.cpp for the local error names. Their
  values appear as named constants, and the error tables as parameters.
- Vive.GetDeviceList and Osvr.GetDeviceList require that the list has room.
  The source writes past `num_devices` without a bound check, and overflowing
  the fixed array is undefined behaviour, so the model does not give it a
  meaning.
- Decimal.Atoi does not model overflow of numbers beyond `int`. That is
  undefined behaviour in C, and the paths it reads are small indices.
- SteamVr.HmdDriver.constructor assumes device 0 opened. When
  `ohmd_list_open_device` fails, the source logs and carries on, then reads
  the resolution through the null device (steamvr/driver_openhmd.cpp:319-370).
  That continuation is not modelled: the resolution is an input.
- SteamVr.HmdDriver.constructor takes the serial number as given. It does not
  model the 1024-byte settings buffer that truncates it, or the `strcat` of
  the product name into that buffer, which the source does not bound.
- SteamVr.HmdDriver.Activate models the property container as one map from
  property to value that the HMD driver writes. Other writers to the container
  are not modelled.
- PosePath assumes that `ohmd_device_getf` hands SteamVR's `GetPose` the floats
  the driver's own `getf` wrote, and that `ohmd_ctx_update` changes nothing
  in between (steamvr/driver_openhmd.cpp:549-560). Both live in OpenHMD's
  library layer, which is not part of this model.
- SteamVr.DriverPose carries only the fields the driver sets. The others stay
  at the zero of `DriverPose_t pose = { 0 }`.
- SteamVr.ControllerDriver.constructor leaves the object id and controller
  state unconstrained, because the source leaves them uninitialised.
- `ShouldBlockStandbyMode`, `EnterStandby`, `LeaveStandby`, `PowerOff` and
  `GetInterfaceVersions` return constants or do nothing. They are not modelled.
