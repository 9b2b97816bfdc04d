/**
 * The SteamVR driver (steamvr/driver_openhmd.cpp): the HMD display device
 * with its window, render-target and per-eye geometry, its activation state
 * and pose posting; the controller devices; the server provider that
 * registers them; and the factory SteamVR calls to find the providers.
 */
module SteamVr {
  import opened CInt
  import opened Floats
  import opened Decimal
  import opened Wrappers
  import opened OpenVrTypes

  // ---------------------------------------------------------------------------
  // Value helpers

  /** `HmdQuaternion_Init`: a quaternion from its components, W first. */
  function HmdQuaternionInit(w: Flt, x: Flt, y: Flt, z: Flt): (q: Quat)
    ensures q.w == w && q.x == x && q.y == y && q.z == z
  {
    Quat(w, x, y, z)
  }

  /** The rotation `HmdQuaternion_Init(1, 0, 0, 0)`. */
  const IdentityQuat: Quat := HmdQuaternionInit(One, Zero, Zero, Zero)

  /**
   * `HmdMatrix_SetIdentity` on an `HmdMatrix34_t`: ones on the diagonal,
   * zeros in the other nine entries, including the translation column.
   */
  method SetIdentity(m: array2<Flt>)
    requires m.Length0 == 3 && m.Length1 == 4
    modifies m
    ensures forall i, j :: 0 <= i < 3 && 0 <= j < 4 ==> m[i, j] == if i == j then One else Zero
  {
    m[0, 0] := One;
    m[0, 1] := Zero;
    m[0, 2] := Zero;
    m[0, 3] := Zero;
    m[1, 0] := Zero;
    m[1, 1] := One;
    m[1, 2] := Zero;
    m[1, 3] := Zero;
    m[2, 0] := Zero;
    m[2, 1] := Zero;
    m[2, 2] := One;
    m[2, 3] := Zero;
  }

  datatype UV = UV(u: Flt, v: Flt)

  /** `DistortionCoordinates_t`: where each colour channel samples. */
  datatype DistortionCoordinates = DistortionCoordinates(red: UV, green: UV, blue: UV)

  /** `ComputeDistortion`: no distortion and no chromatic aberration, for either eye. */
  function ComputeDistortion(eye: Eye, u: Flt, v: Flt): (c: DistortionCoordinates)
    ensures c.red == UV(u, v) && c.green == UV(u, v) && c.blue == UV(u, v)
  {
    DistortionCoordinates(UV(u, v), UV(u, v), UV(u, v))
  }

  // ---------------------------------------------------------------------------
  // Poses

  /** `ETrackingResult`; the zero a `{ 0 }` initialiser leaves is not a named result. */
  datatype TrackingResult = RunningOK | OtherResult(code: int)

  /** The `DriverPose_t` fields the driver sets; all others stay zero. */
  datatype DriverPose = DriverPose(
    poseIsValid: bool,
    result: TrackingResult,
    deviceIsConnected: bool,
    qRotation: Quat,
    vecPosition: seq<Flt>,
    qWorldFromDriverRotation: Quat,
    qDriverFromHeadRotation: Quat)

  /** `DriverPose_t pose = { 0 }`. */
  const ZeroPose: DriverPose :=
    DriverPose(false, OtherResult(0), false, Quat(Zero, Zero, Zero, Zero), Zeros(3),
               Quat(Zero, Zero, Zero, Zero), Quat(Zero, Zero, Zero, Zero))

  /** A pose the driver reports as tracked: valid, running and connected, with identity frame rotations. */
  ghost predicate Tracked(p: DriverPose)
  {
    && p.poseIsValid && p.result == RunningOK && p.deviceIsConnected
    && p.qWorldFromDriverRotation == IdentityQuat && p.qDriverFromHeadRotation == IdentityQuat
    && |p.vecPosition| == 3
  }

  /**
   * The HMD's `GetPose`: the rotation and position the OpenHMD device reports
   * (`quat`, `pos`: the float buffers `ohmd_device_getf` filled), with
   * `quat[0..3]` read as X, Y, Z, W.
   */
  function HmdPose(quat: seq<Flt>, pos: seq<Flt>): (p: DriverPose)
    requires |quat| == 4 && |pos| == 3
    ensures Tracked(p)
    ensures p.qRotation == Quat(quat[3], quat[0], quat[1], quat[2]) && p.vecPosition == pos
  {
    ZeroPose.(poseIsValid := true, result := RunningOK, deviceIsConnected := true,
              qRotation := Quat(quat[3], quat[0], quat[1], quat[2]), vecPosition := pos,
              qWorldFromDriverRotation := HmdQuaternionInit(One, Zero, Zero, Zero),
              qDriverFromHeadRotation := HmdQuaternionInit(One, Zero, Zero, Zero))
  }

  /** The controllers' `GetPose`: always tracked, at the origin with a zero rotation. */
  function ControllerPose(): (p: DriverPose)
    ensures Tracked(p)
    ensures p.qRotation == Quat(Zero, Zero, Zero, Zero) && p.vecPosition == Zeros(3)
  {
    ZeroPose.(poseIsValid := true, result := RunningOK, deviceIsConnected := true,
              qWorldFromDriverRotation := HmdQuaternionInit(One, Zero, Zero, Zero),
              qDriverFromHeadRotation := HmdQuaternionInit(One, Zero, Zero, Zero))
  }

  // ---------------------------------------------------------------------------
  // Interface names (their text is defined by openvr_driver.h)

  const ServerTrackedDeviceProviderVersion: string := "IServerTrackedDeviceProvider_004"
  const WatchdogProviderVersion: string := "IVRWatchdogProvider_001"
  const DisplayComponentVersion: string := "IVRDisplayComponent_002"
  const ControllerComponentVersion: string := "IVRControllerComponent_001"

  /** The two provider objects the driver exports. */
  datatype Provider = ServerProvider | WatchdogProvider

  /** What `HmdDriverFactory` returns and what `*pReturnCode` holds after it (None: a null pointer). */
  datatype FactoryResult = FactoryResult(provider: Option<Provider>, returnCode: Option<InitError>)

  /**
   * `HmdDriverFactory`: the server provider or the watchdog provider for an
   * exact name match; otherwise null, and "interface not found" is stored
   * only when the caller passed a return-code slot.
   */
  function HmdDriverFactory(name: string, returnCode: Option<InitError>): (r: FactoryResult)
    ensures r.provider == Some(ServerProvider) <==> name == ServerTrackedDeviceProviderVersion
    ensures r.provider == Some(WatchdogProvider) <==> name == WatchdogProviderVersion
    ensures r.provider.Some? ==> r.returnCode == returnCode
    ensures r.provider.None? ==> r.returnCode == if returnCode.None? then None else Some(InitInterfaceNotFound)
  {
    if ServerTrackedDeviceProviderVersion == name then FactoryResult(Some(ServerProvider), returnCode)
    else if WatchdogProviderVersion == name then FactoryResult(Some(WatchdogProvider), returnCode)
    else if returnCode.Some? then FactoryResult(None, Some(InitInterfaceNotFound))
    else FactoryResult(None, returnCode)
  }

  /** `DebugRequest`: an empty answer when the buffer holds at least one character, else no write. */
  method DebugRequest(request: string, responseBuffer: array<char>, responseBufferSize: U32)
    requires responseBufferSize <= responseBuffer.Length
    modifies responseBuffer
    ensures responseBufferSize >= 1 ==> responseBuffer[..] == old(responseBuffer[..])[0 := '\0']
    ensures responseBufferSize == 0 ==> responseBuffer[..] == old(responseBuffer[..])
  {
    if responseBufferSize >= 1 {
      responseBuffer[0] := '\0';
    }
  }

  // ---------------------------------------------------------------------------
  // Display geometry

  datatype Viewport = Viewport(x: U32, y: U32, width: U32, height: U32)

  /**
   * The viewport of one eye in a window `windowWidth` by `windowHeight`: the
   * left half for the left eye, the next half for every other eye (C's
   * truncating `/ 2`, then the conversion to `uint32_t`).
   */
  function EyeViewport(eye: Eye, windowWidth: I32, windowHeight: I32): Viewport
  {
    var half := ToU32(TruncDiv(windowWidth, 2));
    Viewport(if eye == EyeLeft then 0 else half, 0, half, ToU32(windowHeight))
  }

  /**
   * For a real window the two eyes sit side by side: same row and height,
   * the right eye starts where the left one ends, and together they cover the
   * window (all of it when its width is even, all but the last column when odd).
   */
  lemma EyeViewportsTile(windowWidth: I32, windowHeight: I32)
    requires windowWidth >= 0 && windowHeight >= 0
    ensures var l, r := EyeViewport(EyeLeft, windowWidth, windowHeight), EyeViewport(EyeRight, windowWidth, windowHeight);
      && l.x == 0 && l.y == 0 && r.y == 0 && l.height == r.height == windowHeight
      && l.width == r.width && l.x + l.width == r.x
      && r.x + r.width == windowWidth - windowWidth % 2
  {
    var q := TruncDiv(windowWidth, 2);
    assert 0 <= windowWidth - q * 2 < 2;
  }

  /** A property the HMD driver writes into its container on activation. */
  datatype PropKey =
    | ModelNumber | RenderModelName | UserIpdMeters | UserHeadToEyeDepthMeters
    | DisplayFrequency | SecondsFromVsyncToPhotons | CurrentUniverseId | IsOnDesktop
    | IconDeviceOff | IconDeviceSearching | IconDeviceSearchingAlert | IconDeviceReady
    | IconDeviceReadyAlert | IconDeviceNotReady | IconDeviceStandby | IconDeviceAlertLow

  datatype PropValue = StringProp(s: string) | FloatProp(f: Flt) | Uint64Prop(n: nat) | BoolProp(b: bool)

  /**
   * The value `Activate` gives each property, in terms of what the
   * constructor read from the settings and from the OpenHMD device.
   */
  function ActivationValue(key: PropKey, modelNumber: string, ipd: Flt, displayFrequency: Flt,
                           secondsFromVsyncToPhotons: Flt): PropValue
  {
    match key
    case ModelNumber => StringProp(modelNumber)
    case RenderModelName => StringProp(modelNumber)
    case UserIpdMeters => FloatProp(ipd)
    case UserHeadToEyeDepthMeters => FloatProp(Zero)
    case DisplayFrequency => FloatProp(displayFrequency)
    case SecondsFromVsyncToPhotons => FloatProp(secondsFromVsyncToPhotons)
    case CurrentUniverseId => Uint64Prop(2)
    case IsOnDesktop => BoolProp(false)
    case IconDeviceOff => StringProp(IconDirectory + "headset_sample_status_off.png")
    case IconDeviceSearching => StringProp(IconDirectory + "headset_sample_status_searching.gif")
    case IconDeviceSearchingAlert => StringProp(IconDirectory + "headset_sample_status_searching_alert.gif")
    case IconDeviceReady => StringProp(IconDirectory + "headset_sample_status_ready.png")
    case IconDeviceReadyAlert => StringProp(IconDirectory + "headset_sample_status_ready_alert.png")
    case IconDeviceNotReady => StringProp(IconDirectory + "headset_sample_status_error.png")
    case IconDeviceStandby => StringProp(IconDirectory + "headset_sample_status_standby.png")
    case IconDeviceAlertLow => StringProp(IconDirectory + "headset_sample_status_ready_low.png")
  }

  /** Where the driver's status icons live. */
  const IconDirectory: string := "{openhmd}/icons/"

  /**
   * What `Activate` tells the host about the HMD: the model number doubles as
   * the render model, the universe id is 2 (neither 0, invalid, nor 1, which
   * is reserved), the display is not on the desktop, and every icon path
   * lies under the driver's own icon directory.
   */
  lemma ActivationValues(modelNumber: string, ipd: Flt, displayFrequency: Flt, secondsFromVsyncToPhotons: Flt)
    ensures ActivationValue(ModelNumber, modelNumber, ipd, displayFrequency, secondsFromVsyncToPhotons)
         == ActivationValue(RenderModelName, modelNumber, ipd, displayFrequency, secondsFromVsyncToPhotons)
         == StringProp(modelNumber)
    ensures var id := ActivationValue(CurrentUniverseId, modelNumber, ipd, displayFrequency, secondsFromVsyncToPhotons);
      id.Uint64Prop? && id.n != 0 && id.n != 1
    ensures ActivationValue(IsOnDesktop, modelNumber, ipd, displayFrequency, secondsFromVsyncToPhotons) == BoolProp(false)
    ensures forall k :: IsIcon(k) ==>
      var v := ActivationValue(k, modelNumber, ipd, displayFrequency, secondsFromVsyncToPhotons);
      v.StringProp? && IconDirectory <= v.s
  {
    forall k | IsIcon(k)
      ensures var v := ActivationValue(k, modelNumber, ipd, displayFrequency, secondsFromVsyncToPhotons);
        v.StringProp? && IconDirectory <= v.s
    {
      var v := ActivationValue(k, modelNumber, ipd, displayFrequency, secondsFromVsyncToPhotons);
      assert v.StringProp? && v.s[..|IconDirectory|] == IconDirectory;
    }
  }

  predicate IsIcon(k: PropKey)
  {
    k in {IconDeviceOff, IconDeviceSearching, IconDeviceSearchingAlert, IconDeviceReady,
          IconDeviceReadyAlert, IconDeviceNotReady, IconDeviceStandby, IconDeviceAlertLow}
  }

  /** A `TrackedDevicePoseUpdated` call the driver makes on the host. */
  datatype PoseUpdate = PoseUpdate(objectId: U32, pose: DriverPose)

  /** The fields of an `HmdDriver` other than its posted updates. */
  datatype HmdConfig = HmdConfig(
    objectId: U32, propertyContainer: nat, serialNumber: string, modelNumber: string,
    ipd: Flt, secondsFromVsyncToPhotons: Flt, displayFrequency: Flt,
    windowX: I32, windowY: I32, windowWidth: I32, windowHeight: I32, renderWidth: I32, renderHeight: I32,
    properties: PropKey -> Option<PropValue>)

  /** `COpenHMDDeviceDriver`: the HMD as a SteamVR tracked device with a display component. */
  class HmdDriver {
    var objectId: U32
    var propertyContainer: nat
    var serialNumber: string
    var modelNumber: string
    var ipd: Flt
    var secondsFromVsyncToPhotons: Flt
    var displayFrequency: Flt
    var windowX: I32
    var windowY: I32
    var windowWidth: I32
    var windowHeight: I32
    var renderWidth: I32
    var renderHeight: I32

    /** What the driver has written into its property container. */
    var properties: PropKey -> Option<PropValue>
    /** The pose updates the driver has posted to the host, oldest first. */
    var posted: seq<PoseUpdate>

    /** Everything but the posted updates: what a frame leaves alone. */
    ghost function Config(): HmdConfig
      reads this
    {
      HmdConfig(objectId, propertyContainer, serialNumber, modelNumber, ipd, secondsFromVsyncToPhotons,
                displayFrequency, windowX, windowY, windowWidth, windowHeight, renderWidth, renderHeight,
                properties)
    }

    /** The window sits at (1920, 0) and the render target is half the window. */
    ghost predicate Valid()
      reads this
    {
      && windowX == 1920 && windowY == 0
      && renderWidth == TruncDiv(windowWidth, 2) && renderHeight == TruncDiv(windowHeight, 2)
    }

    /**
     * The constructor, given what the OpenHMD device reports as its screen
     * resolution (`hres`, `vres`), the serial number and timing values read
     * from the settings, and the product name of device 0.
     */
    constructor (hres: I32, vres: I32, serial: string, product: string, ipd: Flt,
                 secondsFromVsyncToPhotons: Flt, displayFrequency: Flt)
      ensures Valid()
      ensures objectId == TrackedDeviceIndexInvalid && propertyContainer == InvalidPropertyContainer
      ensures serialNumber == serial && modelNumber == "OpenHMD: " + product
      ensures windowWidth == hres && windowHeight == vres
      ensures this.ipd == ipd && this.secondsFromVsyncToPhotons == secondsFromVsyncToPhotons
      ensures this.displayFrequency == displayFrequency
      ensures (forall k :: properties(k) == None) && posted == []
    {
      objectId := TrackedDeviceIndexInvalid;
      propertyContainer := InvalidPropertyContainer;
      this.ipd := ipd;
      serialNumber := serial;
      modelNumber := "OpenHMD: " + product;

      windowX := 1920;
      windowY := 0;
      windowWidth := hres;
      windowHeight := vres;
      HalfOfI32(hres);
      HalfOfI32(vres);
      renderWidth := TruncDiv(hres, 2);
      renderHeight := TruncDiv(vres, 2);
      this.secondsFromVsyncToPhotons := secondsFromVsyncToPhotons;
      this.displayFrequency := displayFrequency;
      properties := _ => None;
      posted := [];
    }

    /**
     * `Activate`: remembers the object id and the property container the host
     * assigns to it (`container`), and fills that container.
     */
    method Activate(unObjectId: U32, container: nat) returns (e: InitError)
      modifies this`objectId, this`propertyContainer, this`properties
      ensures e == InitNone
      ensures objectId == unObjectId && propertyContainer == container
      ensures forall k :: properties(k) == Some(ActivationValue(k, modelNumber, ipd, displayFrequency, secondsFromVsyncToPhotons))
    {
      objectId := unObjectId;
      propertyContainer := container;
      var model, ipd, frequency, vsync := modelNumber, this.ipd, displayFrequency, secondsFromVsyncToPhotons;
      properties := k => Some(ActivationValue(k, model, ipd, frequency, vsync));
      return InitNone;
    }

    /** `Deactivate`: the object id becomes invalid; the container handle is kept. */
    method Deactivate()
      modifies this`objectId
      ensures objectId == TrackedDeviceIndexInvalid
    {
      objectId := TrackedDeviceIndexInvalid;
    }

    /** `GetComponent`: the device itself for its display component's exact name, else null. */
    function GetComponent(name: string): (r: Option<HmdDriver>)
      ensures r.Some? <==> name == DisplayComponentVersion
      ensures r.Some? ==> r.value == this
    {
      if name == DisplayComponentVersion then Some(this) else None
    }

    /** `GetWindowBounds`: the stored window, the size converted to unsigned. */
    method GetWindowBounds() returns (x: I32, y: I32, width: U32, height: U32)
      requires Valid()
      ensures x == 1920 && y == 0
      ensures width == ToU32(windowWidth) && height == ToU32(windowHeight)
    {
      x := windowX;
      y := windowY;
      width := ToU32(windowWidth);
      height := ToU32(windowHeight);
    }

    function IsDisplayOnDesktop(): (b: bool)
      ensures b
    {
      true
    }

    function IsDisplayRealDisplay(): (b: bool)
      ensures !b
    {
      false
    }

    /** `GetRecommendedRenderTargetSize`: half the screen resolution in each dimension. */
    method GetRecommendedRenderTargetSize() returns (width: U32, height: U32)
      requires Valid()
      ensures width == ToU32(TruncDiv(windowWidth, 2)) && height == ToU32(TruncDiv(windowHeight, 2))
    {
      width := ToU32(renderWidth);
      height := ToU32(renderHeight);
    }

    /**
     * `GetEyeOutputViewport`: the eye's half of the window; each eye's
     * viewport is exactly as wide as the recommended render target.
     */
    method GetEyeOutputViewport(eye: Eye) returns (x: U32, y: U32, width: U32, height: U32)
      requires Valid()
      ensures Viewport(x, y, width, height) == EyeViewport(eye, windowWidth, windowHeight)
      ensures width == ToU32(renderWidth)
    {
      y := 0;
      width := ToU32(TruncDiv(windowWidth, 2));
      height := ToU32(windowHeight);

      if eye == EyeLeft {
        x := 0;
      } else {
        x := ToU32(TruncDiv(windowWidth, 2));
      }
    }

    /** `GetProjectionRaw`: the same unit tangents (left, right, top, bottom) for both eyes. */
    function GetProjectionRaw(eye: Eye): (r: (Flt, Flt, Flt, Flt))
      ensures r == (Finite(-1.0), One, Finite(-1.0), One)
    {
      (Finite(-1.0), Finite(1.0), Finite(-1.0), Finite(1.0))
    }

    /**
     * `RunFrame`: while the device is active, posts the current pose (built
     * from the OpenHMD device's `quat` and `pos`) under its object id.
     */
    method RunFrame(quat: seq<Flt>, pos: seq<Flt>)
      requires |quat| == 4 && |pos| == 3
      modifies this`posted
      ensures posted == if objectId != TrackedDeviceIndexInvalid
                        then old(posted) + [PoseUpdate(objectId, HmdPose(quat, pos))]
                        else old(posted)
    {
      if objectId != TrackedDeviceIndexInvalid {
        posted := posted + [PoseUpdate(objectId, HmdPose(quat, pos))];
      }
    }
  }

  /**
   * The driver gives the host two different answers about the desktop: the
   * `IsOnDesktop` property it sets on activation is false, while the display
   * component's `IsDisplayOnDesktop` says true.
   */
  lemma DesktopAnswersDisagree(d: HmdDriver, modelNumber: string, ipd: Flt, displayFrequency: Flt,
                               secondsFromVsyncToPhotons: Flt)
    ensures ActivationValue(IsOnDesktop, modelNumber, ipd, displayFrequency, secondsFromVsyncToPhotons) == BoolProp(false)
    ensures d.IsDisplayOnDesktop()
  {
  }

  // ---------------------------------------------------------------------------
  // Controllers

  /** `VRControllerState_t`, carried without interpretation. */
  datatype ControllerState = ControllerState(packetNum: U32, buttonPressed: nat, buttonTouched: nat)

  function ControllerSerialNumber(index: int): string
  {
    "Controller serial number " + IntToString(index)
  }

  /** Different controller indices get different serial numbers (the host cannot cope with duplicates). */
  lemma ControllerSerialNumbersDistinct(i: int, j: int)
    requires i != j
    ensures ControllerSerialNumber(i) != ControllerSerialNumber(j)
  {
    var prefix := "Controller serial number ";
    if ControllerSerialNumber(i) == ControllerSerialNumber(j) {
      assert IntToString(i) == ControllerSerialNumber(i)[|prefix|..];
      assert IntToString(j) == ControllerSerialNumber(j)[|prefix|..];
      IntToStringInjective(i, j);
    }
  }

  /** `COpenHMDDeviceDriverController`: a placeholder controller with a fixed pose. */
  class ControllerDriver {
    const index: int
    var objectId: U32
    var controllerState: ControllerState
    const serialNumber: string
    const modelNumber: string

    /** The object id and the controller state are left unset, as the source leaves them. */
    constructor (index: int)
      ensures this.index == index
      ensures serialNumber == ControllerSerialNumber(index)
      ensures modelNumber == "Controller model number " + IntToString(index)
    {
      this.index := index;
      serialNumber := ControllerSerialNumber(index);
      modelNumber := "Controller model number " + IntToString(index);
    }

    method Activate(unObjectId: U32) returns (e: InitError)
      modifies this`objectId
      ensures e == InitNone && objectId == unObjectId
    {
      objectId := unObjectId;
      return InitNone;
    }

    method Deactivate()
      modifies this`objectId
      ensures objectId == TrackedDeviceIndexInvalid
    {
      objectId := TrackedDeviceIndexInvalid;
    }

    /** `GetComponent`: the controller itself for its controller component's exact name, else null. */
    function GetComponent(name: string): (r: Option<ControllerDriver>)
      ensures r.Some? <==> name == ControllerComponentVersion
      ensures r.Some? ==> r.value == this
    {
      if name == ControllerComponentVersion then Some(this) else None
    }

    /** `GetControllerState`: the stored state, returned before any update could run. */
    function GetControllerState(): (s: ControllerState)
      reads this
      ensures s == controllerState
    {
      controllerState
    }

    function TriggerHapticPulse(axisId: U32, durationMicroseconds: nat): (ok: bool)
      ensures !ok
    {
      false
    }

    /** `exists`: every controller index is reported as present. */
    function Exists(): (b: bool)
      ensures b
    {
      true
    }
  }

  // ---------------------------------------------------------------------------
  // The server provider

  datatype TrackedDeviceClass = HmdDevice | ControllerDevice

  /** A `TrackedDeviceAdded` call the provider makes on the host. */
  datatype DeviceAdded = DeviceAdded(serialNumber: string, deviceClass: TrackedDeviceClass)

  /** `CServerDriver_OpenHMD`. */
  class ServerDriver {
    var hmd: HmdDriver?
    var controllerL: ControllerDriver?
    var controllerR: ControllerDriver?
    /** The devices registered with the host, in order. */
    var added: seq<DeviceAdded>

    ghost predicate Valid()
      reads this, hmd
    {
      hmd != null ==> hmd.Valid()
    }

    constructor ()
      ensures Valid() && hmd == null && added == []
    {
      hmd := null;
      added := [];
    }

    /**
     * `Init`: `VR_INIT_SERVER_DRIVER_CONTEXT` first sets up the host
     * context, whose outcome is `contextError`; when that fails, `Init`
     * returns its error and touches nothing. Otherwise it creates the HMD
     * device and registers it, then creates the two controllers (indices 0
     * and 1) and registers each that exists.
     */
    method Init(contextError: InitError, hres: I32, vres: I32, serial: string, product: string, ipd: Flt,
                secondsFromVsyncToPhotons: Flt, displayFrequency: Flt) returns (e: InitError)
      modifies this
      ensures e == contextError
      ensures contextError != InitNone ==> unchanged(this)
      ensures contextError == InitNone ==>
        && Valid()
        && hmd != null && fresh(hmd) && hmd.objectId == TrackedDeviceIndexInvalid
        && hmd.propertyContainer == InvalidPropertyContainer
        && hmd.serialNumber == serial && hmd.modelNumber == "OpenHMD: " + product
        && hmd.windowWidth == hres && hmd.windowHeight == vres
        && hmd.ipd == ipd && hmd.secondsFromVsyncToPhotons == secondsFromVsyncToPhotons
        && hmd.displayFrequency == displayFrequency
        && (forall k :: hmd.properties(k) == None) && hmd.posted == []
        && controllerL != null && fresh(controllerL) && controllerL.index == 0
        && controllerR != null && fresh(controllerR) && controllerR.index == 1
        && added == old(added) + [DeviceAdded(serial, HmdDevice),
                                  DeviceAdded(ControllerSerialNumber(0), ControllerDevice),
                                  DeviceAdded(ControllerSerialNumber(1), ControllerDevice)]
    {
      if contextError != InitNone {
        return contextError;
      }
      hmd := new HmdDriver(hres, vres, serial, product, ipd, secondsFromVsyncToPhotons, displayFrequency);
      added := added + [DeviceAdded(hmd.serialNumber, HmdDevice)];

      controllerL := new ControllerDriver(0);
      controllerR := new ControllerDriver(1);
      if controllerL.Exists() {
        added := added + [DeviceAdded(controllerL.serialNumber, ControllerDevice)];
      }
      if controllerR.Exists() {
        added := added + [DeviceAdded(controllerR.serialNumber, ControllerDevice)];
      }
      return InitNone;
    }

    /** `Cleanup`: drops the HMD device; later frames post nothing. */
    method Cleanup()
      modifies this`hmd
      ensures Valid() && hmd == null
    {
      hmd := null;
    }

    /**
     * `RunFrame`: forwards to the HMD device when there is one; only the
     * HMD's posted updates can change, so the next frame is gated on the
     * same object id.
     */
    method RunFrame(quat: seq<Flt>, pos: seq<Flt>)
      requires Valid() && |quat| == 4 && |pos| == 3
      modifies hmd
      ensures Valid()
      ensures hmd != null ==> hmd.Config() == old(hmd.Config())
      ensures hmd != null ==> hmd.posted == if hmd.objectId != TrackedDeviceIndexInvalid
                                           then old(hmd.posted) + [PoseUpdate(hmd.objectId, HmdPose(quat, pos))]
                                           else old(hmd.posted)
    {
      if hmd != null {
        hmd.RunFrame(quat, pos);
      }
    }
  }
}
