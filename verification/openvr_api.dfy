/**
 * The stand-in OpenVR client library (src/libopenvr/openvr_api_public.cpp):
 * it hands out initialisation tokens, claims that a runtime and an HMD are
 * present, offers no interfaces, and names initialisation errors.
 */
module OpenVrApi {
  import opened CInt
  import opened Wrappers
  import opened OpenVrTypes

  /** The token after one `++` on a `uint32_t`: the next number, wrapping to 0 after the largest. */
  function NextToken(t: U32): (r: U32)
    ensures t < 0xFFFF_FFFF ==> r == t + 1
    ensures t == 0xFFFF_FFFF ==> r == 0
  {
    ToU32(t + 1)
  }

  /** The token after `n` further initialisations or shutdowns. */
  function TokenAfter(t: U32, n: nat): U32
  {
    if n == 0 then t else NextToken(TokenAfter(t, n - 1))
  }

  /** The token counts initialisations and shutdowns modulo 2^32. */
  lemma {:induction false} TokenAfterIsModular(t: U32, n: nat)
    ensures TokenAfter(t, n) == (t + n) % TwoTo32
  {
    if n == 0 {
      assert (t + 0) % TwoTo32 == t;
    } else {
      TokenAfterIsModular(t, n - 1);
      var m: nat := t + n - 1;
      assert TokenAfter(t, n) == NextToken((m % TwoTo32) as U32);
      NextOfModular(m);
    }
  }

  /** One more step from the residue of `m` is the residue of `m + 1`. */
  lemma NextOfModular(m: nat)
    ensures NextToken((m % TwoTo32) as U32) == (m + 1) % TwoTo32
  {
    var q, r := m / TwoTo32, m % TwoTo32;
    assert m == q * TwoTo32 + r;
    if r + 1 == TwoTo32 {
      assert m + 1 == (q + 1) * TwoTo32;
    } else {
      assert m + 1 == q * TwoTo32 + (r + 1);
    }
  }

  /**
   * A client that remembers a token sees a different one after any number
   * of initialisations and shutdowns short of 2^32, and the same one again
   * after exactly 2^32.
   */
  lemma TokenChanges(t: U32, n: nat)
    ensures 0 < n < TwoTo32 ==> TokenAfter(t, n) != t
    ensures TokenAfter(t, TwoTo32) == t
  {
    TokenAfterIsModular(t, n);
    TokenAfterIsModular(t, TwoTo32);
    if 0 < n < TwoTo32 {
      if t + n < TwoTo32 {
        assert (t + n) % TwoTo32 == t + n;
      } else {
        assert (t + n) % TwoTo32 == t + n - TwoTo32;
      }
    }
    assert (t + TwoTo32) % TwoTo32 == t;
  }

  /** The error-name tables an `IVRClientCore` or the local error module supplies. */
  datatype ErrorNames = ErrorNames(symbol: InitError -> string, english: InitError -> string)

  /** What `VR_GetGenericInterface` returns and stores in `*peError`; no interface is ever found. */
  datatype InterfaceLookup = InterfaceLookup(found: Option<nat>, error: InitError)

  /**
   * The library's globals: the init token and the loaded client core
   * (`g_pHmdSystem`, here only the error names it would supply), together
   * with the local error names (hmderrors_public.cpp, which is not part of
   * this model) used when no client core is loaded.
   */
  class ClientLibrary {
    var token: U32
    var hmdSystem: Option<ErrorNames>
    const local: ErrorNames

    /** Nothing in this library ever loads a client core. */
    ghost predicate Valid()
      reads this
    {
      hmdSystem.None?
    }

    /** Load time: the token is 0 and no client core is loaded. */
    constructor (local: ErrorNames)
      ensures Valid() && token == 0 && this.local == local
    {
      token := 0;
      hmdSystem := None;
      this.local := local;
    }

    method GetInitToken() returns (t: U32)
      ensures t == token
    {
      t := token;
    }

    /** `VR_InitInternal`: always succeeds, whatever the application type, and returns the incremented token. */
    method InitInternal(applicationType: int) returns (t: U32, error: InitError)
      modifies this`token
      ensures token == NextToken(old(token)) && t == token
      ensures error == InitNone
    {
      error := InitNone;
      token := NextToken(token);
      t := token;
    }

    /** `VR_ShutdownInternal`: only increments the token. */
    method ShutdownInternal()
      modifies this`token
      ensures token == NextToken(old(token))
    {
      token := NextToken(token);
    }

    /** `VR_GetVRInitErrorAsSymbol`: the client core's name for the error when one is loaded, else the local one. */
    function AsSymbol(error: InitError): (s: string)
      reads this
      ensures Valid() ==> s == local.symbol(error)
    {
      if hmdSystem.Some? then hmdSystem.value.symbol(error) else local.symbol(error)
    }

    /** `VR_GetVRInitErrorAsEnglishDescription`: likewise for the English description. */
    function AsEnglishDescription(error: InitError): (s: string)
      reads this
      ensures Valid() ==> s == local.english(error)
    {
      if hmdSystem.Some? then hmdSystem.value.english(error) else local.english(error)
    }

    /** `VR_GetStringForHmdError`: the English description, by whichever table `AsEnglishDescription` picks. */
    function GetStringForHmdError(error: InitError): (s: string)
      reads this
      ensures s == AsEnglishDescription(error)
      ensures Valid() ==> s == local.english(error)
    {
      AsEnglishDescription(error)
    }
  }

  /** `VR_LoadHmdSystemInternal`: loads nothing and reports success. */
  function LoadHmdSystemInternal(): (e: InitError)
    ensures e == InitNone
  {
    InitNone
  }

  /** `VR_GetGenericInterface`: no interface for any name, and no error. */
  function GetGenericInterface(interfaceVersion: string): (r: InterfaceLookup)
    ensures r.found.None? && r.error == InitNone
  {
    InterfaceLookup(None, InitNone)
  }

  function IsInterfaceVersionValid(interfaceVersion: string): (b: bool)
    ensures b
  {
    true
  }

  function IsHmdPresent(): (b: bool)
    ensures b
  {
    true
  }

  function IsRuntimeInstalled(): (b: bool)
    ensures b
  {
    true
  }

  /** `VR_RuntimePath`: the empty string. */
  function RuntimePath(): (s: string)
    ensures s == ""
  {
    ""
  }
}
