/**
 * The orientation hook: the stored compass heading, the error text shown
 * to the user, and whether the device reports orientation at all. Browser
 * calls are inputs: whether `DeviceOrientationEvent` exists, each event's
 * `alpha`, and what the platform's permission request did.
 */
module Orientation {
  import opened Wrappers

  const NotSupportedOnDevice := "Device orientation is not supported on this device"
  const NotSupported := "Device orientation is not supported"
  const PermissionDenied := "Device orientation permission denied"
  const PermissionRequestFailed := "Failed to request orientation permission"

  /** The heading stored for a non-null `alpha`: 360 is added once to a negative reading. */
  function Normalize(alpha: real): (h: real)
    ensures h == alpha || h == alpha + 360.0
    ensures 0.0 <= alpha ==> h == alpha
    ensures alpha < 0.0 ==> h == alpha + 360.0
    ensures 0.0 <= h <==> -360.0 <= alpha
    ensures -360.0 <= alpha < 360.0 ==> 0.0 <= h < 360.0
  {
    if alpha < 0.0 then alpha + 360.0 else alpha
  }

  /** Re-normalising a stored heading changes nothing, for every reading not below -360. */
  lemma NormalizeIdempotent(alpha: real)
    requires -360.0 <= alpha
    ensures Normalize(Normalize(alpha)) == Normalize(alpha)
  {
  }

  /** Below -360 a single addition does not reach [0, 360): -400 is stored as -40. */
  lemma NormalizeAddsOnlyOnce()
    ensures Normalize(-400.0) == -40.0 && Normalize(Normalize(-400.0)) == 320.0
  {
  }

  /** `handleOrientation`: a null `alpha` leaves the heading as it was. */
  function NextHeading(heading: real, alpha: Option<real>): (h: real)
    ensures alpha.None? ==> h == heading
    ensures alpha.Some? ==> h == Normalize(alpha.value)
    ensures alpha.Some? && -360.0 <= alpha.value < 360.0 ==> 0.0 <= h < 360.0
  {
    match alpha
    case None => heading
    case Some(a) => Normalize(a)
  }

  /** What a thrown value was: an `Error` carries a message, anything else does not. */
  datatype Thrown = ErrorObject(message: string) | NonError

  /** What the platform did when asked for permission. */
  datatype PlatformRequest =
    | NoRequestFunction            // `requestPermission` is not a function
    | Answered(permission: string) // the promise resolved with this string
    | Threw(thrown: Thrown)        // the call threw or the promise rejected

  /** The value `requestPermission` returns and the error it stores. */
  datatype PermissionOutcome = PermissionOutcome(granted: bool, error: Option<string>)

  function PermissionResult(supported: bool, request: PlatformRequest): (o: PermissionOutcome)
    // the hook returns true exactly when it clears the error
    ensures o.granted <==> o.error.None?
    ensures o.granted <==>
      supported && (request.NoRequestFunction? || request == Answered("granted"))
    ensures !supported ==> o.error == Some(NotSupported)
    ensures supported && request.Answered? && request.permission != "granted" ==>
      o.error == Some(PermissionDenied)
    ensures supported && request.Threw? ==>
      o.error == Some(if request.thrown.ErrorObject? then request.thrown.message
                      else PermissionRequestFailed)
  {
    if !supported then PermissionOutcome(false, Some(NotSupported))
    else
      match request
      case NoRequestFunction => PermissionOutcome(true, None)
      case Answered(p) =>
        if p == "granted" then PermissionOutcome(true, None)
        else PermissionOutcome(false, Some(PermissionDenied))
      case Threw(e) =>
        PermissionOutcome(false, Some(match e
                                      case ErrorObject(m) => m
                                      case NonError => PermissionRequestFailed))
  }

  /** The hook's state slots, updated through their setters. */
  class OrientationHook {
    var heading: real
    var error: Option<string>
    var isSupported: bool
    /** Whether `handleOrientation` is registered as a `deviceorientation` listener. */
    var listening: bool

    ghost predicate Valid()
      reads this
    {
      listening ==> isSupported
    }

    constructor ()
      ensures Valid()
      ensures heading == 0.0 && error == None && !isSupported && !listening
    {
      heading, error, isSupported, listening := 0.0, None, false, false;
    }

    /** The mount effect: record support, and register the listener only when supported. */
    method Mount(supported: bool)
      modifies this
      ensures Valid()
      ensures isSupported == supported && listening == supported
      ensures error == if supported then old(error) else Some(NotSupportedOnDevice)
      ensures heading == old(heading)
    {
      isSupported := supported;
      if !supported {
        error := Some(NotSupportedOnDevice);
        listening := false;
      } else {
        listening := true;
      }
    }

    /** The effect's cleanup removes the listener. */
    method Unmount()
      requires Valid()
      modifies this`listening
      ensures Valid() && !listening
    {
      listening := false;
    }

    /** A `deviceorientation` event; it reaches the hook only while the listener is registered. */
    method HandleOrientation(alpha: Option<real>)
      requires Valid()
      modifies this`heading
      ensures Valid()
      ensures heading == if old(listening) then NextHeading(old(heading), alpha) else old(heading)
      ensures 0.0 <= old(heading) < 360.0 && (alpha.Some? ==> -360.0 <= alpha.value < 360.0) ==>
        0.0 <= heading < 360.0
    {
      if listening {
        heading := NextHeading(heading, alpha);
      }
    }

    /** `requestPermission`: returns the outcome and stores its error text. */
    method RequestPermission(request: PlatformRequest) returns (granted: bool)
      requires Valid()
      modifies this`error
      ensures Valid()
      ensures granted == PermissionResult(isSupported, request).granted
      ensures error == PermissionResult(isSupported, request).error
      ensures granted <==> error.None?
    {
      var outcome := PermissionResult(isSupported, request);
      error := outcome.error;
      granted := outcome.granted;
    }
  }
}
