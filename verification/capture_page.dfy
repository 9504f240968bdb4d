/**
 * The capture page: twelve target bearings 30 degrees apart, a wrap-aware
 * alignment test with a 5 degree tolerance, and the session state that a
 * capture appends to and an upload flags as processing.
 *
 * Headings are mathematical reals. `TARGET_ANGLES[i]` outside the table is
 * JavaScript's `undefined`, written `None` here; every comparison against it
 * is false, which is what stops captures at twelve.
 */
module CapturePage {
  import opened Wrappers
  import Orientation

  const TargetCount := 12
  const AngleStep := 30
  const AlignmentTolerance: real := 5.0

  /** `TARGET_ANGLES`: entry i is i * 30. */
  function TargetAngles(): (t: seq<int>)
    ensures |t| == TargetCount
    ensures forall i :: 0 <= i < |t| ==> 0 <= t[i] < 360 && t[i] % AngleStep == 0
  {
    seq(TargetCount, i => i * AngleStep)
  }

  /** The table is 0, 30, ..., 330: strictly increasing, inside one turn. */
  lemma TargetTable()
    ensures TargetAngles() == [0, 30, 60, 90, 120, 150, 180, 210, 240, 270, 300, 330]
    ensures forall i, j :: 0 <= i < j < |TargetAngles()| ==> TargetAngles()[i] < TargetAngles()[j]
    ensures forall i :: 0 <= i < |TargetAngles()| ==> 0 <= TargetAngles()[i] < 360
  {
  }

  /** `TARGET_ANGLES[i]`: defined only for 0 <= i < 12. */
  function TargetAngleAt(i: int): (t: Option<int>)
    ensures t.Some? <==> 0 <= i < TargetCount
    ensures t.Some? ==> t.value == 30 * i && 0 <= t.value < 360
  {
    if 0 <= i < |TargetAngles()| then Some(TargetAngles()[i]) else None
  }

  function Abs(x: real): real {
    if x < 0.0 then -x else x
  }

  /** `isAligned`: within tolerance directly, or after shifting by one turn either way. */
  predicate IsAligned(heading: real, target: Option<int>): (b: bool)
    // the missing target is never met; facing a target exactly always is
    ensures b ==> target.Some?
    ensures target.Some? && heading == target.value as real ==> b
    // target 0 is also met just below a full turn
    ensures target == Some(0) && 355.0 <= heading <= 360.0 ==> b
  {
    match target
    case None => false
    case Some(t) =>
      var d := heading - t as real;
      Abs(d) <= AlignmentTolerance ||
      Abs(d - 360.0) <= AlignmentTolerance ||
      Abs(d + 360.0) <= AlignmentTolerance
  }

  /** The examples the alignment test is meant to get right. */
  lemma AlignmentExamples()
    ensures IsAligned(355.0, Some(0))
    ensures IsAligned(28.0, Some(30))
    ensures !IsAligned(24.0, Some(30))
    ensures !IsAligned(30.0, TargetAngleAt(TargetCount))
  {
  }

  /**
   * For a stored heading in [0, 360), the wrap clauses matter only for the
   * target 0: it is also met from [355, 360).
   */
  lemma AlignedWindow(heading: real, i: int)
    requires 0.0 <= heading < 360.0 && 0 <= i < TargetCount
    ensures IsAligned(heading, TargetAngleAt(i)) <==>
      Abs(heading - (30 * i) as real) <= AlignmentTolerance || (i == 0 && 355.0 <= heading)
  {
  }

  /** No heading is aligned with two different targets at once. */
  lemma AlignedWithAtMostOneTarget(heading: real, i: int, j: int)
    requires IsAligned(heading, TargetAngleAt(i)) && IsAligned(heading, TargetAngleAt(j))
    ensures i == j
  {
  }

  /** The part of the session that captures change. */
  datatype Progress = Progress(images: seq<string>, targetIndex: int)

  const InitialProgress := Progress([], 0)

  /** The session invariant: one target consumed per image, never more than twelve. */
  predicate ValidProgress(p: Progress) {
    p.targetIndex == |p.images| <= TargetCount
  }

  /**
   * `handleCapture`'s guard: aligned with the current target, and the frame
   * grabber returned a truthy value, that is neither `null` nor the empty string.
   */
  predicate Accepts(p: Progress, heading: real, frame: Option<string>): (b: bool)
    // only a target that exists can be captured for
    ensures b ==> 0 <= p.targetIndex < TargetCount
    ensures b ==> frame.Some? && |frame.value| > 0
  {
    IsAligned(heading, TargetAngleAt(p.targetIndex)) && frame.Some? && frame.value != ""
  }

  /** `handleCapture`: append the frame and advance the index, or change nothing. */
  function CaptureStep(p: Progress, heading: real, frame: Option<string>): (r: Progress)
    ensures Accepts(p, heading, frame) ==>
      r.images == p.images + [frame.value] && r.targetIndex == p.targetIndex + 1
    ensures !Accepts(p, heading, frame) ==> r == p
    ensures ValidProgress(p) ==> ValidProgress(r)
    ensures ValidProgress(p) && |p.images| == TargetCount ==> r == p
  {
    if Accepts(p, heading, frame) then Progress(p.images + [frame.value], p.targetIndex + 1)
    else p
  }

  /** One press of the capture handler: the heading at that moment and what the frame grabber returns. */
  datatype Attempt = Attempt(heading: real, frame: Option<string>)

  /** A sequence of capture attempts, applied in order. */
  function RunCaptures(p: Progress, attempts: seq<Attempt>): Progress
    decreases |attempts|
  {
    if attempts == [] then p
    else RunCaptures(CaptureStep(p, attempts[0].heading, attempts[0].frame), attempts[1..])
  }

  /** Rejected attempts leave the session unchanged, however many are made. */
  lemma {:induction false} RejectedAttemptsChangeNothing(p: Progress, attempts: seq<Attempt>)
    requires forall k :: 0 <= k < |attempts| ==> !Accepts(p, attempts[k].heading, attempts[k].frame)
    ensures RunCaptures(p, attempts) == p
    decreases |attempts|
  {
    if attempts != [] {
      RejectedAttemptsChangeNothing(p, attempts[1..]);
    }
  }

  /** The same rejected attempt repeated n times is a no-op. */
  lemma RepeatedRejectionIsNoOp(p: Progress, a: Attempt, n: nat)
    requires !Accepts(p, a.heading, a.frame)
    ensures RunCaptures(p, seq(n, _ => a)) == p
  {
    RejectedAttemptsChangeNothing(p, seq(n, _ => a));
  }

  /**
   * Any run of attempts keeps the invariant, only ever appends images, and
   * never holds more than twelve.
   */
  lemma {:induction false} RunKeepsInvariant(p: Progress, attempts: seq<Attempt>)
    requires ValidProgress(p)
    ensures ValidProgress(RunCaptures(p, attempts))
    ensures p.images <= RunCaptures(p, attempts).images
    decreases |attempts|
  {
    if attempts != [] {
      RunKeepsInvariant(CaptureStep(p, attempts[0].heading, attempts[0].frame), attempts[1..]);
    }
  }

  /** Facing each target in turn, with a frame each time. */
  function Sweep(frames: seq<string>): (attempts: seq<Attempt>)
    requires |frames| == TargetCount
  {
    seq(TargetCount, i requires 0 <= i < TargetCount => Attempt((30 * i) as real, Some(frames[i])))
  }

  /** Facing 0, 30, ..., 330 in order with a non-empty frame each time captures all twelve, in order. */
  lemma FullSweep(frames: seq<string>)
    requires |frames| == TargetCount && forall i :: 0 <= i < |frames| ==> frames[i] != ""
    ensures RunCaptures(InitialProgress, Sweep(frames)) == Progress(frames, TargetCount)
    ensures CapturedAngles(frames) == seq(TargetCount, i requires 0 <= i < TargetCount => Some(TargetAngles()[i]))
  {
    SweepFrom(frames, 0);
  }

  lemma {:induction false} SweepFrom(frames: seq<string>, k: nat)
    requires |frames| == TargetCount && k <= TargetCount
    requires forall i :: 0 <= i < |frames| ==> frames[i] != ""
    ensures RunCaptures(Progress(frames[..k], k), Sweep(frames)[k..]) == Progress(frames, TargetCount)
    decreases TargetCount - k
  {
    var rest := Sweep(frames)[k..];
    if k == TargetCount {
      assert frames[..k] == frames;
    } else {
      var p := Progress(frames[..k], k);
      assert rest[0] == Attempt((30 * k) as real, Some(frames[k]));
      assert IsAligned((30 * k) as real, TargetAngleAt(k));
      assert frames[..k] + [frames[k]] == frames[..k + 1];
      assert CaptureStep(p, rest[0].heading, rest[0].frame) == Progress(frames[..k + 1], k + 1);
      assert rest[1..] == Sweep(frames)[k + 1..];
      SweepFrom(frames, k + 1);
    }
  }

  /** `capturedAngles`: the target of each captured image's position. */
  function CapturedAngles(images: seq<string>): (angles: seq<Option<int>>)
    ensures |angles| == |images|
    ensures |images| <= TargetCount ==>
      forall i :: 0 <= i < |angles| ==> angles[i] == Some(TargetAngles()[i])
    ensures |images| <= TargetCount ==>
      forall i, j :: 0 <= i < j < |angles| ==> angles[i].value < angles[j].value
  {
    seq(|images|, i => TargetAngleAt(i))
  }

  /** An accepted capture tags its image with the target it satisfied. */
  lemma AcceptedCaptureAddsCurrentTarget(p: Progress, heading: real, frame: Option<string>)
    requires ValidProgress(p) && Accepts(p, heading, frame)
    ensures CapturedAngles(CaptureStep(p, heading, frame).images) ==
      CapturedAngles(p.images) + [TargetAngleAt(p.targetIndex)]
  {
  }

  /** `isComplete`: once it holds, there is no current target left to capture for. */
  predicate IsComplete(images: seq<string>): (b: bool)
    ensures b ==> TargetAngleAt(|images|).None?
    ensures b ==> CapturedAngles(images) == seq(TargetCount, i requires 0 <= i < TargetCount => Some(TargetAngles()[i]))
  {
    |images| == TargetCount
  }

  /** `canCapture`: the capture button is enabled. */
  predicate CanCapture(heading: real, p: Progress, permissionsGranted: bool, isProcessing: bool): (b: bool)
    ensures b ==> permissionsGranted && !isProcessing && 0 <= p.targetIndex < TargetCount
  {
    IsAligned(heading, TargetAngleAt(p.targetIndex)) && !IsComplete(p.images) &&
    permissionsGranted && !isProcessing
  }

  /**
   * The button is disabled once twelve images are held, before permissions
   * and while processing; when it is enabled, a press is accepted exactly
   * when the frame grabber returns an image.
   */
  lemma CanCaptureRules(heading: real, p: Progress, granted: bool, processing: bool, frame: Option<string>)
    requires ValidProgress(p)
    ensures IsComplete(p.images) || !granted || processing ==> !CanCapture(heading, p, granted, processing)
    ensures CanCapture(heading, p, granted, processing) ==> (Accepts(p, heading, frame) <==> frame.Some? && frame.value != "")
    ensures CanCapture(heading, p, granted, processing) <==>
      !IsComplete(p.images) && granted && !processing && IsAligned(heading, Some(TargetAngles()[p.targetIndex]))
  {
  }

  /** What the page makes of the upload: `result.success` with its url, a falsy `success`, or a throw. */
  datatype UploadReply = Succeeded(url: string) | Rejected | Thrown

  /** The page's state slots. */
  class CaptureSession {
    var capturedImages: seq<string>
    var currentTargetIndex: int
    var isProcessing: bool
    var permissionsGranted: bool
    /** The panorama URL the router was pushed to, if any. */
    var navigation: Option<string>

    function Snapshot(): Progress
      reads this
    {
      Progress(capturedImages, currentTargetIndex)
    }

    ghost predicate Valid()
      reads this
    {
      ValidProgress(Snapshot()) && (isProcessing ==> IsComplete(capturedImages))
    }

    constructor ()
      ensures Valid()
      ensures capturedImages == [] && currentTargetIndex == 0
      ensures !isProcessing && !permissionsGranted && navigation == None
    {
      capturedImages, currentTargetIndex := [], 0;
      isProcessing, permissionsGranted, navigation := false, false, None;
    }

    /**
     * `requestAllPermissions`: asks the orientation hook; the camera is then
     * started and permissions count as granted whether or not the camera
     * came up, since starting it never throws.
     */
    method RequestAllPermissions(hook: Orientation.OrientationHook, request: Orientation.PlatformRequest)
      returns (granted: bool)
      requires Valid() && hook.Valid()
      modifies this`permissionsGranted, hook`error
      ensures Valid() && hook.Valid()
      ensures granted == Orientation.PermissionResult(hook.isSupported, request).granted
      ensures hook.error == Orientation.PermissionResult(hook.isSupported, request).error
      ensures permissionsGranted == (old(permissionsGranted) || granted)
    {
      granted := hook.RequestPermission(request);
      if granted {
        permissionsGranted := true;
      }
    }

    /** `handleCapture`: only alignment and the frame are checked here. */
    method HandleCapture(heading: real, frame: Option<string>) returns (accepted: bool)
      requires Valid()
      modifies this`capturedImages, this`currentTargetIndex
      ensures Valid()
      ensures accepted == Accepts(old(Snapshot()), heading, frame)
      ensures Snapshot() == CaptureStep(old(Snapshot()), heading, frame)
    {
      accepted := Accepts(Snapshot(), heading, frame);
      if accepted {
        capturedImages := capturedImages + [frame.value];
        currentTargetIndex := currentTargetIndex + 1;
      }
    }

    /** A click on the capture button: shown before completion, enabled only when `canCapture`. */
    method PressCapture(heading: real, frame: Option<string>) returns (accepted: bool)
      requires Valid()
      modifies this`capturedImages, this`currentTargetIndex
      ensures Valid()
      ensures accepted <==> CanCapture(heading, old(Snapshot()), permissionsGranted, isProcessing) &&
                            frame.Some? && frame.value != ""
      ensures Snapshot() == if CanCapture(heading, old(Snapshot()), permissionsGranted, isProcessing)
                            then CaptureStep(old(Snapshot()), heading, frame)
                            else old(Snapshot())
    {
      accepted := false;
      if permissionsGranted && !IsComplete(capturedImages) &&
         CanCapture(heading, Snapshot(), permissionsGranted, isProcessing) {
        accepted := HandleCapture(heading, frame);
      }
    }

    /**
     * The synchronous part of `uploadImages`: with exactly twelve images,
     * flag processing and hand back the images to send; otherwise nothing.
     */
    method StartUpload() returns (payload: Option<seq<string>>)
      requires Valid()
      modifies this`isProcessing
      ensures Valid()
      ensures payload == if IsComplete(capturedImages) then Some(capturedImages) else None
      ensures isProcessing == (old(isProcessing) || IsComplete(capturedImages))
    {
      if |capturedImages| != TargetCount {
        return None;
      }
      isProcessing := true;
      payload := Some(capturedImages);
    }

    /** The rest of `uploadImages`, once the reply is in: navigate on success, else clear processing. */
    method FinishUpload(reply: UploadReply)
      requires Valid()
      modifies this`isProcessing, this`navigation
      ensures Valid()
      ensures navigation == if reply.Succeeded? then Some(reply.url) else old(navigation)
      ensures isProcessing == (old(isProcessing) && reply.Succeeded?)
    {
      match reply
      case Succeeded(url) =>
        navigation := Some(url);
      case Rejected =>
        isProcessing := false;
      case Thrown =>
        isProcessing := false;
    }
  }
}
