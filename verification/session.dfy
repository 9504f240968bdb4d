/**
 * The page and the upload endpoint together: the request the page sends,
 * how the page reads the endpoint's answer, and whole sessions from first
 * capture to navigation.
 */
module Session {
  import opened Wrappers
  import Upload
  import CapturePage

  /** `JSON.stringify({ images: capturedImages })`, as the endpoint parses it. */
  function RequestBody(images: seq<string>): (body: Upload.Body)
    ensures body.Parsed? && Upload.ImagesOf(body.value).Some?
    ensures Upload.ImagesOf(body.value).value == Upload.JArray(seq(|images|, i requires 0 <= i < |images| => Upload.JString(images[i])))
  {
    Upload.Parsed(Upload.JObject(map["images" := Upload.JArray(seq(|images|, i requires 0 <= i < |images| => Upload.JString(images[i])))]))
  }

  /** The page looks only at `result.success` and `result.url`, not at the status. */
  function ReplyOf(response: Upload.Response): (reply: CapturePage.UploadReply)
    ensures reply.Succeeded? <==> response.body.Success?
    ensures reply.Succeeded? ==> reply.url == response.body.url
    ensures !reply.Thrown?
  {
    match response.body
    case Success(url, _) => CapturePage.Succeeded(url)
    case Failure(_) => CapturePage.Rejected
  }

  /** Every image begins with the JPEG data-URL prefix. */
  predicate AllJpegDataUrls(images: seq<string>) {
    forall i :: 0 <= i < |images| ==> Upload.StartsWith(images[i], Upload.JpegPrefix)
  }

  /**
   * What the page sends is never a count error, and the endpoint's verdict
   * depends only on the prefixes: twelve JPEG data URLs give the placeholder
   * panorama, anything else the format error.
   */
  lemma PageRequestVerdict(images: seq<string>)
    requires |images| == CapturePage.TargetCount
    ensures Upload.Post(RequestBody(images)).body != Upload.Failure(Upload.CountError)
    ensures AllJpegDataUrls(images) ==>
      Upload.Post(RequestBody(images)) ==
        Upload.Response(200, Upload.Success(Upload.PanoramaUrl, Upload.SuccessMessage))
    ensures !AllJpegDataUrls(images) ==>
      Upload.Post(RequestBody(images)) == Upload.Response(400, Upload.Failure(Upload.FormatError))
  {
    var body := RequestBody(images);
    var items := Upload.ImagesOf(body.value).value.items;
    assert Upload.HasTwelveImages(Upload.ImagesOf(body.value));
    if AllJpegDataUrls(images) {
      assert forall i :: 0 <= i < Upload.RequiredImages ==> Upload.IsValidImage(items[i]);
    } else {
      var i :| 0 <= i < |images| && !Upload.StartsWith(images[i], Upload.JpegPrefix);
      assert !Upload.IsValidImage(items[i]);
    }
  }

  /**
   * How the page reads the endpoint's answer to twelve images: success with
   * the placeholder URL exactly when every image is a JPEG data URL, and a
   * plain rejection otherwise.
   */
  lemma PageReadsVerdict(images: seq<string>)
    requires |images| == CapturePage.TargetCount
    ensures ReplyOf(Upload.Post(RequestBody(images))) ==
      if AllJpegDataUrls(images) then CapturePage.Succeeded(Upload.PanoramaUrl) else CapturePage.Rejected
  {
    PageRequestVerdict(images);
  }

  /**
   * A whole session: permissions granted, the twelve targets faced in order
   * with a JPEG frame each time, then the upload. The page ends up holding
   * the twelve frames in order and navigating to the placeholder panorama.
   */
  method CaptureAndUpload(session: CapturePage.CaptureSession, frames: seq<string>)
    requires session.Valid() && session.capturedImages == [] && session.currentTargetIndex == 0
    requires session.permissionsGranted && !session.isProcessing
    requires |frames| == CapturePage.TargetCount && AllJpegDataUrls(frames)
    modifies session
    ensures session.Valid()
    ensures session.capturedImages == frames && session.currentTargetIndex == CapturePage.TargetCount
    ensures CapturePage.CapturedAngles(session.capturedImages) ==
      seq(CapturePage.TargetCount, i requires 0 <= i < CapturePage.TargetCount => Some(CapturePage.TargetAngles()[i]))
    ensures session.navigation == Some(Upload.PanoramaUrl)
  {
    var k := 0;
    while k < CapturePage.TargetCount
      invariant 0 <= k <= CapturePage.TargetCount
      invariant session.Valid() && session.permissionsGranted && !session.isProcessing
      invariant session.capturedImages == frames[..k] && session.currentTargetIndex == k
    {
      assert CapturePage.IsAligned((30 * k) as real, CapturePage.TargetAngleAt(k));
      var accepted := session.PressCapture((30 * k) as real, Some(frames[k]));
      assert frames[..k] + [frames[k]] == frames[..k + 1];
      k := k + 1;
    }
    assert frames[..k] == frames;
    CapturePage.FullSweep(frames);
    var payload := session.StartUpload();
    PageRequestVerdict(payload.value);
    var response := Upload.Post(RequestBody(payload.value));
    session.FinishUpload(ReplyOf(response));
  }

  /**
   * Twelve images that are not all JPEG data URLs: the upload is rejected,
   * processing is cleared, the images are kept and nothing is navigated to.
   */
  method RejectedUploadClearsProcessing(session: CapturePage.CaptureSession)
    requires session.Valid() && CapturePage.IsComplete(session.capturedImages)
    requires !AllJpegDataUrls(session.capturedImages)
    modifies session
    ensures session.Valid() && !session.isProcessing
    ensures session.navigation == old(session.navigation)
    ensures session.capturedImages == old(session.capturedImages)
  {
    var payload := session.StartUpload();
    PageRequestVerdict(payload.value);
    session.FinishUpload(ReplyOf(Upload.Post(RequestBody(payload.value))));
  }
}
