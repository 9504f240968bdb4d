# Memograph capture core, modelled in Dafny

Memograph guides a user through twelve photographs taken 30 degrees apart
around a full turn. A live compass heading is compared with the current
target bearing. A capture is accepted only when the heading is within 5
degrees of that target, allowing for the wrap at 0/360. The twelve images
are then posted to an upload endpoint, which checks them and answers with
a placeholder panorama URL.

This project models three parts of that system:

- `capture_page.dfy`, module `CapturePage`: the capture page.
  - The target table is `TargetAngles`, indexed by `TargetAngleAt`.
  - `IsAligned` is the three-clause alignment test.
  - `CaptureStep` is the capture rule on a `Progress` value (images plus target index).
  - `CapturedAngles`, `IsComplete` and `CanCapture` are the derived values.
  - The class `CaptureSession` holds the page's state slots. Its methods
    grant permissions, capture, start an upload and apply the upload's reply.
- `upload.dfy`, module `Upload`: the upload endpoint, a pure function `Post`
  from the request body to a response.
- `orientation.dfy`, module `Orientation`: the orientation hook.
  - `Normalize` and `NextHeading` are the heading-update rule.
  - `PermissionResult` is the permission outcome table.
  - The class `OrientationHook` holds the heading, error and support slots.
- `session.dfy`, module `Session`: the page and the endpoint together.
  - The request body the page sends and how the page reads the answer.
  - `PageRequestVerdict`: what the endpoint decides for every request the page can send.
  - `CaptureAndUpload`: a whole session, from first capture to navigation.
- `wrappers.dfy`: `Option`, standing for JavaScript's `null` and `undefined`.

Headings are mathematical reals. Target angles are integers.
`TARGET_ANGLES[i]` outside the table is `undefined` in the source. The model
writes it as `None`, and every alignment comparison against it is false.
The capture button is hidden and disabled once twelve images are held, but
`handleCapture` itself checks no count. Inside it, the missing thirteenth
target is what rejects a capture after twelve.

Browser calls become inputs:
- the frame grabber is an `Option<string>` argument (`None` for `null`). As in the code's truthiness test, the empty string is rejected like `null`;
- each orientation event's `alpha` is an `Option<real>`;
- whether `DeviceOrientationEvent` exists is a `bool`;
- the platform permission request is a `PlatformRequest` (no request function, an answer, or a throw);
- the upload's outcome is an `UploadReply` (success with a URL, a falsy `success`, or a throw).

The model follows the code as written:
- Headings are normalised by adding 360 once to a negative reading, not by a
  general modulo. A reading below -360 therefore stays negative
  (`NormalizeAddsOnlyOnce`).
- There is no circular-distance function. Alignment is the three-clause
  test. `AlignedWindow` shows it agrees with a window of 5 degrees around
  the target, wrapping only for target 0.
- There is no upload-started flag. The auto-upload effect calls
  `uploadImages` when its dependencies change while twelve images are held;
  after the twelfth capture they no longer change, so it runs once.
- There are no separate Uploading, Complete or Failed states. A successful
  reply navigates, and anything else only clears `isProcessing`.
- There is no cancellation of a late reply after teardown.
- `handleCapture` itself checks only alignment and the frame. The
  permission and processing conditions of `canCapture` act only through the
  disabled capture button (`PressCapture`).

## Model

| member | source | states |
|---|---|---|
| `CapturePage.TargetAngles` | memograph/src/app/page.tsx:11 | Twelve entries, each a multiple of 30 in [0, 360); `TargetTable` gives the literal values. |
| `CapturePage.IsAligned` | memograph/src/app/page.tsx:28-30 | The missing target is never met, a heading equal to the target always is, and target 0 is also met from [355, 360]. `AlignedWindow` and `AlignedWithAtMostOneTarget` carry the rest. |
| `CapturePage.Accepts` | memograph/src/app/page.tsx:54-57 | An accepted capture has an existing target (index 0..11) and a non-empty frame. |
| `CapturePage.IsComplete` | memograph/src/app/page.tsx:107 | Once complete there is no current target, and the captured angles are the whole table. |
| `CapturePage.CanCapture` | memograph/src/app/page.tsx:108 | Enabled only with permissions granted, not processing, and an existing target. `CanCaptureRules` gives both directions. |
| `CapturePage.TargetTable` | memograph/src/app/page.tsx:11 | The table is exactly 0, 30, ..., 330: twelve entries, strictly increasing, all in [0, 360). |
| `CapturePage.TargetAngleAt` | memograph/src/app/page.tsx:24 | The lookup is defined exactly for indices 0..11, and there it yields 30 times the index. |
| `CapturePage.AlignmentExamples` | memograph/src/app/page.tsx:28-30 | Heading 355 is aligned with target 0, 28 with 30; 24 is not aligned with 30; nothing is aligned with the missing thirteenth target. |
| `CapturePage.AlignedWindow` | memograph/src/app/page.tsx:12-30 | For a heading in [0, 360), the three clauses amount to being within 5 degrees of the target, or in [355, 360) for target 0. |
| `CapturePage.AlignedWithAtMostOneTarget` | memograph/src/app/page.tsx:28-30 | No heading is aligned with two different targets, so a capture is tagged with one target only. |
| `CapturePage.CaptureStep` | memograph/src/app/page.tsx:53-61 | A capture is accepted only when aligned with a non-empty frame. Then it appends exactly the frame and advances the index by one. A rejected one changes nothing. Index equals image count, and the count stays at most 12. At 12 images every capture is rejected. |
| `CapturePage.RejectedAttemptsChangeNothing` | memograph/src/app/page.tsx:54-57 | Any number of misaligned attempts, or attempts with no frame or an empty one, leaves images and index unchanged. |
| `CapturePage.RepeatedRejectionIsNoOp` | memograph/src/app/page.tsx:54-57 | Repeating one rejected capture n times is a no-op. |
| `CapturePage.RunKeepsInvariant` | memograph/src/app/page.tsx:58-59 | Every run of attempts keeps index equal to image count and at most 12, and only appends to the image list. |
| `CapturePage.FullSweep` | memograph/src/app/page.tsx:53-61 | Facing 0, 30, ..., 330 in order, with a non-empty frame each time, captures the twelve frames in order. The captured angles are then the whole table. |
| `CapturePage.SweepFrom` | memograph/src/app/page.tsx:53-61 | From the first k frames held, facing the remaining targets in order captures the rest. |
| `CapturePage.CapturedAngles` | memograph/src/app/page.tsx:25 | One angle per image. With at most 12 images they are the prefix of the table of that length, strictly increasing and so without duplicates. |
| `CapturePage.AcceptedCaptureAddsCurrentTarget` | memograph/src/app/page.tsx:24-25 | An accepted capture extends the captured angles by exactly the target it satisfied. |
| `CapturePage.CanCaptureRules` | memograph/src/app/page.tsx:107-108 | The button is disabled when complete, before permissions or while processing. When enabled, a press is accepted iff the frame grabber yields a non-empty string. |
| `CapturePage.CaptureSession.constructor` | memograph/src/app/page.tsx:16-19 | No images, index 0, not processing, no permissions, no navigation. |
| `CapturePage.CaptureSession.RequestAllPermissions` | memograph/src/app/page.tsx:33-50 | Permissions become granted exactly when the orientation hook grants. The hook's error is set by its outcome table. |
| `CapturePage.CaptureSession.HandleCapture` | memograph/src/app/page.tsx:53-61 | The new images and index are `CaptureStep` of the old ones. Nothing else changes, and the session invariant is kept. |
| `CapturePage.CaptureSession.PressCapture` | memograph/src/app/page.tsx:162-166 | A click changes the state only when `canCapture` holds. It is accepted iff `canCapture` holds and a non-empty frame is produced. |
| `CapturePage.CaptureSession.StartUpload` | memograph/src/app/page.tsx:64-75 | Only with exactly 12 images: processing is set and those images are the payload. Otherwise nothing happens. |
| `CapturePage.CaptureSession.FinishUpload` | memograph/src/app/page.tsx:77-90 | Success navigates to the returned URL. A failure reply or a throw sets processing back to false. |
| `Upload.StartsWith` | memograph/src/app/api/upload/route.ts:18 | Character-wise comparison agrees with the prefix relation: the prefix fits and the leading slice equals it. |
| `Upload.IsValidImage` | memograph/src/app/api/upload/route.ts:17-19 | True iff the entry is a string of which the JPEG data-URL prefix is a prefix. |
| `Upload.HasTwelveImages` | memograph/src/app/api/upload/route.ts:9 | `undefined` and every non-array value fail; passing means exactly twelve entries. |
| `Upload.Every` | memograph/src/app/api/upload/route.ts:21 | True iff every entry is a string starting with `data:image/jpeg;base64,`. |
| `Upload.Post` | memograph/src/app/api/upload/route.ts:3-57 | `ImagesOf` is the destructuring of `images` from the body. 500 with "Failed to process images" iff the body is unreadable or null. The count error ("Exactly 12 images are required", 400) iff `images` is not a 12-entry array. The format error (400) iff it is, but some entry fails the prefix test. Otherwise 200 with `/placeholder-360.jpg`, whatever the contents. |
| `Upload.CountCheckedBeforeFormat` | memograph/src/app/api/upload/route.ts:9-26 | A wrong-count list reports the count error whatever its entries are. |
| `Upload.MissingImagesIsCountError` | memograph/src/app/api/upload/route.ts:5-14 | A non-null body whose `images` is missing or not an array gets the count error. |
| `Orientation.Normalize` | memograph/src/hooks/useOrientation.ts:30-33 | 360 is added exactly once to every negative reading, and a non-negative reading is kept. The stored heading is non-negative iff the reading is at least -360. Readings in [-360, 360) land in [0, 360). |
| `Orientation.NormalizeIdempotent` | memograph/src/hooks/useOrientation.ts:30-34 | Re-normalising a stored heading is a no-op for readings not below -360. |
| `Orientation.NormalizeAddsOnlyOnce` | memograph/src/hooks/useOrientation.ts:31-33 | -400 is stored as -40, which a second pass would change: one addition does not always reach [0, 360). |
| `Orientation.NextHeading` | memograph/src/hooks/useOrientation.ts:27-36 | A null alpha keeps the heading. A present one stores its normalisation, in [0, 360) for readings in [-360, 360). |
| `Orientation.PermissionResult` | memograph/src/hooks/useOrientation.ts:46-73 | Returns true iff it clears the error, iff supported and either there is no request function or the answer is 'granted'. Unsupported gives "Device orientation is not supported". Another answer gives "Device orientation permission denied". A throw gives the Error's message, or "Failed to request orientation permission" for a non-Error. |
| `Orientation.OrientationHook.constructor` | memograph/src/hooks/useOrientation.ts:13-15 | Heading 0, no error, not supported, no listener. |
| `Orientation.OrientationHook.Mount` | memograph/src/hooks/useOrientation.ts:17-39 | Records support. Unsupported sets "Device orientation is not supported on this device" and registers no listener. Supported registers the listener. |
| `Orientation.OrientationHook.Unmount` | memograph/src/hooks/useOrientation.ts:41-43 | The listener is removed. |
| `Orientation.OrientationHook.HandleOrientation` | memograph/src/hooks/useOrientation.ts:27-36 | While listening, the heading becomes `NextHeading` of the event. A heading in [0, 360) stays there for readings in [-360, 360). |
| `Orientation.OrientationHook.RequestPermission` | memograph/src/hooks/useOrientation.ts:46-73 | Returns and stores the outcome table's verdict. True iff the error is cleared. |
| `Session.RequestBody` | memograph/src/app/page.tsx:74 | The endpoint sees an object whose `images` field is the array of the page's strings, in capture order. |
| `Session.PageReadsVerdict` | memograph/src/app/page.tsx:77-81 | For twelve images, the page reads the endpoint's answer (`ReplyOf`, which looks at `success` and `url` only, not the status) as success with `/placeholder-360.jpg` iff every image is a JPEG data URL, and as a rejection otherwise. |
| `Session.PageRequestVerdict` | memograph/src/app/api/upload/route.ts:9-48 | What the page sends is never a count error. Twelve JPEG data URLs give 200 with the placeholder URL; otherwise the format error. |
| `Session.CaptureAndUpload` | memograph/src/app/page.tsx:53-98 | A full session, twelve aligned captures with JPEG frames then the upload, holds the frames in order. The captured angles are the whole table, and the page navigates to `/placeholder-360.jpg`. |
| `Session.RejectedUploadClearsProcessing` | memograph/src/app/page.tsx:79-90 | Uploading twelve images that are not all JPEG data URLs ends with processing cleared, the images kept and no navigation. |

## Left out

- Camera access, canvas drawing and JPEG encoding (`useCamera.ts`) are browser I/O. The frame grabber is an optional opaque string; the model does not assume it starts with the JPEG prefix.
- The `!captureImage` test in `handleCapture` is not modelled: the camera hook always supplies that function, so the test never fires.
- The compass dial, camera feed, panorama viewer and viewer page are rendering only.
- `fetch`, JSON serialisation, `response.json()`, `alert`, `console` and the 2000 ms delay in the endpoint are I/O and timing. The reply is an input to `FinishUpload`; `Session` shows what the endpoint answers.
- CapturePage.CaptureSession.FinishUpload: records the raw URL in `navigation`. The `/viewer?url=` route and `encodeURIComponent` are not modelled.
- React scheduling is not modelled: effect re-runs, callback identity, batched state updates, and stale closures over `isSupported`.
- The auto-upload effect is not a separate member. It calls the same guarded `uploadImages`, which `StartUpload` and `FinishUpload` model, when its dependencies change while twelve images are held. After the twelfth capture they no longer change, so it runs once; the code has no flag that would stop a second call.
- The page's heading slot comes from the orientation hook and is passed to the capture methods as an argument.
- Orientation.Normalize: the range results hold over the reals. In IEEE doubles, adding 360 to a reading just below 0 (above about -2.8e-14) rounds to exactly 360. The alignment test's second clause still matches 360 to target 0.
- Upload.Json: JSON objects are maps, so duplicate keys and inherited properties such as `__proto__` are not modelled.
