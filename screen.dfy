/**
  The scanner screen as a state machine over values: the state it keeps (the
  current image reference, the result text, the operating system's permission
  grants as the screen observes them) plus a log of the outside effects it asks
  for (toasts, permission requests, intent launches, detector invocations).
  One function per event handler; Step dispatches an event and Run replays a
  sequence of them. The class in module Activity implements these handlers.
 */
module ScannerScreen {
  import opened Values
  import opened Barcodes

  const CAMERA_REQUEST_CODE := 100
  const STORAGE_CODE_REQUEST := 101
  /** PackageManager.PERMISSION_GRANTED */
  const PERMISSION_GRANTED := 0
  /** Activity.RESULT_OK */
  const RESULT_OK := -1

  const CAMERA_GRANTED := "Camera permission granted"
  const CAMERA_REQUESTING := "Requesting camera permission"
  const CAMERA_DENIED := "Camera permission denied"
  const STORAGE_GRANTED := "Storage permission granted"
  const STORAGE_REQUESTING := "Requesting storage permission"
  const STORAGE_DENIED := "Storage permission denied"
  const SELECT_IMAGE_FIRST := "Select an image first"
  const IMAGE_MIME_TYPE := "image/*"

  datatype Permission = Camera | WriteExternalStorage

  /** What checkSelfPermission reports for each of the two permissions. */
  datatype Grants = Grants(camera: bool, writeExternalStorage: bool)

  /** An outside effect, recorded instead of performed. */
  datatype Effect =
    | Toast(message: string)
    | RequestPermissions(permissions: seq<Permission>, requestCode: int)
    | LaunchCamera(output: Option<Uri>, requestCode: int)
    | LaunchGallery(mimeType: string, requestCode: int)
    | ShowImage(uri: Option<Uri>)
    | InvokeDetector(image: Uri)

  /** Outcome of turning the image reference into an input image; the decode may throw. */
  datatype Decode = Decoded | DecodeFailed(message: Option<string>)

  datatype Screen = Screen(imageUri: Option<Uri>, resultText: string, grants: Grants, effects: seq<Effect>)

  /**
    The events the screen reacts to. `slot` is what the media store's insert
    returned for a new camera image (possibly null); it is only used when a
    camera capture is started.
   */
  datatype Event =
    | CameraClicked(slot: Option<Uri>)
    | GalleryClicked
    | ScanClicked(decode: Decode)
    | PermissionsResult(requestCode: int, grantResults: seq<int>, slot: Option<Uri>)
    | ActivityResult(requestCode: int, resultCode: int, data: Option<Intent>)
    | DetectorSucceeded(barcodes: seq<Barcode>)
    | DetectorFailed(message: Option<string>)
    | PermissionsChanged(grants: Grants)

  /** WRITE_EXTERNAL_STORAGE alone decides; the camera grant plays no part. */
  function CheckStoragePermission(g: Grants): (granted: bool)
    ensures granted <==> g.writeExternalStorage
  {
    g.writeExternalStorage
  }

  /** Both CAMERA and WRITE_EXTERNAL_STORAGE must be granted: a stricter gate than the storage one. */
  function CheckCameraPermissions(g: Grants): (granted: bool)
    ensures granted ==> CheckStoragePermission(g)
    ensures granted <==> g.camera && CheckStoragePermission(g)
  {
    g.camera && g.writeExternalStorage
  }

  function ShowToast(s: Screen, message: string): Screen {
    s.(effects := s.effects + [Toast(message)])
  }

  function RequestCameraPermission(s: Screen): Screen {
    s.(effects := s.effects + [RequestPermissions([Camera, WriteExternalStorage], CAMERA_REQUEST_CODE)])
  }

  function RequestStoragePermission(s: Screen): Screen {
    s.(effects := s.effects + [RequestPermissions([WriteExternalStorage], STORAGE_CODE_REQUEST)])
  }

  /** The new slot becomes the image reference at once, before the camera reports back. */
  function PickImageCamera(s: Screen, slot: Option<Uri>): (r: Screen)
    ensures r.imageUri == slot && r.resultText == s.resultText && r.grants == s.grants
    ensures r.effects == s.effects + [LaunchCamera(r.imageUri, CAMERA_REQUEST_CODE)]
  {
    s.(imageUri := slot, effects := s.effects + [LaunchCamera(slot, CAMERA_REQUEST_CODE)])
  }

  function PickImageGallery(s: Screen): (r: Screen)
    ensures r.imageUri == s.imageUri && r.resultText == s.resultText && r.grants == s.grants
    ensures r.effects == s.effects + [LaunchGallery(IMAGE_MIME_TYPE, STORAGE_CODE_REQUEST)]
  {
    s.(effects := s.effects + [LaunchGallery(IMAGE_MIME_TYPE, STORAGE_CODE_REQUEST)])
  }

  /**
    A toast, then either a capture into the new slot (both permissions granted)
    or a request for both permissions; the result text is untouched.
   */
  function OnCameraClick(s: Screen, slot: Option<Uri>): (r: Screen)
    ensures r.resultText == s.resultText && r.grants == s.grants
    ensures r.imageUri == if CheckCameraPermissions(s.grants) then slot else s.imageUri
    ensures s.effects <= r.effects && |r.effects| == |s.effects| + 2
    ensures r.effects[|s.effects| + 1].LaunchCamera? <==> CheckCameraPermissions(s.grants)
    ensures r.effects[|s.effects| + 1].RequestPermissions? <==> !CheckCameraPermissions(s.grants)
  {
    if CheckCameraPermissions(s.grants) then PickImageCamera(ShowToast(s, CAMERA_GRANTED), slot)
    else RequestCameraPermission(ShowToast(s, CAMERA_REQUESTING))
  }

  /**
    A toast, then either the picker (storage granted) or a storage request;
    the image reference and the result text are untouched.
   */
  function OnGalleryClick(s: Screen): (r: Screen)
    ensures r.imageUri == s.imageUri && r.resultText == s.resultText && r.grants == s.grants
    ensures s.effects <= r.effects && |r.effects| == |s.effects| + 2
    ensures r.effects[|s.effects| + 1].LaunchGallery? <==> CheckStoragePermission(s.grants)
    ensures r.effects[|s.effects| + 1].RequestPermissions? <==> !CheckStoragePermission(s.grants)
  {
    if CheckStoragePermission(s.grants) then PickImageGallery(ShowToast(s, STORAGE_GRANTED))
    else RequestStoragePermission(ShowToast(s, STORAGE_REQUESTING))
  }

  /** detectResultFromImage up to the hand-off to the detector. */
  function DetectResultFromImage(s: Screen, uri: Uri, decode: Decode): (r: Screen)
    ensures r.imageUri == s.imageUri && r.resultText == s.resultText && r.grants == s.grants
    ensures s.effects <= r.effects && |r.effects| == |s.effects| + 1
    ensures r.effects[|s.effects|] == InvokeDetector(uri) <==> decode.Decoded?
    ensures decode.DecodeFailed? ==> r.effects[|s.effects|] == Toast("Failed due to " + ShowNullable(decode.message))
  {
    match decode
    case Decoded => s.(effects := s.effects + [InvokeDetector(uri)])
    case DecodeFailed(message) => ShowToast(s, "Failed due to " + ShowNullable(message))
  }

  /**
    One new effect: the detector on the current image when there is one and it
    decodes, a toast otherwise; the image reference and the result text are untouched.
   */
  function OnScanClick(s: Screen, decode: Decode): (r: Screen)
    ensures r.imageUri == s.imageUri && r.resultText == s.resultText && r.grants == s.grants
    ensures s.effects <= r.effects && |r.effects| == |s.effects| + 1
    ensures r.effects[|s.effects|].InvokeDetector? <==> s.imageUri.Some? && decode.Decoded?
    ensures r.effects[|s.effects|].InvokeDetector? ==> r.effects[|s.effects|].image == s.imageUri.value
    ensures s.imageUri.None? ==> r.effects[|s.effects|] == Toast(SELECT_IMAGE_FIRST)
  {
    match s.imageUri
    case None => ShowToast(s, SELECT_IMAGE_FIRST)
    case Some(uri) => DetectResultFromImage(s, uri, decode)
  }

  /** Only the first grant result is consulted, whatever was requested. */
  function FirstGranted(grantResults: seq<int>): bool {
    |grantResults| > 0 && grantResults[0] == PERMISSION_GRANTED
  }

  /**
    A known request code shows a toast and, when the first grant result is a
    grant, goes on to the matching acquisition; an unknown code does nothing.
   */
  function OnRequestPermissionsResult(s: Screen, requestCode: int, grantResults: seq<int>, slot: Option<Uri>): (r: Screen)
    ensures r.resultText == s.resultText && r.grants == s.grants
    ensures requestCode != CAMERA_REQUEST_CODE && requestCode != STORAGE_CODE_REQUEST ==> r == s
    ensures r.imageUri == if requestCode == CAMERA_REQUEST_CODE && FirstGranted(grantResults) then slot else s.imageUri
    ensures s.effects <= r.effects
    ensures |r.effects| == |s.effects| + 2 <==>
              (requestCode == CAMERA_REQUEST_CODE || requestCode == STORAGE_CODE_REQUEST) && FirstGranted(grantResults)
    ensures requestCode == CAMERA_REQUEST_CODE ==>
              r.effects == s.effects + if FirstGranted(grantResults)
                                       then [Toast(CAMERA_GRANTED), LaunchCamera(slot, CAMERA_REQUEST_CODE)]
                                       else [Toast(CAMERA_DENIED)]
    ensures requestCode == STORAGE_CODE_REQUEST ==>
              r.effects == s.effects + if FirstGranted(grantResults)
                                       then [Toast(STORAGE_GRANTED), LaunchGallery(IMAGE_MIME_TYPE, STORAGE_CODE_REQUEST)]
                                       else [Toast(STORAGE_DENIED)]
  {
    if requestCode == CAMERA_REQUEST_CODE then
      if FirstGranted(grantResults) then PickImageCamera(ShowToast(s, CAMERA_GRANTED), slot)
      else ShowToast(s, CAMERA_DENIED)
    else if requestCode == STORAGE_CODE_REQUEST then
      if FirstGranted(grantResults) then PickImageGallery(ShowToast(s, STORAGE_GRANTED))
      else ShowToast(s, STORAGE_DENIED)
    else s
  }

  /** `data?.data`: the Uri carried by the result intent, null when there is no intent. */
  function IntentData(data: Option<Intent>): (uri: Option<Uri>)
    ensures uri.Some? <==> data.Some? && data.value.data.Some?
    ensures uri.Some? ==> uri == data.value.data
  {
    match data
    case None => None
    case Some(intent) => intent.data
  }

  /**
    Only a RESULT_OK does anything: the gallery's result replaces the image
    reference with `data?.data`, the camera's keeps the slot set at launch.
   */
  function OnActivityResult(s: Screen, requestCode: int, resultCode: int, data: Option<Intent>): (r: Screen)
    ensures r.resultText == s.resultText && r.grants == s.grants
    ensures resultCode != RESULT_OK ==> r == s
    ensures requestCode != CAMERA_REQUEST_CODE && requestCode != STORAGE_CODE_REQUEST ==> r == s
    ensures r.imageUri == if resultCode == RESULT_OK && requestCode == STORAGE_CODE_REQUEST then IntentData(data) else s.imageUri
    ensures r.effects == s.effects + if resultCode == RESULT_OK && (requestCode == CAMERA_REQUEST_CODE || requestCode == STORAGE_CODE_REQUEST)
                                     then [ShowImage(r.imageUri)] else []
  {
    if resultCode != RESULT_OK then s
    else if requestCode == CAMERA_REQUEST_CODE then s.(effects := s.effects + [ShowImage(s.imageUri)])
    else if requestCode == STORAGE_CODE_REQUEST then
      var uri := IntentData(data);
      s.(imageUri := uri, effects := s.effects + [ShowImage(uri)])
    else s
  }

  function OnDetectorSuccess(s: Screen, barcodes: seq<Barcode>): (r: Screen)
    ensures r.imageUri == s.imageUri && r.effects == s.effects && r.grants == s.grants
    ensures r.resultText == if barcodes == [] then s.resultText else Format(barcodes[|barcodes| - 1])
  {
    s.(resultText := DisplayAfter(s.resultText, barcodes))
  }

  function OnDetectorFailure(s: Screen, message: Option<string>): (r: Screen)
    ensures r.imageUri == s.imageUri && r.resultText == s.resultText && r.grants == s.grants
    ensures r.effects == s.effects + [Toast("Failed scanning due to " + ShowNullable(message))]
  {
    ShowToast(s, "Failed scanning due to " + ShowNullable(message))
  }

  function Step(s: Screen, e: Event): Screen {
    match e
    case CameraClicked(slot) => OnCameraClick(s, slot)
    case GalleryClicked => OnGalleryClick(s)
    case ScanClicked(decode) => OnScanClick(s, decode)
    case PermissionsResult(requestCode, grantResults, slot) => OnRequestPermissionsResult(s, requestCode, grantResults, slot)
    case ActivityResult(requestCode, resultCode, data) => OnActivityResult(s, requestCode, resultCode, data)
    case DetectorSucceeded(barcodes) => OnDetectorSuccess(s, barcodes)
    case DetectorFailed(message) => OnDetectorFailure(s, message)
    case PermissionsChanged(grants) => s.(grants := grants)
  }

  function Run(s: Screen, events: seq<Event>): Screen
    decreases |events|
  {
    if events == [] then s else Run(Step(s, events[0]), events[1..])
  }

  // ---------------------------------------------------------------------------
  // Counting detector invocations in the effect log

  function Invocations(effects: seq<Effect>): nat
    decreases |effects|
  {
    if effects == [] then 0
    else Invocations(effects[..|effects| - 1]) + if effects[|effects| - 1].InvokeDetector? then 1 else 0
  }

  lemma {:induction false} InvocationsConcat(a: seq<Effect>, b: seq<Effect>)
    ensures Invocations(a + b) == Invocations(a) + Invocations(b)
    decreases |b|
  {
    if b == [] {
      assert a + b == a;
    } else {
      var n := |b| - 1;
      assert (a + b)[..|a + b| - 1] == a + b[..n];
      assert (a + b)[|a + b| - 1] == b[n];
      InvocationsConcat(a, b[..n]);
    }
  }

  lemma {:induction false} NoInvocations(b: seq<Effect>)
    requires forall i :: 0 <= i < |b| ==> !b[i].InvokeDetector?
    ensures Invocations(b) == 0
    decreases |b|
  {
    if b != [] {
      NoInvocations(b[..|b| - 1]);
    }
  }

  /** Appending effects none of which invokes the detector leaves the count alone. */
  lemma AppendWithoutInvocations(a: seq<Effect>, b: seq<Effect>)
    requires forall i :: 0 <= i < |b| ==> !b[i].InvokeDetector?
    ensures Invocations(a + b) == Invocations(a)
  {
    InvocationsConcat(a, b);
    NoInvocations(b);
  }

  function Scans(events: seq<Event>): nat
    decreases |events|
  {
    if events == [] then 0 else (if events[0].ScanClicked? then 1 else 0) + Scans(events[1..])
  }

  // ---------------------------------------------------------------------------
  // Properties of single events

  /** A scan with no image shows only the notice and never invokes the detector. */
  lemma ScanWithoutImage(s: Screen, decode: Decode)
    requires s.imageUri.None?
    ensures Step(s, ScanClicked(decode)) == s.(effects := s.effects + [Toast(SELECT_IMAGE_FIRST)])
    ensures Invocations(Step(s, ScanClicked(decode)).effects) == Invocations(s.effects)
  {
    InvocationsConcat(s.effects, [Toast(SELECT_IMAGE_FIRST)]);
    assert Invocations([Toast(SELECT_IMAGE_FIRST)]) == 0 by {
      assert [Toast(SELECT_IMAGE_FIRST)][..0] == [];
    }
  }

  /**
    A scan with an image invokes the detector exactly once, on that image, when
    the image decodes; when decoding throws it shows the failure and invokes nothing.
    Neither the image reference nor the result text changes.
   */
  lemma ScanWithImage(s: Screen, decode: Decode)
    requires s.imageUri.Some?
    ensures var r := Step(s, ScanClicked(decode));
      && r.imageUri == s.imageUri && r.resultText == s.resultText && r.grants == s.grants
      && Invocations(r.effects) == Invocations(s.effects) + (if decode.Decoded? then 1 else 0)
      && (decode.Decoded? ==> r.effects == s.effects + [InvokeDetector(s.imageUri.value)])
      && (decode.DecodeFailed? ==> r.effects == s.effects + [Toast("Failed due to " + ShowNullable(decode.message))])
  {
    var uri := s.imageUri.value;
    match decode
    case Decoded =>
      assert Step(s, ScanClicked(decode)) == s.(effects := s.effects + [InvokeDetector(uri)]);
      InvocationsConcat(s.effects, [InvokeDetector(uri)]);
      assert [InvokeDetector(uri)][..0] == [];
    case DecodeFailed(message) =>
      var toast := Toast("Failed due to " + ShowNullable(message));
      assert Step(s, ScanClicked(decode)) == s.(effects := s.effects + [toast]);
      AppendWithoutInvocations(s.effects, [toast]);
  }

  /**
    A camera click captures (and replaces the image reference with the new slot)
    exactly when both permissions are granted; otherwise it requests both and
    leaves the image reference alone.
   */
  lemma CameraClickGate(s: Screen, slot: Option<Uri>)
    ensures var r := Step(s, CameraClicked(slot));
      && r.resultText == s.resultText && r.grants == s.grants
      && r.imageUri == (if s.grants.camera && s.grants.writeExternalStorage then slot else s.imageUri)
      && r.effects == s.effects +
           if s.grants.camera && s.grants.writeExternalStorage
           then [Toast(CAMERA_GRANTED), LaunchCamera(slot, CAMERA_REQUEST_CODE)]
           else [Toast(CAMERA_REQUESTING), RequestPermissions([Camera, WriteExternalStorage], CAMERA_REQUEST_CODE)]
  {
  }

  /** A gallery click depends on the storage grant alone, and never touches the image reference. */
  lemma GalleryClickGate(s: Screen, camera: bool)
    ensures var r := Step(s, GalleryClicked);
      && r.imageUri == s.imageUri && r.resultText == s.resultText && r.grants == s.grants
      && r.effects == s.effects +
           if s.grants.writeExternalStorage
           then [Toast(STORAGE_GRANTED), LaunchGallery(IMAGE_MIME_TYPE, STORAGE_CODE_REQUEST)]
           else [Toast(STORAGE_REQUESTING), RequestPermissions([WriteExternalStorage], STORAGE_CODE_REQUEST)]
    ensures Step(s.(grants := s.grants.(camera := camera)), GalleryClicked).effects == Step(s, GalleryClicked).effects
  {
  }

  /**
    A permission result goes on to acquisition exactly when the first grant result
    is a grant; any other known outcome shows only a denial notice, and an unknown
    request code does nothing at all.
   */
  lemma PermissionResultGate(s: Screen, requestCode: int, grantResults: seq<int>, slot: Option<Uri>)
    ensures var r := Step(s, PermissionsResult(requestCode, grantResults, slot));
      var granted := |grantResults| > 0 && grantResults[0] == PERMISSION_GRANTED;
      && r.resultText == s.resultText && r.grants == s.grants
      && (requestCode != CAMERA_REQUEST_CODE && requestCode != STORAGE_CODE_REQUEST ==> r == s)
      && (requestCode == CAMERA_REQUEST_CODE && granted ==>
            r.imageUri == slot
            && r.effects == s.effects + [Toast(CAMERA_GRANTED), LaunchCamera(slot, CAMERA_REQUEST_CODE)])
      && (requestCode == CAMERA_REQUEST_CODE && !granted ==>
            r.imageUri == s.imageUri && r.effects == s.effects + [Toast(CAMERA_DENIED)])
      && (requestCode == STORAGE_CODE_REQUEST && granted ==>
            r.imageUri == s.imageUri
            && r.effects == s.effects + [Toast(STORAGE_GRANTED), LaunchGallery(IMAGE_MIME_TYPE, STORAGE_CODE_REQUEST)])
      && (requestCode == STORAGE_CODE_REQUEST && !granted ==>
            r.imageUri == s.imageUri && r.effects == s.effects + [Toast(STORAGE_DENIED)])
  {
  }

  /**
    The camera request asks for two permissions but only the first answer counts:
    a denied storage permission still starts the capture.
   */
  lemma CameraProceedsWithStorageDenied(s: Screen, slot: Option<Uri>, denied: int)
    requires denied != PERMISSION_GRANTED
    ensures Step(s, PermissionsResult(CAMERA_REQUEST_CODE, [PERMISSION_GRANTED, denied], slot)).imageUri == slot
    ensures LaunchCamera(slot, CAMERA_REQUEST_CODE) in Step(s, PermissionsResult(CAMERA_REQUEST_CODE, [PERMISSION_GRANTED, denied], slot)).effects
  {
  }

  /**
    An activity result changes nothing unless it is RESULT_OK for the camera or
    the gallery request. A successful gallery result takes the intent's data as
    the image reference (null when the intent or its data is missing) and shows
    it; a successful camera result keeps the reference set when the capture
    started and shows it. The result text never changes.
   */
  lemma ActivityResultEffect(s: Screen, requestCode: int, resultCode: int, data: Option<Intent>)
    ensures var r := Step(s, ActivityResult(requestCode, resultCode, data));
      && r.resultText == s.resultText && r.grants == s.grants
      && (resultCode != RESULT_OK ==> r == s)
      && (resultCode == RESULT_OK && requestCode == CAMERA_REQUEST_CODE ==>
            r == s.(effects := s.effects + [ShowImage(s.imageUri)]))
      && (resultCode == RESULT_OK && requestCode == STORAGE_CODE_REQUEST ==>
            r.imageUri == (if data.Some? then data.value.data else None)
            && r == s.(imageUri := IntentData(data), effects := s.effects + [ShowImage(IntentData(data))]))
      && (requestCode != CAMERA_REQUEST_CODE && requestCode != STORAGE_CODE_REQUEST ==> r == s)
      && (requestCode != STORAGE_CODE_REQUEST ==> r.imageUri == s.imageUri)
  {
  }

  /** A detector success writes the last detection's template, or leaves the text alone for no detections. */
  lemma DetectorSuccessShowsLast(s: Screen, barcodes: seq<Barcode>)
    ensures var r := Step(s, DetectorSucceeded(barcodes));
      && r.imageUri == s.imageUri && r.effects == s.effects && r.grants == s.grants
      && r.resultText == if barcodes == [] then s.resultText else Format(barcodes[|barcodes| - 1])
  {
  }

  /** A detector failure only shows a toast: the image reference and the result text stay. */
  lemma DetectorFailureKeepsState(s: Screen, message: Option<string>)
    ensures var r := Step(s, DetectorFailed(message));
      && r.imageUri == s.imageUri && r.resultText == s.resultText && r.grants == s.grants
      && r.effects == s.effects + [Toast("Failed scanning due to " + ShowNullable(message))]
  {
  }

  // ---------------------------------------------------------------------------
  // Properties of event sequences

  /**
    With both permissions granted, a camera capture that is then cancelled still
    leaves the freshly allocated slot as the image reference.
   */
  lemma CancelledCaptureKeepsSlot(s: Screen, slot: Option<Uri>, resultCode: int, data: Option<Intent>)
    requires s.grants.camera && s.grants.writeExternalStorage
    requires resultCode != RESULT_OK
    ensures Run(s, [CameraClicked(slot), ActivityResult(CAMERA_REQUEST_CODE, resultCode, data)]).imageUri == slot
  {
    var evs := [CameraClicked(slot), ActivityResult(CAMERA_REQUEST_CODE, resultCode, data)];
    var captured := OnCameraClick(s, slot);
    assert captured.imageUri == slot;
    assert Step(s, evs[0]) == captured;
    assert Step(captured, evs[1]) == captured;
    assert evs[1..] == [evs[1]] && evs[1..][1..] == [];
    assert Run(s, evs) == Run(captured, evs[1..]);
    assert Run(captured, evs[1..]) == Run(captured, []);
  }

  /** A successful gallery result whose intent carries no data clears the image reference. */
  lemma GalleryResultWithoutData(s: Screen, data: Option<Intent>)
    requires data.None? || data.value.data.None?
    ensures Step(s, ActivityResult(STORAGE_CODE_REQUEST, RESULT_OK, data)).imageUri.None?
  {
  }

  lemma StepInvocations(s: Screen, e: Event)
    ensures Invocations(Step(s, e).effects) <= Invocations(s.effects) + if e.ScanClicked? then 1 else 0
  {
    var r := Step(s, e);
    if e.ScanClicked? {
      if s.imageUri.None? { ScanWithoutImage(s, e.decode); } else { ScanWithImage(s, e.decode); }
    } else {
      var added := r.effects[|s.effects|..];
      assert r.effects == s.effects + added by {
        StepExtendsEffects(s, e);
      }
      assert forall i :: 0 <= i < |added| ==> !added[i].InvokeDetector? by {
        NonScanAddsNoInvocation(s, e);
      }
      AppendWithoutInvocations(s.effects, added);
    }
  }

  /** Every event only appends to the effect log. */
  lemma StepExtendsEffects(s: Screen, e: Event)
    ensures s.effects <= Step(s, e).effects
  {
  }

  lemma NonScanAddsNoInvocation(s: Screen, e: Event)
    requires !e.ScanClicked?
    ensures var r := Step(s, e);
      s.effects <= r.effects && forall i :: |s.effects| <= i < |r.effects| ==> !r.effects[i].InvokeDetector?
  {
  }

  /** Over any sequence of events the detector is invoked at most once per scan click. */
  lemma {:induction false} DetectorAtMostOncePerScan(s: Screen, events: seq<Event>)
    ensures Invocations(Run(s, events).effects) <= Invocations(s.effects) + Scans(events)
    decreases |events|
  {
    if events != [] {
      StepInvocations(s, events[0]);
      DetectorAtMostOncePerScan(Step(s, events[0]), events[1..]);
    }
  }

  /** The events that can replace the image reference. */
  predicate MayReplaceImage(e: Event) {
    || e.CameraClicked?
    || (e.PermissionsResult? && e.requestCode == CAMERA_REQUEST_CODE)
    || (e.ActivityResult? && e.requestCode == STORAGE_CODE_REQUEST && e.resultCode == RESULT_OK)
  }

  /** Scans, detector callbacks and failed or foreign results never touch the image reference. */
  lemma {:induction false} ImageOnlyReplacedByAcquisition(s: Screen, events: seq<Event>)
    requires forall i :: 0 <= i < |events| ==> !MayReplaceImage(events[i])
    ensures Run(s, events).imageUri == s.imageUri
    decreases |events|
  {
    if events != [] {
      assert !MayReplaceImage(events[0]);
      ImageOnlyReplacedByAcquisition(Step(s, events[0]), events[1..]);
    }
  }

  /**
    The result text changes only through a detector success with at least one
    detection; acquiring a new image leaves the previous result on screen.
   */
  lemma {:induction false} TextOnlyChangedByDetections(s: Screen, events: seq<Event>)
    requires forall i :: 0 <= i < |events| ==> !(events[i].DetectorSucceeded? && events[i].barcodes != [])
    ensures Run(s, events).resultText == s.resultText
    decreases |events|
  {
    if events != [] {
      var e := events[0];
      TextOnlyChangedByDetections(Step(s, e), events[1..]);
    }
  }
}
