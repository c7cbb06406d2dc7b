# QR code scanner screen — a Dafny model

The scanner app is one Android screen, `MainActivity`. It lets the user take a photo
or pick one from the gallery, after checking the CAMERA and WRITE_EXTERNAL_STORAGE
permissions. When the user taps "scan", it hands the image to the ML Kit barcode
detector. It then shows the decoded Wi-Fi credentials, URL, plain text or barcode
type in a text view.

The model covers the two parts of the screen that have logic:

* **Result formatter** (`barcodes.dfy`, module `Barcodes`). `Format` gives one
  detection's fixed template: `SSID: …\nPassword: …\nType: …\n\n`,
  `Title: …\nURL: …\n\n`, `Text: …\n\n` or `Barcode Type: …\n\n`. A null Kotlin
  `String?` is interpolated as the text `null`, and an `Int` as its decimal numeral
  (`decimal.dfy`, module `Decimal`, which also proves that the numeral can be read
  back). `DisplayAfter` folds a detection list the way `extractBarcodeQrCodeInfo`
  overwrites the text view, so the last detection wins and an empty list leaves the
  text unchanged.
* **Event handlers.** `screen.dfy` (module `ScannerScreen`) is a state machine over
  values. The state is the image reference `imageUri`, the result text, the
  permission grants the OS reports, and a log of outside effects. The effects are
  toasts, permission requests, camera and gallery launches, image display and
  detector invocations; they are recorded, not performed. There is one function per
  listener or callback, plus `Step` and `Run` over event sequences, and lemmas for
  single events and for whole traces. `activity.dfy` (module `Activity`) is the
  activity itself: a class `MainActivity` whose fields the handlers update in
  place, with one method per listener or callback. Each method is proved to move
  the object exactly as the matching function of `ScannerScreen` does, so the
  lemmas there apply to the object. `ExtractBarcodeQrCodeInfo` keeps the source's
  loop.

Opaque inputs become parameters:
* the media-store insert's result (`slot`, possibly null);
* whether `InputImage.fromFilePath` throws (`Decode`);
* the detector's answer, delivered as a later `DetectorSucceeded` or `DetectorFailed` event;
* the OS changing a permission (`PermissionsChanged`).

Constants from the platform and the library:
* `RESULT_OK = -1` and `PERMISSION_GRANTED = 0` (Android);
* the request codes 100 and 101 (from the source).

Behaviours of the code worth knowing:
* `pickImageCamera` assigns `imageUri` before the camera answers, so a cancelled
  capture still leaves the new slot as the image reference (`CancelledCaptureKeepsSlot`).
* A successful gallery result without data sets the image reference to null
  (`GalleryResultWithoutData`).
* ML Kit reports the Wi-Fi encryption type as an Int (TYPE_WPA is 2), and the
  template shows its numeral (`WifiExample`).
* The value types TYPE_TEXT (7), TYPE_URL (8) and TYPE_WIFI (9) have templates of
  their own; `Other` carries only the remaining value types (`OtherCode`).

## Model

| member | source | states |
|---|---|---|
| `Decimal.IntRoundTrip` | app/src/main/java/com/p5/qrcodescanner/MainActivity.kt:135 | the numeral an Int is interpolated as can be parsed back to that Int |
| `Decimal.IntToDecimalInjective` | app/src/main/java/com/p5/qrcodescanner/MainActivity.kt:124 | distinct Ints (value type, encryption type) are shown as distinct numerals |
| `Decimal.NatToDecimal` | app/src/main/java/com/p5/qrcodescanner/MainActivity.kt:135 | a numeral is non-empty and all digits, with no leading zero |
| `Barcodes.ValueType` | app/src/main/java/com/p5/qrcodescanner/MainActivity.kt:117-118 | the tag a detection carries: TYPE_WIFI, TYPE_URL and TYPE_TEXT exactly for the Wi-Fi, URL and text constructors, any other tag only for `Other` |
| `Barcodes.FormatFollowsTag` | app/src/main/java/com/p5/qrcodescanner/MainActivity.kt:117-136 | the `when (valueType)` choice: TYPE_WIFI, TYPE_URL and TYPE_TEXT each yield their own template, and any other tag is an `Other` detection shown with the generic template |
| `Barcodes.Format` | app/src/main/java/com/p5/qrcodescanner/MainActivity.kt:118-136 | every template ends in a blank line, and its leading label (SSID / Title / Text / Barcode Type) identifies the kind of detection, so the four templates never collide |
| `Barcodes.DisplayAfter` | app/src/main/java/com/p5/qrcodescanner/MainActivity.kt:111-138 | the loop's result: the text is the last detection's template, or unchanged for an empty list; earlier detections have no effect |
| `Barcodes.TextRoundTrip` | app/src/main/java/com/p5/qrcodescanner/MainActivity.kt:131-133 | a text detection's display carries exactly its interpolated raw value between "Text: " and the blank line |
| `Barcodes.OtherRoundTrip` | app/src/main/java/com/p5/qrcodescanner/MainActivity.kt:134-136 | any other detection's display gives back its value type |
| `Barcodes.OtherDisplayInjective` | app/src/main/java/com/p5/qrcodescanner/MainActivity.kt:134-136 | two other-type detections with different value types are displayed differently |
| `Barcodes.NullRawValueLooksLikeLiteral` | app/src/main/java/com/p5/qrcodescanner/MainActivity.kt:115-132 | a null raw value and the literal text "null" give the same display, though they are different detections |
| `Barcodes.EarlierDetectionsIgnored` | app/src/main/java/com/p5/qrcodescanner/MainActivity.kt:111-138 | two lists ending in the same detection give the same text, whatever the earlier detections and the previous text |
| `Barcodes.WifiExample` | app/src/main/java/com/p5/qrcodescanner/MainActivity.kt:119-125 | a single Wi-Fi detection with SSID Net1, password pw1 and encryption type 2 shows exactly `SSID: Net1\nPassword: pw1\nType: 2\n\n` |
| `Barcodes.UrlThenTextExample` | app/src/main/java/com/p5/qrcodescanner/MainActivity.kt:111-138 | a URL detection followed by a text detection shows only the text template |
| `ScannerScreen.CheckStoragePermission` | app/src/main/java/com/p5/qrcodescanner/MainActivity.kt:177-182 | granted exactly when WRITE_EXTERNAL_STORAGE is granted; the camera grant plays no part |
| `ScannerScreen.CheckCameraPermissions` | app/src/main/java/com/p5/qrcodescanner/MainActivity.kt:157-167 | granted exactly when CAMERA and WRITE_EXTERNAL_STORAGE are both granted, so it implies the storage check |
| `ScannerScreen.PickImageCamera` | app/src/main/java/com/p5/qrcodescanner/MainActivity.kt:147-155 | the image reference becomes the new slot and the camera is launched with that slot and code 100; text kept |
| `ScannerScreen.PickImageGallery` | app/src/main/java/com/p5/qrcodescanner/MainActivity.kt:141-145 | the picker is launched for `image/*` with code 101; image and text kept |
| `ScannerScreen.OnCameraClick` | app/src/main/java/com/p5/qrcodescanner/MainActivity.kt:65-73 | two new effects; the second is a camera launch iff both permissions are granted (the image then becomes the slot), a permission request otherwise; text kept |
| `ScannerScreen.OnGalleryClick` | app/src/main/java/com/p5/qrcodescanner/MainActivity.kt:75-83 | two new effects; the second is the picker iff storage is granted, a permission request otherwise; image and text kept |
| `ScannerScreen.DetectResultFromImage` | app/src/main/java/com/p5/qrcodescanner/MainActivity.kt:94-109 | one new effect: the detector on the image iff it decodes, otherwise the "Failed due to …" toast; image and text kept |
| `ScannerScreen.OnScanClick` | app/src/main/java/com/p5/qrcodescanner/MainActivity.kt:85-91 | one new effect, a detector invocation on the current image iff there is an image and it decodes; with no image it is the "Select an image first" toast; image and text kept |
| `ScannerScreen.OnRequestPermissionsResult` | app/src/main/java/com/p5/qrcodescanner/MainActivity.kt:196-225 | an unknown code changes nothing; the image becomes the slot iff a camera result's first entry is a grant; for code 100 exactly the granted toast and the camera launch into the slot are appended when the first entry is a grant, else only the denied toast; for code 101 likewise the granted toast and the `image/*` picker launch, else only the denied toast; text kept |
| `ScannerScreen.IntentData` | app/src/main/java/com/p5/qrcodescanner/MainActivity.kt:234 | `data?.data`: a Uri exactly when there is an intent carrying one |
| `ScannerScreen.OnActivityResult` | app/src/main/java/com/p5/qrcodescanner/MainActivity.kt:227-238 | a result other than RESULT_OK, or for an unknown request code, changes nothing; a RESULT_OK for code 100 or 101 appends exactly one `ShowImage` of the (new) image, even when that image is unchanged, and the image becomes `data?.data` only for a successful gallery result; text kept |
| `ScannerScreen.OnDetectorSuccess` | app/src/main/java/com/p5/qrcodescanner/MainActivity.kt:98-100 | the text becomes the last detection's template (unchanged for none); image and effects kept |
| `ScannerScreen.OnDetectorFailure` | app/src/main/java/com/p5/qrcodescanner/MainActivity.kt:101-104 | only the "Failed scanning due to …" toast is appended; image and text kept |
| `ScannerScreen.ScanWithoutImage` | app/src/main/java/com/p5/qrcodescanner/MainActivity.kt:85-88 | a scan with no image only appends the "Select an image first" toast; the detector is not invoked |
| `ScannerScreen.ScanWithImage` | app/src/main/java/com/p5/qrcodescanner/MainActivity.kt:89-108 | a scan with an image invokes the detector exactly once on that image when it decodes, and when decoding throws shows only the "Failed due to …" toast; image and text are unchanged |
| `ScannerScreen.CameraClickGate` | app/src/main/java/com/p5/qrcodescanner/MainActivity.kt:65-73 | a camera click captures into the new slot iff CAMERA and WRITE_EXTERNAL_STORAGE are both granted, otherwise requests both with code 100; the text is unchanged |
| `ScannerScreen.GalleryClickGate` | app/src/main/java/com/p5/qrcodescanner/MainActivity.kt:75-83 | a gallery click launches the picker iff storage is granted, otherwise requests storage with code 101; its effects do not depend on the camera grant, and it keeps image and text |
| `ScannerScreen.PermissionResultGate` | app/src/main/java/com/p5/qrcodescanner/MainActivity.kt:203-224 | a known request whose first grant result is a grant shows the granted toast and starts the acquisition (the camera one setting the image to the slot); otherwise it appends only the denial toast and keeps the image; an unknown request code changes nothing |
| `ScannerScreen.CameraProceedsWithStorageDenied` | app/src/main/java/com/p5/qrcodescanner/MainActivity.kt:204-209 | only grantResults[0] is read: a camera result granting CAMERA but denying storage still starts the capture |
| `ScannerScreen.ActivityResultEffect` | app/src/main/java/com/p5/qrcodescanner/MainActivity.kt:227-238 | a result other than RESULT_OK or for an unknown request code changes nothing; a successful camera result only appends `ShowImage` of the current image; a successful gallery result sets the image to `data?.data` and appends `ShowImage` of it, and nothing else; the text never changes |
| `ScannerScreen.GalleryResultWithoutData` | app/src/main/java/com/p5/qrcodescanner/MainActivity.kt:233-234 | a successful gallery result without an intent or without data clears the image reference |
| `ScannerScreen.CancelledCaptureKeepsSlot` | app/src/main/java/com/p5/qrcodescanner/MainActivity.kt:147-155 | with both grants, a camera click followed by a cancelled capture leaves the new slot as the image reference |
| `ScannerScreen.DetectorSuccessShowsLast` | app/src/main/java/com/p5/qrcodescanner/MainActivity.kt:98-100 | a detector success sets the text to the last detection's template (unchanged for none) and touches nothing else |
| `ScannerScreen.DetectorFailureKeepsState` | app/src/main/java/com/p5/qrcodescanner/MainActivity.kt:101-104 | a detector failure only appends the failure toast; image and text are unchanged |
| `ScannerScreen.DetectorAtMostOncePerScan` | app/src/main/java/com/p5/qrcodescanner/MainActivity.kt:85-109 | over any event sequence the detector is invoked at most once per scan click |
| `ScannerScreen.ImageOnlyReplacedByAcquisition` | app/src/main/java/com/p5/qrcodescanner/MainActivity.kt:151-234 | events other than camera clicks, camera permission results and successful gallery results never change the image reference |
| `ScannerScreen.TextOnlyChangedByDetections` | app/src/main/java/com/p5/qrcodescanner/MainActivity.kt:111-138 | the result text changes only through a detector success with at least one detection, so a newly acquired image keeps the previous result on screen |
| `Activity.MainActivity.constructor` | app/src/main/java/com/p5/qrcodescanner/MainActivity.kt:41-63 | the screen starts with no image, the layout's text and no effects |
| `Activity.MainActivity.ShowToast` | app/src/main/java/com/p5/qrcodescanner/MainActivity.kt:193-195 | appends one toast to the effect log |
| `Activity.MainActivity.RequestCameraPermission` | app/src/main/java/com/p5/qrcodescanner/MainActivity.kt:169-175 | requests CAMERA and WRITE_EXTERNAL_STORAGE with code 100 |
| `Activity.MainActivity.RequestStoragePermission` | app/src/main/java/com/p5/qrcodescanner/MainActivity.kt:185-191 | requests WRITE_EXTERNAL_STORAGE with code 101 |
| `Activity.MainActivity.PickImageCamera` | app/src/main/java/com/p5/qrcodescanner/MainActivity.kt:147-155 | the image reference becomes the new slot before the camera is launched with it |
| `Activity.MainActivity.PickImageGallery` | app/src/main/java/com/p5/qrcodescanner/MainActivity.kt:141-145 | launches the picker for `image/*` with code 101 |
| `Activity.MainActivity.CameraClick` | app/src/main/java/com/p5/qrcodescanner/MainActivity.kt:65-73 | moves the object as `OnCameraClick`; the image becomes the slot iff both permissions are granted |
| `Activity.MainActivity.GalleryClick` | app/src/main/java/com/p5/qrcodescanner/MainActivity.kt:75-83 | moves the object as `OnGalleryClick`; image and text unchanged |
| `Activity.MainActivity.ScanClick` | app/src/main/java/com/p5/qrcodescanner/MainActivity.kt:85-91 | moves the object as `OnScanClick`; with no image only the notice toast is appended |
| `Activity.MainActivity.DetectResultFromImage` | app/src/main/java/com/p5/qrcodescanner/MainActivity.kt:94-109 | invokes the detector on the current image, or shows "Failed due to …" when decoding throws |
| `Activity.MainActivity.ExtractBarcodeQrCodeInfo` | app/src/main/java/com/p5/qrcodescanner/MainActivity.kt:111-139 | the loop leaves the last detection's template in the text, or the old text for an empty list, and changes no other field |
| `Activity.MainActivity.OnDetectorSuccess` | app/src/main/java/com/p5/qrcodescanner/MainActivity.kt:98-100 | moves the object as `OnDetectorSuccess`, i.e. the text becomes `DisplayAfter` of the old text |
| `Activity.MainActivity.OnDetectorFailure` | app/src/main/java/com/p5/qrcodescanner/MainActivity.kt:101-104 | appends "Failed scanning due to …"; image and text unchanged |
| `Activity.MainActivity.OnRequestPermissionsResult` | app/src/main/java/com/p5/qrcodescanner/MainActivity.kt:196-225 | moves the object as `OnRequestPermissionsResult` |
| `Activity.MainActivity.OnActivityResult` | app/src/main/java/com/p5/qrcodescanner/MainActivity.kt:227-238 | moves the object as `OnActivityResult`; the text never changes |
| `Activity.MainActivity.HandleAll` | app/src/main/java/com/p5/qrcodescanner/MainActivity.kt:65-238 | delivering a sequence of events to the object leaves it where `Run` says, so the trace lemmas hold of the object |

## Left out

- ML Kit decoding (`BarcodeScanning`, `process`, `InputImage.fromFilePath`) is a foreign library. Only its outcome is modelled: a list of detections, a failure message, or a decode exception.
- The scanner options (`FORMAT_ALL_FORMATS`) and the unused `boundingBox` and `cornerPoints` reads are left out.
- The detector callbacks are asynchronous. They are modelled as separate events delivered in sequence; a detector answer is not tied to an earlier scan.
- `Log.e` is left out. Toasts, permission requests, intent launches and `setImageURI` are recorded in the effect log, not performed or rendered.
- The media-store insert is an opaque slot allocator: its result, possibly null, is a parameter.
- `barcode.wifi!!` and `barcode.url!!` would throw on a null payload. The model assumes the library's guarantee that a Wi-Fi or URL detection carries one.
- The `permissions` argument of `onRequestPermissionsResult` is ignored, as in the source. The callback does not update the OS grants, as in the source; the OS changing them is a separate event.
- The Wi-Fi and URL templates cannot be read back in general, because an SSID or title may itself contain a newline and a label. Only the kind is proved recoverable for them.
- The text view's initial content comes from a layout file that is not part of this model; the constructor takes it as a parameter.
