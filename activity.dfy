/**
  The scanner screen as the object it is: the activity's mutable fields and one
  method per listener or callback. Each method is proved to move the object's
  state exactly as the corresponding handler function of module ScannerScreen does,
  so every property proved there holds of the object.
 */
module Activity {
  import opened Values
  import opened Barcodes
  import opened ScannerScreen

  class MainActivity {
    /** The current image reference (null until an image is acquired). */
    var imageUri: Option<Uri>
    /** The text shown by the result view. */
    var resultText: string
    /** The permission state the operating system reports; the activity only reads it. */
    var grants: Grants
    /** Outside effects requested so far, oldest first. */
    var effects: seq<Effect>

    function State(): Screen
      reads this
    {
      Screen(imageUri, resultText, grants, effects)
    }

    /** onCreate: no image yet, the layout's initial result text, nothing requested. */
    constructor (initialText: string, osGrants: Grants)
      ensures State() == Screen(None, initialText, osGrants, [])
    {
      imageUri := None;
      resultText := initialText;
      grants := osGrants;
      effects := [];
    }

    method ShowToast(message: string)
      modifies this
      ensures State() == ScannerScreen.ShowToast(old(State()), message)
    {
      effects := effects + [Toast(message)];
    }

    method RequestCameraPermission()
      modifies this
      ensures State() == ScannerScreen.RequestCameraPermission(old(State()))
    {
      effects := effects + [RequestPermissions([Camera, WriteExternalStorage], CAMERA_REQUEST_CODE)];
    }

    method RequestStoragePermission()
      modifies this
      ensures State() == ScannerScreen.RequestStoragePermission(old(State()))
    {
      effects := effects + [RequestPermissions([WriteExternalStorage], STORAGE_CODE_REQUEST)];
    }

    /** `slot` is what the media store insert returned, possibly null. */
    method PickImageCamera(slot: Option<Uri>)
      modifies this
      ensures State() == ScannerScreen.PickImageCamera(old(State()), slot)
      ensures imageUri == slot
    {
      imageUri := slot;
      effects := effects + [LaunchCamera(imageUri, CAMERA_REQUEST_CODE)];
    }

    method PickImageGallery()
      modifies this
      ensures State() == ScannerScreen.PickImageGallery(old(State()))
    {
      effects := effects + [LaunchGallery(IMAGE_MIME_TYPE, STORAGE_CODE_REQUEST)];
    }

    /** The camera button's click listener. */
    method CameraClick(slot: Option<Uri>)
      modifies this
      ensures State() == OnCameraClick(old(State()), slot)
      ensures imageUri == if CheckCameraPermissions(grants) then slot else old(imageUri)
    {
      if CheckCameraPermissions(grants) {
        ShowToast(CAMERA_GRANTED);
        PickImageCamera(slot);
      } else {
        ShowToast(CAMERA_REQUESTING);
        RequestCameraPermission();
      }
    }

    /** The gallery button's click listener. */
    method GalleryClick()
      modifies this
      ensures State() == OnGalleryClick(old(State()))
      ensures imageUri == old(imageUri) && resultText == old(resultText)
    {
      if CheckStoragePermission(grants) {
        ShowToast(STORAGE_GRANTED);
        PickImageGallery();
      } else {
        ShowToast(STORAGE_REQUESTING);
        RequestStoragePermission();
      }
    }

    /**
      detectResultFromImage up to the hand-off: `decode` is the outcome of
      reading the image, which may throw; the detector's answer arrives later
      as DetectorSuccess or DetectorFailure.
     */
    method DetectResultFromImage(decode: Decode)
      requires imageUri.Some?
      modifies this
      ensures State() == ScannerScreen.DetectResultFromImage(old(State()), old(imageUri).value, decode)
    {
      match decode {
        case Decoded =>
          effects := effects + [InvokeDetector(imageUri.value)];
        case DecodeFailed(message) =>
          ShowToast("Failed due to " + ShowNullable(message));
      }
    }

    /** The scan button's click listener. */
    method ScanClick(decode: Decode)
      modifies this
      ensures State() == OnScanClick(old(State()), decode)
      ensures imageUri == old(imageUri) && resultText == old(resultText)
      ensures old(imageUri).None? ==> effects == old(effects) + [Toast(SELECT_IMAGE_FIRST)]
    {
      if imageUri == None {
        ShowToast(SELECT_IMAGE_FIRST);
      } else {
        DetectResultFromImage(decode);
      }
    }

    method OnRequestPermissionsResult(requestCode: int, grantResults: seq<int>, slot: Option<Uri>)
      modifies this
      ensures State() == ScannerScreen.OnRequestPermissionsResult(old(State()), requestCode, grantResults, slot)
    {
      if requestCode == CAMERA_REQUEST_CODE {
        if |grantResults| > 0 && grantResults[0] == PERMISSION_GRANTED {
          ShowToast(CAMERA_GRANTED);
          PickImageCamera(slot);
        } else {
          ShowToast(CAMERA_DENIED);
        }
      } else if requestCode == STORAGE_CODE_REQUEST {
        if |grantResults| > 0 && grantResults[0] == PERMISSION_GRANTED {
          ShowToast(STORAGE_GRANTED);
          PickImageGallery();
        } else {
          ShowToast(STORAGE_DENIED);
        }
      }
    }

    method OnActivityResult(requestCode: int, resultCode: int, data: Option<Intent>)
      modifies this
      ensures State() == ScannerScreen.OnActivityResult(old(State()), requestCode, resultCode, data)
      ensures resultText == old(resultText)
    {
      if resultCode == RESULT_OK {
        if requestCode == CAMERA_REQUEST_CODE {
          effects := effects + [ShowImage(imageUri)];
        } else if requestCode == STORAGE_CODE_REQUEST {
          imageUri := IntentData(data);
          effects := effects + [ShowImage(imageUri)];
        }
      }
    }

    /**
      extractBarcodeQrCodeInfo: every detection in turn overwrites the result
      text, so the last one wins and an empty list changes nothing.
     */
    method ExtractBarcodeQrCodeInfo(barcodes: seq<Barcode>)
      modifies this`resultText
      ensures barcodes == [] ==> resultText == old(resultText)
      ensures barcodes != [] ==> resultText == Format(barcodes[|barcodes| - 1])
    {
      for i := 0 to |barcodes|
        invariant i == 0 ==> resultText == old(resultText)
        invariant i > 0 ==> resultText == Format(barcodes[i - 1])
      {
        var text := Format(barcodes[i]);
        resultText := text;
      }
    }

    /** The detector's success listener. */
    method OnDetectorSuccess(barcodes: seq<Barcode>)
      modifies this
      ensures State() == ScannerScreen.OnDetectorSuccess(old(State()), barcodes)
    {
      ExtractBarcodeQrCodeInfo(barcodes);
    }

    /** The detector's failure listener. */
    method OnDetectorFailure(message: Option<string>)
      modifies this
      ensures State() == ScannerScreen.OnDetectorFailure(old(State()), message)
      ensures imageUri == old(imageUri) && resultText == old(resultText)
    {
      ShowToast("Failed scanning due to " + ShowNullable(message));
    }

    /** The operating system changing a permission (through its prompt or its settings). */
    method OnPermissionsChanged(osGrants: Grants)
      modifies this
      ensures State() == Step(old(State()), PermissionsChanged(osGrants))
    {
      grants := osGrants;
    }

    /** Dispatches one event to its listener or callback. */
    method Handle(e: Event)
      modifies this
      ensures State() == Step(old(State()), e)
    {
      match e {
        case CameraClicked(slot) => CameraClick(slot);
        case GalleryClicked => GalleryClick();
        case ScanClicked(decode) => ScanClick(decode);
        case PermissionsResult(requestCode, grantResults, slot) => OnRequestPermissionsResult(requestCode, grantResults, slot);
        case ActivityResult(requestCode, resultCode, data) => OnActivityResult(requestCode, resultCode, data);
        case DetectorSucceeded(barcodes) => OnDetectorSuccess(barcodes);
        case DetectorFailed(message) => OnDetectorFailure(message);
        case PermissionsChanged(osGrants) => OnPermissionsChanged(osGrants);
      }
    }

    /** Delivers a sequence of events in order; the object ends where Run says. */
    method HandleAll(events: seq<Event>)
      modifies this
      ensures State() == Run(old(State()), events)
    {
      for i := 0 to |events|
        invariant Run(old(State()), events) == Run(State(), events[i..])
      {
        assert events[i..][1..] == events[i + 1..];
        Handle(events[i]);
      }
    }
  }
}
