/**
 * The Android `PlatformCameraView`: CameraX controller settings chosen in `onInit`, the ML Kit
 * analyzer loop that turns a batch of detected barcodes into `onScan` calls, and the
 * permission/reset/release sequencing.
 */
module AndroidCameraView {
  import opened Wrappers
  import opened Domain
  import opened AndroidFormat
  import CameraController

  /** An ML Kit `Barcode` as the analyzer reads it: its format code and its raw value. */
  datatype MlBarcode = MlBarcode(format: bv32, rawValue: Option<string>)

  /** `CameraSelector.DEFAULT_FRONT_CAMERA` and `CameraSelector.DEFAULT_BACK_CAMERA`. */
  datatype CameraSelector = DefaultFrontCamera | DefaultBackCamera

  /** The selector `onInit` installs: the front camera exactly when the configuration faces front. */
  function SelectorFor(facing: Facing): (s: CameraSelector)
    ensures s == DefaultFrontCamera <==> facing == Front
    ensures s == DefaultBackCamera <==> facing == Back
  {
    match facing
    case Front => DefaultFrontCamera
    case Back => DefaultBackCamera
  }

  /**
   * The format mask given to the barcode scanner: the configured formats' mask, or
   * `FORMAT_ALL_FORMATS` when no configured format is known.
   */
  function ScannerFormats(c: MlKitCodes, config: CameraConfig): (mask: bv32)
    ensures KnownSet(config.formats) == {} ==> mask == c.allFormats
    ensures KnownSet(config.formats) != {} ==>
      forall m :: Disjoint(mask, m) <==> forall f :: f in KnownSet(config.formats) ==> Disjoint(Code(c, f), m)
  {
    ScannerOptionsMeaning(c, config.formats);
    var options := ScannerOptions(c, config.formats);
    if options.Some? then options.value else c.allFormats
  }

  /** The scan result one barcode produces, if its decoded format is configured. */
  function ScanOf(c: MlKitCodes, config: CameraConfig, b: MlBarcode): (r: Option<ScanResult>)
    ensures r.Some? <==> AsFormat(c, b.format) in config.formats
    ensures r.Some? ==> r.value == ScanResult(AsFormat(c, b.format), b.rawValue)
  {
    var format := AsFormat(c, b.format);
    if format in config.formats then Some(ScanResult(format, b.rawValue)) else None
  }

  /** The results passed to `onScan` for a batch of barcodes, in batch order. */
  function Detections(c: MlKitCodes, config: CameraConfig, barcodes: seq<MlBarcode>): (r: seq<ScanResult>)
    ensures |r| <= |barcodes|
    ensures forall i :: 0 <= i < |r| ==> r[i].format in config.formats
  {
    if barcodes == [] then []
    else
      var last := ScanOf(c, config, barcodes[|barcodes| - 1]);
      Detections(c, config, barcodes[..|barcodes| - 1]) + (if last.Some? then [last.value] else [])
  }

  /** A batch is processed barcode by barcode: the results of two batches in a row are concatenated. */
  lemma {:induction false} DetectionsConcat(c: MlKitCodes, config: CameraConfig, a: seq<MlBarcode>, b: seq<MlBarcode>)
    ensures Detections(c, config, a + b) == Detections(c, config, a) + Detections(c, config, b)
  {
    if b == [] {
      assert a + b == a;
    } else {
      DetectionsConcat(c, config, a, b[..|b| - 1]);
      assert (a + b)[..|a + b| - 1] == a + b[..|b| - 1];
    }
  }

  /**
   * Every emitted result has a configured format; every barcode whose decoded format is
   * configured is emitted, with that format and its raw value.
   */
  lemma {:induction false} DetectionsFiltered(c: MlKitCodes, config: CameraConfig, barcodes: seq<MlBarcode>)
    ensures forall r :: r in Detections(c, config, barcodes) ==> r.format in config.formats
    ensures forall b :: b in barcodes && AsFormat(c, b.format) in config.formats ==>
      ScanResult(AsFormat(c, b.format), b.rawValue) in Detections(c, config, barcodes)
    ensures forall r :: r in Detections(c, config, barcodes) ==>
      exists b :: b in barcodes && r == ScanResult(AsFormat(c, b.format), b.rawValue)
  {
    if barcodes != [] {
      var init := barcodes[..|barcodes| - 1];
      DetectionsFiltered(c, config, init);
      assert barcodes == init + [barcodes[|barcodes| - 1]];
      forall r | r in Detections(c, config, barcodes)
        ensures exists b :: b in barcodes && r == ScanResult(AsFormat(c, b.format), b.rawValue)
      {
        if r in Detections(c, config, init) {
          var b :| b in init && r == ScanResult(AsFormat(c, b.format), b.rawValue);
          assert b in barcodes;
        }
      }
    }
  }

  /**
   * A worked example: with only QR codes configured and haptics on, a CODE_128
   * detection followed by a QR detection of "hello" yields one emission and, if the flow accepts
   * it, exactly one haptic.
   */
  lemma QrOnlyScenario(c: MlKitCodes)
    requires Distinct(c)
    ensures var config := CameraConfig([QrCode], false, true, Back);
      var scans := Detections(c, config, [MlBarcode(c.code128, None), MlBarcode(c.qrCode, Some("hello"))]);
      scans == [ScanResult(QrCode, Some("hello"))] &&
      CameraController.HapticCount(CameraController.ScanRun(config.useHapticFeedback, [(scans[0], true)])) == 1
  {
    var config := CameraConfig([QrCode], false, true, Back);
    var b1, b2 := MlBarcode(c.code128, None), MlBarcode(c.qrCode, Some("hello"));
    RoundTrip(c, Code128);
    RoundTrip(c, QrCode);
    assert [b1, b2][..1] == [b1];
    assert Detections(c, config, [b1]) == [];
    var scans := Detections(c, config, [b1, b2]);
    CameraController.ScanRunEffects(true, [(scans[0], true)]);
    assert [(scans[0], true)][..0] == [];
  }

  /**
   * The analyzer feeding the controller: when each result of a batch goes to `onScan` and the
   * flow answers `accepted[i]` for it, the flow is offered exactly those results, in order, so
   * every offered result has a configured format.
   */
  lemma ControllerOffersConfigured(c: MlKitCodes, config: CameraConfig, barcodes: seq<MlBarcode>, accepted: seq<bool>)
    requires |accepted| == |Detections(c, config, barcodes)|
    ensures var scans := Detections(c, config, barcodes);
      var offers := CameraController.Offers(CameraController.ScanRun(config.useHapticFeedback,
        seq(|scans|, i requires 0 <= i < |scans| => (scans[i], accepted[i]))));
      |offers| == |scans| &&
      (forall i :: 0 <= i < |offers| ==> offers[i].0 == scans[i] && offers[i].0.format in config.formats)
  {
    var scans := Detections(c, config, barcodes);
    CameraController.ScanRunEffects(config.useHapticFeedback,
      seq(|scans|, i requires 0 <= i < |scans| => (scans[i], accepted[i])));
  }

  /** The CameraX controller state the view drives, as far as the view changes it. */
  class PlatformCameraView {
    const config: CameraConfig
    const codes: MlKitCodes
    var boundToLifecycle: bool          // `controller.bindToLifecycle(lifecycleOwner)` is in effect
    var previewAttached: bool           // `previewView.controller = controller`
    var torch: Option<bool>             // the last `controller.enableTorch(...)` request
    var selector: Option<CameraSelector>
    var scannerFormats: Option<bv32>    // the formats of the scanner behind the installed analyzer
    var analyzerInstalled: bool

    constructor (config: CameraConfig, codes: MlKitCodes)
      ensures this.config == config && this.codes == codes
      ensures !boundToLifecycle && !previewAttached && !analyzerInstalled
      ensures torch == None && selector == None && scannerFormats == None
    {
      this.config := config;
      this.codes := codes;
      boundToLifecycle, previewAttached, analyzerInstalled := false, false, false;
      torch, selector, scannerFormats := None, None, None;
    }

    /** `onInit`: torch request, camera selector, then the scanner and its analyzer. */
    method OnInit()
      modifies this
      ensures torch == Some(config.enableTorch)
      ensures selector == Some(SelectorFor(config.cameraFacing))
      ensures scannerFormats == Some(ScannerFormats(codes, config)) && analyzerInstalled
      ensures boundToLifecycle == old(boundToLifecycle) && previewAttached == old(previewAttached)
    {
      torch := Some(config.enableTorch);
      selector := Some(match config.cameraFacing case Front => DefaultFrontCamera case Back => DefaultBackCamera);
      var options := ScannerOptions(codes, config.formats);
      scannerFormats := Some(if options.Some? then options.value else codes.allFormats);
      analyzerInstalled := true;
    }

    /** `onPermissionGranted`: bind to the lifecycle, attach the preview, then `onInit`. */
    method OnPermissionGranted()
      modifies this
      ensures boundToLifecycle && previewAttached
      ensures torch == Some(config.enableTorch)
      ensures selector == Some(SelectorFor(config.cameraFacing))
      ensures scannerFormats == Some(ScannerFormats(codes, config)) && analyzerInstalled
    {
      boundToLifecycle := true;
      previewAttached := true;
      OnInit();
    }

    /** `onReset`: does nothing on Android. */
    method OnReset()
      ensures unchanged(this)
    {
    }

    /** `onRelease`: unbind the controller; nothing else changes, so a second release changes nothing. */
    method OnRelease()
      modifies this
      ensures !boundToLifecycle
      ensures previewAttached == old(previewAttached) && torch == old(torch) && selector == old(selector)
      ensures scannerFormats == old(scannerFormats) && analyzerInstalled == old(analyzerInstalled)
    {
      boundToLifecycle := false;
    }

    /** The analyzer's success listener: one `onScan` per barcode whose format is configured, in order. */
    method OnBarcodes(barcodes: seq<MlBarcode>) returns (scans: seq<ScanResult>)
      ensures scans == Detections(codes, config, barcodes)
    {
      scans := [];
      var i := 0;
      while i < |barcodes|
        invariant 0 <= i <= |barcodes|
        invariant scans == Detections(codes, config, barcodes[..i])
      {
        var barcodeFormat := AsFormat(codes, barcodes[i].format);
        if barcodeFormat in config.formats {
          scans := scans + [ScanResult(barcodeFormat, barcodes[i].rawValue)];
        }
        assert barcodes[..i + 1][..i] == barcodes[..i];
        i := i + 1;
      }
      assert barcodes[..|barcodes|] == barcodes;
    }
  }
}
