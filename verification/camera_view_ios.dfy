/**
 * The iOS `PlatformCameraView`: the metadata delegate loop that turns detected objects into
 * `onScan` calls, the device configuration (focus, low-light boost, torch), the choice of
 * camera position, and the capture-session sequencing of `onInit`, `onReset` and `onRelease`.
 */
module IosCameraView {
  import opened Wrappers
  import opened Domain
  import opened IosFormat

  /** The fields of an `AVMetadataMachineReadableCodeObject` the loop reads. */
  datatype CodeFields = CodeFields(codeType: Option<string>, stringValue: Option<string>)

  /**
   * One object of `didOutputMetadataObjects`. For a machine-readable code, `transformed` is what
   * `previewLayer.transformedMetadataObjectForMetadataObject` returns for it, after the cast to a
   * machine-readable code (`None` when that is null or another kind of object).
   */
  datatype MetadataObject =
    | OtherMetadata
    | MachineReadableCode(code: CodeFields, transformed: Option<CodeFields>)

  /** `barcode?.type`, `barcode?.stringValue`. */
  function TransformedType(tr: Option<CodeFields>): Option<string> {
    if tr.Some? then tr.value.codeType else None
  }
  function TransformedValue(tr: Option<CodeFields>): Option<string> {
    if tr.Some? then tr.value.stringValue else None
  }

  /**
   * The result one object produces: none for objects that are not machine-readable codes or
   * whose own type does not decode to a configured format; otherwise format and value come from
   * the transformed barcode where it has them, and from the original object where it does not.
   */
  function ScanOf(t: AvTypes, config: CameraConfig, m: MetadataObject): (r: Option<ScanResult>)
    ensures m.OtherMetadata? ==> r.None?
    ensures m.MachineReadableCode? ==> (r.Some? <==> AsFormat(t, m.code.codeType) in config.formats)
    ensures r.Some? ==> r.value.format == AsFormat(t, OrElse(TransformedType(m.transformed), m.code.codeType))
    ensures r.Some? ==> r.value.value == OrElse(TransformedValue(m.transformed), m.code.stringValue)
  {
    match m
    case OtherMetadata => None
    case MachineReadableCode(code, tr) =>
      if AsFormat(t, code.codeType) in config.formats then
        Some(ScanResult(AsFormat(t, OrElse(TransformedType(tr), code.codeType)),
                        OrElse(TransformedValue(tr), code.stringValue)))
      else None
  }

  /** The results passed to `onScan` for one delegate call, in input order. */
  function CaptureScans(t: AvTypes, config: CameraConfig, objects: seq<MetadataObject>): (r: seq<ScanResult>)
    ensures |r| <= |objects|
    ensures objects == [] || (forall m :: m in objects ==> m.OtherMetadata?) ==> r == []
  {
    if objects == [] then []
    else
      var last := ScanOf(t, config, objects[|objects| - 1]);
      CaptureScans(t, config, objects[..|objects| - 1]) + (if last.Some? then [last.value] else [])
  }

  /** The number of objects that are machine-readable codes whose own type is configured. */
  function Selected(t: AvTypes, config: CameraConfig, objects: seq<MetadataObject>): nat {
    if objects == [] then 0
    else
      var m := objects[|objects| - 1];
      Selected(t, config, objects[..|objects| - 1]) +
        (if m.MachineReadableCode? && AsFormat(t, m.code.codeType) in config.formats then 1 else 0)
  }

  /**
   * One call per selected object; and when the transformation keeps each object's type (or drops
   * it), every emitted format is configured.
   */
  lemma {:induction false} CaptureScansFiltered(t: AvTypes, config: CameraConfig, objects: seq<MetadataObject>)
    ensures |CaptureScans(t, config, objects)| == Selected(t, config, objects)
    ensures (forall m :: m in objects && m.MachineReadableCode? ==>
               TransformedType(m.transformed) in {None, m.code.codeType}) ==>
            forall r :: r in CaptureScans(t, config, objects) ==> r.format in config.formats
  {
    if objects != [] {
      var init := objects[..|objects| - 1];
      assert forall m :: m in init ==> m in objects;
      CaptureScansFiltered(t, config, init);
    }
  }

  /** The format comes from the transformed object: a transformation that changes the type can emit an unconfigured format. */
  lemma TransformedTypeWins(t: AvTypes)
    requires Distinct(t)
    ensures var config := CameraConfig([QrCode], false, false, Back);
      var m := MachineReadableCode(CodeFields(Some(t.qr), Some("x")), Some(CodeFields(Some(t.aztec), None)));
      CaptureScans(t, config, [m]) == [ScanResult(Aztec, Some("x"))]
  {
    RoundTrip(t, QrCode);
    RoundTrip(t, Aztec);
    var config := CameraConfig([QrCode], false, false, Back);
    var m := MachineReadableCode(CodeFields(Some(t.qr), Some("x")), Some(CodeFields(Some(t.aztec), None)));
    assert [m][..0] == [];
  }

  datatype TorchMode = TorchOff | TorchOn | TorchAuto
  datatype FocusRangeRestriction = RestrictionNone | RestrictionNear | RestrictionFar
  datatype Position = PositionFront | PositionBack

  /** `preferredCaptureDevice`'s position: front exactly when the front camera is preferred. */
  function PreferredPosition(preferFrontCamera: bool): (p: Position)
    ensures p == PositionFront <==> preferFrontCamera
  {
    if preferFrontCamera then PositionFront else PositionBack
  }

  /**
   * The torch mode `configure` leaves: with the torch enabled, On if supported, else Auto if
   * supported; with it disabled, Off if supported; in every other case the current mode.
   */
  function TorchAfter(enableTorch: bool, supportsOn: bool, supportsAuto: bool, supportsOff: bool, current: TorchMode): (r: TorchMode)
    ensures r != current ==> (r == TorchOn && supportsOn) || (r == TorchAuto && supportsAuto) || (r == TorchOff && supportsOff)
    ensures enableTorch && supportsOn ==> r == TorchOn
    ensures enableTorch && !supportsOn && supportsAuto ==> r == TorchAuto
    ensures enableTorch && r != current ==> r != TorchOff
    ensures !enableTorch ==> r == (if supportsOff then TorchOff else current)
  {
    if enableTorch then
      if supportsOn then TorchOn else if supportsAuto then TorchAuto else current
    else
      if supportsOff then TorchOff else current
  }

  /** An `AVCaptureDevice`: its capabilities and the settings `configure` writes. */
  class CaptureDevice {
    const supportsNearRestriction: bool   // `isAutoFocusRangeRestrictionSupported()`
    const supportsLowLightBoost: bool     // `isLowLightBoostSupported()`
    const supportsTorchOn: bool
    const supportsTorchAuto: bool
    const supportsTorchOff: bool
    var autoFocusRangeRestriction: FocusRangeRestriction
    var lowLightBoost: bool               // `automaticallyEnablesLowLightBoostWhenAvailable`
    var torchMode: TorchMode

    constructor (near: bool, lowLight: bool, on: bool, auto: bool, off: bool,
                 restriction: FocusRangeRestriction, boost: bool, torch: TorchMode)
      ensures supportsNearRestriction == near && supportsLowLightBoost == lowLight
      ensures supportsTorchOn == on && supportsTorchAuto == auto && supportsTorchOff == off
      ensures autoFocusRangeRestriction == restriction && lowLightBoost == boost && torchMode == torch
    {
      supportsNearRestriction, supportsLowLightBoost := near, lowLight;
      supportsTorchOn, supportsTorchAuto, supportsTorchOff := on, auto, off;
      autoFocusRangeRestriction, lowLightBoost, torchMode := restriction, boost, torch;
    }
  }

  /** The view and the capture session it owns. */
  class PlatformCameraView {
    const config: CameraConfig
    const types: AvTypes
    var inputs: seq<CaptureDevice>         // the devices of the inputs added to the session
    var outputs: seq<seq<string>>          // the `metadataObjectTypes` of each metadata output added
    var previewHasSession: bool            // `previewLayer.setSession(captureSession)`
    var running: bool                      // `startRunning` / `stopRunning`

    constructor (config: CameraConfig, types: AvTypes)
      ensures this.config == config && this.types == types
      ensures inputs == [] && outputs == [] && !previewHasSession && !running
    {
      this.config := config;
      this.types := types;
      inputs, outputs := [], [];
      previewHasSession, running := false, false;
    }

    /** `configure(captureDevice)`: near focus and low-light boost where supported, then the torch. */
    method Configure(device: CaptureDevice)
      modifies device
      ensures device.autoFocusRangeRestriction ==
        if device.supportsNearRestriction then RestrictionNear else old(device.autoFocusRangeRestriction)
      ensures device.lowLightBoost == (device.supportsLowLightBoost || old(device.lowLightBoost))
      ensures device.torchMode == TorchAfter(config.enableTorch, device.supportsTorchOn,
        device.supportsTorchAuto, device.supportsTorchOff, old(device.torchMode))
    {
      if device.supportsNearRestriction {
        device.autoFocusRangeRestriction := RestrictionNear;
      }
      if device.supportsLowLightBoost {
        device.lowLightBoost := true;
      }
      if config.enableTorch {
        if device.supportsTorchOn {
          device.torchMode := TorchOn;
        } else if device.supportsTorchAuto {
          device.torchMode := TorchAuto;
        }
      } else if device.supportsTorchOff {
        device.torchMode := TorchOff;
      }
    }

    /**
     * `onInit`. `front` and `back` are the devices the system offers for each position (null
     * when there is none) and `inputAvailable` whether an input can be made from the chosen one.
     * Without a device or an input it returns having changed nothing; otherwise it configures the
     * device, adds an input and a metadata output for the configured formats, and starts the session.
     */
    method OnInit(front: CaptureDevice?, back: CaptureDevice?, inputAvailable: bool)
      modifies this, front, back
      ensures var device := if PreferredPosition(config.cameraFacing == Front) == PositionFront then front else back;
        if device == null || !inputAvailable then
          unchanged(this) && (front != null ==> unchanged(front)) && (back != null ==> unchanged(back))
        else
          inputs == old(inputs) + [device] &&
          outputs == old(outputs) + [MetadataObjectTypes(types, config.formats)] &&
          previewHasSession && running &&
          device.torchMode == TorchAfter(config.enableTorch, device.supportsTorchOn,
            device.supportsTorchAuto, device.supportsTorchOff, old(device.torchMode)) &&
          device.autoFocusRangeRestriction ==
            (if device.supportsNearRestriction then RestrictionNear else old(device.autoFocusRangeRestriction)) &&
          device.lowLightBoost == (device.supportsLowLightBoost || old(device.lowLightBoost)) &&
          (front != null && front != device ==> unchanged(front)) &&
          (back != null && back != device ==> unchanged(back))
    {
      var position := PreferredPosition(config.cameraFacing == Front);
      var captureDevice := if position == PositionFront then front else back;
      if captureDevice == null || !inputAvailable {
        return;
      }
      Configure(captureDevice);
      inputs := inputs + [captureDevice];
      outputs := outputs + [MetadataObjectTypes(types, config.formats)];
      previewHasSession := true;
      running := true;
    }

    /** `onPermissionGranted`: just `onInit`, with the same effect. */
    method OnPermissionGranted(front: CaptureDevice?, back: CaptureDevice?, inputAvailable: bool)
      modifies this, front, back
      ensures var device := if PreferredPosition(config.cameraFacing == Front) == PositionFront then front else back;
        if device == null || !inputAvailable then
          unchanged(this) && (front != null ==> unchanged(front)) && (back != null ==> unchanged(back))
        else
          inputs == old(inputs) + [device] &&
          outputs == old(outputs) + [MetadataObjectTypes(types, config.formats)] &&
          previewHasSession && running &&
          device.torchMode == TorchAfter(config.enableTorch, device.supportsTorchOn,
            device.supportsTorchAuto, device.supportsTorchOff, old(device.torchMode)) &&
          device.autoFocusRangeRestriction ==
            (if device.supportsNearRestriction then RestrictionNear else old(device.autoFocusRangeRestriction)) &&
          device.lowLightBoost == (device.supportsLowLightBoost || old(device.lowLightBoost)) &&
          (front != null && front != device ==> unchanged(front)) &&
          (back != null && back != device ==> unchanged(back))
    {
      OnInit(front, back, inputAvailable);
    }

    /** `onReset`: stop the session and nothing more. */
    method OnReset()
      modifies this
      ensures !running
      ensures inputs == old(inputs) && outputs == old(outputs) && previewHasSession == old(previewHasSession)
    {
      running := false;
    }

    /** `onRelease`: the same as `onReset`, so releasing twice is the same as releasing once. */
    method OnRelease()
      modifies this
      ensures !running
      ensures inputs == old(inputs) && outputs == old(outputs) && previewHasSession == old(previewHasSession)
    {
      running := false;
    }

    /** `captureOutput`: skip other objects, then one `onScan` per object whose type is configured. */
    method CaptureOutput(objects: seq<MetadataObject>) returns (scans: seq<ScanResult>)
      ensures scans == CaptureScans(types, config, objects)
    {
      scans := [];
      var i := 0;
      while i < |objects|
        invariant 0 <= i <= |objects|
        invariant scans == CaptureScans(types, config, objects[..i])
      {
        var metadata := objects[i];
        assert objects[..i + 1][..i] == objects[..i];
        i := i + 1;
        if metadata.OtherMetadata? {
          continue;
        }
        if AsFormat(types, metadata.code.codeType) in config.formats {
          var barcode := metadata.transformed;
          scans := scans + [ScanResult(AsFormat(types, OrElse(TransformedType(barcode), metadata.code.codeType)),
                                       OrElse(TransformedValue(barcode), metadata.code.stringValue))];
        }
      }
      assert objects[..|objects|] == objects;
    }
  }
}
