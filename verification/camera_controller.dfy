/**
 * `NativeCameraController`: re-publishes each scan on the results flow, asks for a confirm
 * haptic when the emission succeeded and the configuration wants haptics, and forwards the
 * lifecycle calls to the platform view. Its effects are recorded as a trace of events; the
 * result of the flow's `tryEmit` is an input.
 */
module CameraController {
  import opened Domain

  datatype HapticType = Confirm

  /** One observable effect of the controller. */
  datatype Event =
    | Offered(result: ScanResult, accepted: bool)  // `tryEmit(result)` and what it returned
    | Haptic(kind: HapticType)                     // `performHapticFeedback(kind)`
    | ViewPermissionGranted                         // `platformCameraView.onPermissionGranted()`
    | ViewReset                                     // `platformCameraView.onReset()`
    | ViewInit                                      // `platformCameraView.onInit()`
    | ViewRelease                                   // `platformCameraView.onRelease()`

  /** The number of haptic calls in a trace. */
  function HapticCount(es: seq<Event>): nat {
    if es == [] then 0 else HapticCount(es[..|es| - 1]) + (if es[|es| - 1].Haptic? then 1 else 0)
  }

  /** The offers made to the flow, in order, with the result of each. */
  function Offers(es: seq<Event>): seq<(ScanResult, bool)> {
    if es == [] then []
    else Offers(es[..|es| - 1]) + (if es[|es| - 1].Offered? then [(es[|es| - 1].result, es[|es| - 1].accepted)] else [])
  }

  lemma {:induction false} CountsDistribute(a: seq<Event>, b: seq<Event>)
    ensures HapticCount(a + b) == HapticCount(a) + HapticCount(b)
    ensures Offers(a + b) == Offers(a) + Offers(b)
  {
    if b != [] {
      CountsDistribute(a, b[..|b| - 1]);
      assert (a + b)[..|a + b| - 1] == a + b[..|b| - 1];
      assert (a + b)[|a + b| - 1] == b[|b| - 1];
    } else {
      assert a + b == a;
    }
  }

  /** What one `onScan(result)` does when `tryEmit` returns `emitted`. */
  function ScanEffects(useHapticFeedback: bool, result: ScanResult, emitted: bool): (es: seq<Event>)
    ensures Offers(es) == [(result, emitted)]
    ensures HapticCount(es) <= 1
    ensures HapticCount(es) == 1 <==> emitted && useHapticFeedback
    ensures forall e :: e in es && e.Haptic? ==> e.kind == Confirm
  {
    var offer := [Offered(result, emitted)];
    if emitted && useHapticFeedback then
      CountsDistribute(offer, [Haptic(Confirm)]);
      assert [Haptic(Confirm)][..0] == [];
      offer + [Haptic(Confirm)]
    else
      offer
  }

  /** The trace of a run of `onScan` calls, each paired with its `tryEmit` result. */
  function ScanRun(useHapticFeedback: bool, scans: seq<(ScanResult, bool)>): (es: seq<Event>)
    ensures |scans| <= |es| <= 2 * |scans|
    ensures forall e :: e in es ==> e.Offered? || e == Haptic(Confirm)
  {
    if scans == [] then []
    else
      var last := scans[|scans| - 1];
      ScanRun(useHapticFeedback, scans[..|scans| - 1]) + ScanEffects(useHapticFeedback, last.0, last.1)
  }

  /** The number of accepted emissions in a run. */
  function Accepted(scans: seq<(ScanResult, bool)>): nat {
    if scans == [] then 0 else Accepted(scans[..|scans| - 1]) + (if scans[|scans| - 1].1 then 1 else 0)
  }

  /**
   * Every result is offered to the flow, in order, with no filtering or de-duplication; with
   * haptics off no haptic call is made, and with haptics on exactly one per accepted emission.
   */
  lemma {:induction false} ScanRunEffects(useHapticFeedback: bool, scans: seq<(ScanResult, bool)>)
    ensures Offers(ScanRun(useHapticFeedback, scans)) == scans
    ensures HapticCount(ScanRun(useHapticFeedback, scans)) == if useHapticFeedback then Accepted(scans) else 0
  {
    if scans != [] {
      var init, last := scans[..|scans| - 1], scans[|scans| - 1];
      ScanRunEffects(useHapticFeedback, init);
      CountsDistribute(ScanRun(useHapticFeedback, init), ScanEffects(useHapticFeedback, last.0, last.1));
      assert init + [last] == scans;
    }
  }

  /** `CameraStateImpl`: the permission flag the platform layer keeps up to date. */
  class CameraStateImpl {
    var hasCameraPermission: bool

    constructor (hasCameraPermission: bool)
      ensures this.hasCameraPermission == hasCameraPermission
    {
      this.hasCameraPermission := hasCameraPermission;
    }
  }

  /**
   * The controller. `trace` records what the controller has done so far; the offers in it are
   * what `onScan` hands to the flow behind `scannedResults`.
   */
  class NativeCameraController {
    const config: CameraConfig
    const initialCameraState: CameraStateImpl
    var trace: seq<Event>

    constructor (config: CameraConfig, initialCameraState: CameraStateImpl)
      ensures this.config == config && this.initialCameraState == initialCameraState
      ensures trace == []
    {
      this.config := config;
      this.initialCameraState := initialCameraState;
      trace := [];
    }

    /** `cameraState`: the very object given as `initialCameraState`, not a copy. */
    function CameraState(): (s: CameraStateImpl)
      ensures s == initialCameraState
    {
      initialCameraState
    }

    /** `onScan`: offer the result; a confirm haptic iff `tryEmit` succeeded and haptics are on. */
    method OnScan(result: ScanResult, tryEmitResult: bool)
      modifies this
      ensures trace == old(trace) + ScanEffects(config.useHapticFeedback, result, tryEmitResult)
    {
      trace := trace + [Offered(result, tryEmitResult)];
      if tryEmitResult && config.useHapticFeedback {
        trace := trace + [Haptic(Confirm)];
      }
    }

    /** `onPermissionGranted`: one call to the platform view. */
    method OnPermissionGranted()
      modifies this
      ensures trace == old(trace) + [ViewPermissionGranted]
    {
      trace := trace + [ViewPermissionGranted];
    }

    /** `onReset`: the platform view's `onReset`, then its `onInit`. */
    method OnReset()
      modifies this
      ensures trace == old(trace) + [ViewReset, ViewInit]
    {
      trace := trace + [ViewReset];
      trace := trace + [ViewInit];
    }

    /** `onRelease`: one call to the platform view. */
    method OnRelease()
      modifies this
      ensures trace == old(trace) + [ViewRelease]
    {
      trace := trace + [ViewRelease];
    }
  }
}
