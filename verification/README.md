# Camera barcode scanner: a verified model of its core logic

The repository is a Kotlin multiplatform barcode-scanner library with sample apps. A camera view
on each platform (CameraX with ML Kit on Android, AVFoundation on iOS) reports detected barcodes
as `ScanResult(format, value)` values. A `NativeCameraController` re-publishes them on a flow and
can trigger a haptic. The Android sample app keeps a bounded, duplicate-free history of the last
five scans. Two ktlint rules stop one layer's module from importing another's.

This project models that logic in Dafny and proves what the code promises:

- `domain.dfy` (`Domain`): the `Format` and `Facing` enums, `ScanResult`, `CameraConfig` and its
  defaults, and the "drop `UNKNOWN`" filter that both platforms apply.
- `format_android.dfy` (`AndroidFormat`): `Format.value` and `Int.asFormat` over ML Kit's
  integer codes, and `toBarcodeScannerOptions`, the bitwise OR of the codes. A Kotlin `Int` is a
  `bv32`.
- `format_ios.dfy` (`IosFormat`): `Format.value`, `String?.asFormat` and
  `toMetadataObjectTypes` over AVFoundation's type strings.
- `camera_view_android.dfy` (`AndroidCameraView`): the analyzer loop that turns a batch of
  barcodes into `onScan` calls, the settings `onInit` installs, and `onPermissionGranted`,
  `onReset` and `onRelease`.
- `camera_view_ios.dfy` (`IosCameraView`): the `captureOutput` delegate loop, `configure`
  (focus, low-light boost, torch), `preferredCaptureDevice`, and the session handling in
  `onInit`, `onReset` and `onRelease`.
- `camera_controller.dfy` (`CameraController`): `onScan`, `onPermissionGranted`, `onReset` and
  `onRelease`. Their effects are recorded as a trace of events.
- `scan_history.dfy` (`ScanHistory`): the `scannedResults.collect` body of the Android app.
- `strings.dfy`, `kt_ast.dfy`, `wrappers.dfy`: Kotlin's `String.contains`, the syntax-tree nodes
  the lint rules visit, and `Option` with the Elvis operator.
- `lint_import_allowed.dfy` (`ImportAllowedInPackage`) and `lint_data_in_domain.dfy`
  (`DataImportInDomain`): the two lint rules.

The native constants are abstract record parameters: ML Kit's `FORMAT_*` integers (`MlKitCodes`)
and AVFoundation's `AVMetadataObjectType*` strings (`AvTypes`). The round-trip lemmas require
them to be pairwise distinct (`Distinct`). A Kotlin `Set` is a `seq` in its iteration order,
which is insertion order for the sets involved here.

Methods that change state are proved against pure functions. Each loop's result equals a
specification function (`Detections`, `CaptureScans`, `StepAfter`). Each state change equals a
step function (`Record`, `StepBefore`, `Step`, `ScanEffects`). The lemmas state the properties
of those functions.

## Model

| member | source | states |
|---|---|---|
| Domain.EntriesComplete | shared-domain/src/commonMain/kotlin/dev/sdkforge/camera/domain/Format.kt:10-106 | `Format.entries` lists each of the twelve formats exactly once |
| Domain.DefaultConfig | shared-domain/src/commonMain/kotlin/dev/sdkforge/camera/domain/CameraConfig.kt:14-48 | the default configuration holds every format, `UNKNOWN` included, with no duplicates; torch off, haptics off, back camera |
| Domain.ScanResultEquality | shared-domain/src/commonMain/kotlin/dev/sdkforge/camera/domain/ScanResult.kt:14-30 | two results are equal exactly when their formats and values are equal; a null value equals only null |
| Domain.Known | shared-ui/src/androidMain/kotlin/dev/sdkforge/camera/ui/Format.android.kt:37 | the non-`UNKNOWN` members: exactly the members other than `UNKNOWN`, and as many as the input has minus its `UNKNOWN` occurrences |
| AndroidFormat.Code | shared-ui/src/androidMain/kotlin/dev/sdkforge/camera/ui/Format.android.kt:5-19 | `UNKNOWN` encodes to `FORMAT_UNKNOWN` and every other format to one of the eleven concrete `FORMAT_*` constants; `AsFormat` and `RoundTrip` give the inverse |
| AndroidFormat.AsFormat | shared-ui/src/androidMain/kotlin/dev/sdkforge/camera/ui/Format.android.kt:21-35 | a decoded known format has the given code; `UNKNOWN` is returned exactly when no known format has that code |
| AndroidFormat.RoundTrip | shared-ui/src/androidMain/kotlin/dev/sdkforge/camera/ui/Format.android.kt:5-35 | with distinct codes, decoding the code of any format, `UNKNOWN` included, gives that format back |
| AndroidFormat.KnownCodes | shared-ui/src/androidMain/kotlin/dev/sdkforge/camera/ui/Format.android.kt:37 | the `mapNotNull` step yields the code of each non-`UNKNOWN` member, in order |
| AndroidFormat.ReduceOr | shared-ui/src/androidMain/kotlin/dev/sdkforge/camera/ui/Format.android.kt:38 | `reduceOrNull` is null exactly on an empty list |
| AndroidFormat.ReduceOrBits | shared-ui/src/androidMain/kotlin/dev/sdkforge/camera/ui/Format.android.kt:38 | the folded `or` misses a mask exactly when every element misses it |
| AndroidFormat.ScannerOptions | shared-ui/src/androidMain/kotlin/dev/sdkforge/camera/ui/Format.android.kt:37-38 | `toBarcodeScannerOptions` is null exactly when the collection has no known member (`ScannerOptionsMeaning` states the bits) |
| AndroidFormat.ScannerOptionsMeaning | shared-ui/src/androidMain/kotlin/dev/sdkforge/camera/ui/Format.android.kt:37-38 | `toBarcodeScannerOptions` is null exactly when no member is known; otherwise a bit is clear in it exactly when it is clear in every known member's code, which makes it the OR of those codes |
| AndroidFormat.ScannerOptionsSetDetermined | shared-ui/src/androidMain/kotlin/dev/sdkforge/camera/ui/Format.android.kt:37-38 | two collections with the same known members give the same options, whatever their order, duplicates or `UNKNOWN` members |
| AndroidFormat.ScannerOptionsIgnoresUnknown | shared-ui/src/androidMain/kotlin/dev/sdkforge/camera/ui/Format.android.kt:37 | adding `UNKNOWN` at either end changes nothing |
| IosFormat.TypeOf | shared-ui/src/iosMain/kotlin/dev/sdkforge/camera/ui/Format.ios.kt:24-38 | `Format.value` is null exactly for `UNKNOWN`, and otherwise one of the eleven `AVMetadataObjectType*` constants; `AsFormat` and `RoundTrip` give the inverse |
| IosFormat.AsFormat | shared-ui/src/iosMain/kotlin/dev/sdkforge/camera/ui/Format.ios.kt:48-62 | a decoded known format has the given type string; null and every string that is not a known type decode to `UNKNOWN` |
| IosFormat.RoundTrip | shared-ui/src/iosMain/kotlin/dev/sdkforge/camera/ui/Format.ios.kt:24-62 | with distinct type strings, decoding the type of any format gives it back; `UNKNOWN` comes back through null |
| IosFormat.MetadataObjectTypes | shared-ui/src/iosMain/kotlin/dev/sdkforge/camera/ui/Format.ios.kt:73 | one non-null type string per non-`UNKNOWN` member, in order, each the type of that member |
| IosFormat.MetadataObjectTypesDecode | shared-ui/src/iosMain/kotlin/dev/sdkforge/camera/ui/Format.ios.kt:24-73 | with distinct types, the i-th listed type decodes to the i-th known member, and every listed type decodes to a member of the input |
| AndroidCameraView.SelectorFor | shared-ui/src/androidMain/kotlin/dev/sdkforge/camera/ui/PlatformCameraView.android.kt:121-124 | the selector is the front camera exactly when the configuration faces front, and the back camera otherwise |
| AndroidCameraView.ScannerFormats | shared-ui/src/androidMain/kotlin/dev/sdkforge/camera/ui/PlatformCameraView.android.kt:126-128 | the scanner's formats are `FORMAT_ALL_FORMATS` when no configured format is known, and otherwise the OR of the known formats' codes, stated by its bits |
| AndroidCameraView.ScanOf | shared-ui/src/androidMain/kotlin/dev/sdkforge/camera/ui/PlatformCameraView.android.kt:137-145 | a barcode yields a result exactly when its decoded format is configured; the result has that format and the barcode's raw value |
| AndroidCameraView.Detections | shared-ui/src/androidMain/kotlin/dev/sdkforge/camera/ui/PlatformCameraView.android.kt:136-146 | a batch yields at most one result per barcode, and every result has a configured format |
| AndroidCameraView.DetectionsConcat | shared-ui/src/androidMain/kotlin/dev/sdkforge/camera/ui/PlatformCameraView.android.kt:136-146 | the loop handles barcodes one at a time: the results of two batches in a row are the concatenation of their results |
| AndroidCameraView.DetectionsFiltered | shared-ui/src/androidMain/kotlin/dev/sdkforge/camera/ui/PlatformCameraView.android.kt:136-146 | every emitted format is configured; every barcode with a configured format is emitted; every result comes from some barcode |
| AndroidCameraView.QrOnlyScenario | shared-ui/src/androidMain/kotlin/dev/sdkforge/camera/ui/PlatformCameraView.android.kt:136-146 | with only QR configured, a CODE_128 barcode and then a QR barcode "hello" give the single result (QR, "hello"), and one haptic when haptics are on and the flow accepts it |
| AndroidCameraView.ControllerOffersConfigured | shared-ui/src/androidMain/kotlin/dev/sdkforge/camera/ui/PlatformCameraView.android.kt:136-146 | the analyzer loop feeding `NativeCameraController.onScan`: the flow is offered exactly the batch's results, in order, so every offered result has a configured format |
| AndroidCameraView.PlatformCameraView.constructor | shared-ui/src/androidMain/kotlin/dev/sdkforge/camera/ui/PlatformCameraView.android.kt:38-96 | a fresh view is unbound, has no preview controller and no analyzer, and has requested no torch, selector or scanner |
| AndroidCameraView.PlatformCameraView.OnInit | shared-ui/src/androidMain/kotlin/dev/sdkforge/camera/ui/PlatformCameraView.android.kt:119-152 | `onInit` requests the torch as configured, installs `SelectorFor(cameraFacing)` and an analyzer whose scanner has `ScannerFormats`, and leaves the binding and the preview alone |
| AndroidCameraView.PlatformCameraView.OnPermissionGranted | shared-ui/src/androidMain/kotlin/dev/sdkforge/camera/ui/PlatformCameraView.android.kt:104-110 | `onPermissionGranted` binds to the lifecycle, attaches the preview, then does everything `onInit` does |
| AndroidCameraView.PlatformCameraView.OnReset | shared-ui/src/androidMain/kotlin/dev/sdkforge/camera/ui/PlatformCameraView.android.kt:160-161 | `onReset` changes nothing |
| AndroidCameraView.PlatformCameraView.OnRelease | shared-ui/src/androidMain/kotlin/dev/sdkforge/camera/ui/PlatformCameraView.android.kt:169-171 | `onRelease` unbinds the controller and changes nothing else |
| AndroidCameraView.PlatformCameraView.OnBarcodes | shared-ui/src/androidMain/kotlin/dev/sdkforge/camera/ui/PlatformCameraView.android.kt:136-146 | the success listener's loop calls `onScan` with exactly `Detections` of the batch, in order |
| IosCameraView.ScanOf | shared-ui/src/iosMain/kotlin/dev/sdkforge/camera/ui/PlatformCameraView.ios.kt:190-205 | objects that are not machine-readable codes are skipped; a code yields a result exactly when its own type decodes to a configured format; format and value come from the transformed barcode when it has them, else from the original |
| IosCameraView.CaptureScans | shared-ui/src/iosMain/kotlin/dev/sdkforge/camera/ui/PlatformCameraView.ios.kt:185-206 | at most one result per object, and none for an empty list or a list without machine-readable codes |
| IosCameraView.CaptureScansFiltered | shared-ui/src/iosMain/kotlin/dev/sdkforge/camera/ui/PlatformCameraView.ios.kt:190-205 | one result per selected object; when no transformation changes an object's type, every emitted format is configured |
| IosCameraView.TransformedTypeWins | shared-ui/src/iosMain/kotlin/dev/sdkforge/camera/ui/PlatformCameraView.ios.kt:193-201 | the filter reads the original type but the result reads the transformed one: a QR object whose transformed type is Aztec emits Aztec while only QR is configured |
| IosCameraView.PreferredPosition | shared-ui/src/iosMain/kotlin/dev/sdkforge/camera/ui/PlatformCameraView.ios.kt:162-172 | the front position is requested exactly when the front camera is preferred |
| IosCameraView.TorchAfter | shared-ui/src/iosMain/kotlin/dev/sdkforge/camera/ui/PlatformCameraView.ios.kt:132-148 | with the torch enabled: On if supported, else Auto if supported, else unchanged, and never Off; with it disabled: Off if supported, else unchanged; any change is to a supported mode |
| IosCameraView.PlatformCameraView.constructor | shared-ui/src/iosMain/kotlin/dev/sdkforge/camera/ui/PlatformCameraView.ios.kt:58-113 | a fresh view's session has no inputs or outputs, no preview session, and is not running |
| IosCameraView.PlatformCameraView.Configure | shared-ui/src/iosMain/kotlin/dev/sdkforge/camera/ui/PlatformCameraView.ios.kt:121-151 | near focus and low-light boost are set only where supported, and the torch mode becomes `TorchAfter` of the device's capabilities |
| IosCameraView.PlatformCameraView.OnInit | shared-ui/src/iosMain/kotlin/dev/sdkforge/camera/ui/PlatformCameraView.ios.kt:224-247 | with no device for the preferred position, or no input, nothing changes; otherwise the chosen device is configured, one input and one metadata output with `toMetadataObjectTypes(config.formats)` are added, the preview gets the session, and the session runs |
| IosCameraView.PlatformCameraView.OnPermissionGranted | shared-ui/src/iosMain/kotlin/dev/sdkforge/camera/ui/PlatformCameraView.ios.kt:214-247 | `onPermissionGranted` has the whole effect of `onInit`: with no device for the preferred position, or no input, nothing changes; otherwise the chosen device gets near focus and low-light boost where supported and the torch mode `TorchAfter`, the other device is untouched, one input and one metadata output are added, the preview gets the session, and the session runs |
| IosCameraView.PlatformCameraView.OnReset | shared-ui/src/iosMain/kotlin/dev/sdkforge/camera/ui/PlatformCameraView.ios.kt:255-257 | `onReset` stops the session and changes nothing else |
| IosCameraView.PlatformCameraView.OnRelease | shared-ui/src/iosMain/kotlin/dev/sdkforge/camera/ui/PlatformCameraView.ios.kt:265-267 | `onRelease` does the same as `onReset`: it stops the session and nothing else |
| IosCameraView.PlatformCameraView.CaptureOutput | shared-ui/src/iosMain/kotlin/dev/sdkforge/camera/ui/PlatformCameraView.ios.kt:185-206 | the delegate loop, `continue` included, calls `onScan` with exactly `CaptureScans` of the objects, in order |
| Wrappers.OrElse | shared-ui/src/iosMain/kotlin/dev/sdkforge/camera/ui/PlatformCameraView.ios.kt:200-201 | the Elvis operator: the left value when it is non-null, else the right |
| CameraController.ScanEffects | shared-ui/src/commonMain/kotlin/dev/sdkforge/camera/ui/CameraController.kt:105-109 | one `onScan` makes exactly one offer to the flow, with its `tryEmit` result, and at most one haptic, which is made exactly when the emission succeeded and haptics are on and is always Confirm |
| CameraController.ScanRun | shared-ui/src/commonMain/kotlin/dev/sdkforge/camera/ui/CameraController.kt:105-109 | `n` scans make between `n` and `2n` effects, each an offer to the flow or a Confirm haptic |
| CameraController.ScanRunEffects | shared-ui/src/commonMain/kotlin/dev/sdkforge/camera/ui/CameraController.kt:105-109 | over many scans every result is offered, in order, with no filtering or de-duplication; haptics count the accepted emissions when on and are zero when off |
| CameraController.CameraStateImpl.constructor | shared-ui/src/commonMain/kotlin/dev/sdkforge/camera/ui/CameraState.kt:34-42 | the state holds the given permission flag |
| CameraController.NativeCameraController.constructor | shared-ui/src/commonMain/kotlin/dev/sdkforge/camera/ui/CameraController.kt:38-78 | the controller keeps its configuration and its `initialCameraState`, and has done nothing yet |
| CameraController.NativeCameraController.CameraState | shared-ui/src/commonMain/kotlin/dev/sdkforge/camera/ui/CameraController.kt:85 | `cameraState` is the very `initialCameraState` object, not a copy, so permission updates to one are seen through the other |
| CameraController.NativeCameraController.OnScan | shared-ui/src/commonMain/kotlin/dev/sdkforge/camera/ui/CameraController.kt:105-109 | `onScan` appends exactly `ScanEffects` of the configuration's haptic flag, the result and the `tryEmit` outcome |
| CameraController.NativeCameraController.OnPermissionGranted | shared-ui/src/commonMain/kotlin/dev/sdkforge/camera/ui/CameraController.kt:117-119 | exactly one call: the view's `onPermissionGranted` |
| CameraController.NativeCameraController.OnReset | shared-ui/src/commonMain/kotlin/dev/sdkforge/camera/ui/CameraController.kt:127-130 | the view's `onReset` and then its `onInit`, in that order, and nothing else |
| CameraController.NativeCameraController.OnRelease | shared-ui/src/commonMain/kotlin/dev/sdkforge/camera/ui/CameraController.kt:138-140 | exactly one call: the view's `onRelease` |
| ScanHistory.Record | app-android/src/main/java/dev/sdkforge/camera/android/MainActivity.kt:69-75 | a result already present leaves the history as it is; a new one becomes the newest element, after the oldest has gone if the history held five; the survivors keep their order |
| ScanHistory.OutcomeOf | app-android/src/main/java/dev/sdkforge/camera/android/MainActivity.kt:69-77 | each collected result has exactly one outcome: "already scanned" exactly when it is in the history, else "scanned value" with its value |
| ScanHistory.ToastText | app-android/src/main/java/dev/sdkforge/camera/android/MainActivity.kt:70-76 | every toast starts with "Success - ", and the toast for a non-null scanned value ends with that value |
| ScanHistory.RecordKeepsBounded | app-android/src/main/java/dev/sdkforge/camera/android/MainActivity.kt:69-75 | collecting a result keeps a history of at most five results without duplicates in that state |
| ScanHistory.RecordMembers | app-android/src/main/java/dev/sdkforge/camera/android/MainActivity.kt:72-75 | after a collection an element is present exactly when it is the new result or it was present and was not the evicted oldest element |
| ScanHistory.History | app-android/src/main/java/dev/sdkforge/camera/android/MainActivity.kt:67-78 | from an empty history, `n` collected results leave at most `n` and at most five |
| ScanHistory.HistoryMembers | app-android/src/main/java/dev/sdkforge/camera/android/MainActivity.kt:67-78 | the history holds only collected results, and always holds the latest one, even when it was a duplicate |
| ScanHistory.RecordSubset | app-android/src/main/java/dev/sdkforge/camera/android/MainActivity.kt:69-75 | one collection adds nothing but the collected result and always leaves it present |
| ScanHistory.HistoryBounded | app-android/src/main/java/dev/sdkforge/camera/android/MainActivity.kt:59-78 | from an empty history, any sequence of results leaves at most five results and no two equal ones |
| ScanHistory.HistoryOfDistinct | app-android/src/main/java/dev/sdkforge/camera/android/MainActivity.kt:67-78 | collecting pairwise-distinct results keeps exactly the most recent five, oldest first (first in, first out) |
| ScanHistory.FifoEviction | app-android/src/main/java/dev/sdkforge/camera/android/MainActivity.kt:72-75 | with six distinct results the first is evicted and the other five remain in order |
| ScanHistory.Scans.constructor | app-android/src/main/java/dev/sdkforge/camera/android/MainActivity.kt:59 | the history starts empty |
| ScanHistory.Scans.Collect | app-android/src/main/java/dev/sdkforge/camera/android/MainActivity.kt:68-77 | the collector body updates the history in place to `Record`, returns `OutcomeOf` the old history, and keeps it bounded and duplicate-free |
| Strings.Contains | internal-ktlint/src/main/kotlin/dev/sdkforge/ktlint/NoDataImportInDomainRule.kt:36-37 | `contains` holds exactly when the text occurs somewhere as a contiguous substring |
| ImportAllowedInPackage.Width | internal-ktlint/src/main/kotlin/dev/sdkforge/ktlint/NoImportAllowedInPackageRule.kt:68-69 | Java's `%<n>s`: the argument unchanged when it has at least `n` characters, otherwise left-padded with spaces to exactly `n` |
| ImportAllowedInPackage.ViolationMessage | internal-ktlint/src/main/kotlin/dev/sdkforge/ktlint/NoImportAllowedInPackageRule.kt:60-69 | the formatted message starts with "Importing: ", ends with " module", and contains the import name, the target import and the target package |
| ImportAllowedInPackage.NoPadding | internal-ktlint/src/main/kotlin/dev/sdkforge/ktlint/NoImportAllowedInPackageRule.kt:60-69 | an import name of at least one character, a target import of at least two and a target package of at least three are printed unpadded |
| ImportAllowedInPackage.ShortNamesPadded | internal-ktlint/src/main/kotlin/dev/sdkforge/ktlint/NoImportAllowedInPackageRule.kt:60-69 | with the pair `"x" to "ui"`, the message for `a.x` has two spaces before `x` and two before `ui`: `%2s` and `%3s` pad them |
| ImportAllowedInPackage.FirstMatch | internal-ktlint/src/main/kotlin/dev/sdkforge/ktlint/NoImportAllowedInPackageRule.kt:56-62 | the loop's stopping point: no index exactly when no import contains the target, otherwise the first import that does |
| ImportAllowedInPackage.StepBefore | internal-ktlint/src/main/kotlin/dev/sdkforge/ktlint/NoImportAllowedInPackageRule.kt:28-47 | a package directive sets the package name to its qualified name; an import with a non-empty path is collected, after the earlier ones; everything else changes nothing |
| ImportAllowedInPackage.StepAfter | internal-ktlint/src/main/kotlin/dev/sdkforge/ktlint/NoImportAllowedInPackageRule.kt:49-65 | only an import list is checked; no imports or a package name without the target package give no violation; with imports and no package name the lateinit read fails; a violation exists exactly when some import contains the target, and it is at the list's offset with `ViolationMessage` of the first such import, the target import and the target package, so the last two are padded to widths 2 and 3 |
| ImportAllowedInPackage.Run | internal-ktlint/src/main/kotlin/dev/sdkforge/ktlint/NoImportAllowedInPackageRule.kt:28-65 | a run over a stream of visits emits at most one error per visit, none of them auto-correctable |
| ImportAllowedInPackage.ImportVisitsCollect | internal-ktlint/src/main/kotlin/dev/sdkforge/ktlint/NoImportAllowedInPackageRule.kt:37-43 | visiting a list of non-empty imports appends them, in order, to the imports already held |
| ImportAllowedInPackage.FileReportsFirstMatch | internal-ktlint/src/main/kotlin/dev/sdkforge/ktlint/NoImportAllowedInPackageRule.kt:28-65 | for one file, at most one error is reported, at the import list, with `ViolationMessage` of the first import that contains the target, and only when the package name contains the target package |
| ImportAllowedInPackage.RuleTest | internal-ktlint/src/test/kotlin/dev/sdkforge/ktlint/NoImportAllowedInPackageRuleTest.kt:8-82 | the shape of all four tests: when the first of three imports is the forbidden one, there is one error at the import list; its message names that import, then the target import padded to width 2 and the target package padded to width 3, which the tests' names are long enough to need no padding |
| ImportAllowedInPackage.DataInDomainTest | internal-ktlint/src/test/kotlin/dev/sdkforge/ktlint/NoImportAllowedInPackageRuleTest.kt:8-25 | `data` imported into `domain`: one error at offset 36 (line 3, column 1) with the expected message |
| ImportAllowedInPackage.PresentationInDataTest | internal-ktlint/src/test/kotlin/dev/sdkforge/ktlint/NoImportAllowedInPackageRuleTest.kt:65-82 | `presentation` imported into `data`: one error at offset 34 (line 3, column 1) with the expected message |
| ImportAllowedInPackage.NoImportAllowedInPackageRule.constructor | internal-ktlint/src/main/kotlin/dev/sdkforge/ktlint/NoImportAllowedInPackageRule.kt:13-26 | the pair's first element is the target import and its second the target package; no package name and no imports yet |
| ImportAllowedInPackage.NoImportAllowedInPackageRule.BeforeVisitChildNodes | internal-ktlint/src/main/kotlin/dev/sdkforge/ktlint/NoImportAllowedInPackageRule.kt:28-47 | the rule's fields change exactly as `StepBefore` says |
| ImportAllowedInPackage.NoImportAllowedInPackageRule.AfterVisitChildNodes | internal-ktlint/src/main/kotlin/dev/sdkforge/ktlint/NoImportAllowedInPackageRule.kt:49-65 | the `for` loop with its early `return` produces exactly `StepAfter`, including its padded `ViolationMessage` |
| DataImportInDomain.MessageWith | internal-ktlint/src/main/kotlin/dev/sdkforge/ktlint/NoDataImportInDomainRule.kt:54-55 | the template is 63 characters longer than the path it is filled with |
| DataImportInDomain.OrEmpty | internal-ktlint/src/main/kotlin/dev/sdkforge/ktlint/NoDataImportInDomainRule.kt:35 | `orEmpty()` keeps a present path and turns null into "" |
| DataImportInDomain.Step | internal-ktlint/src/main/kotlin/dev/sdkforge/ktlint/NoDataImportInDomainRule.kt:23-46 | a package directive overwrites the last package name; an import overwrites the current path and is reported exactly when its path contains `data` and the last package name contains `domain`, at its own offset with the constant message; other nodes change nothing |
| DataImportInDomain.Reported | internal-ktlint/src/main/kotlin/dev/sdkforge/ktlint/NoDataImportInDomainRule.kt:33-42 | at most one error per import; one per import when all contain `data`, none when none do; each error has the constant message and the offset of an import containing `data` |
| DataImportInDomain.Run | internal-ktlint/src/main/kotlin/dev/sdkforge/ktlint/NoDataImportInDomainRule.kt:23-46 | a run over a stream of visits emits at most one error per visit, none of them auto-correctable |
| DataImportInDomain.ImportsReported | internal-ktlint/src/main/kotlin/dev/sdkforge/ktlint/NoDataImportInDomainRule.kt:33-42 | a run of imports leaves the package name alone and reports every import containing `data`, with no early stop, exactly when that name contains `domain` |
| DataImportInDomain.ImportsBeforePackageNeverViolate | internal-ktlint/src/main/kotlin/dev/sdkforge/ktlint/NoDataImportInDomainRule.kt:37-49 | from the initial companion, imports before any package directive are never reported |
| DataImportInDomain.FileReported | internal-ktlint/src/main/kotlin/dev/sdkforge/ktlint/NoDataImportInDomainRule.kt:28-42 | a file's package directive replaces the stored name, whatever it was, and that name alone decides which of the file's imports are reported |
| DataImportInDomain.StaleCompanion | internal-ktlint/src/main/kotlin/dev/sdkforge/ktlint/NoDataImportInDomainRule.kt:48-50 | the companion's state outlives a file: later imports with no package directive before them are judged by the earlier file's package name |
| DataImportInDomain.MessageIgnoresPath | internal-ktlint/src/main/kotlin/dev/sdkforge/ktlint/NoDataImportInDomainRule.kt:50-55 | the message is the template filled with "" at companion initialisation, so it differs from the template filled with any real import path |
| DataImportInDomain.DataInDomainTest | internal-ktlint/src/test/kotlin/dev/sdkforge/ktlint/NoDataImportInDomainRuleTest.kt:9-22 | `package dev.sdkforge.shared.domain` then `import dev.sdkforge.shared.data` gives one error, at the import (offset 36, line 3, column 1), with the constant message |
| DataImportInDomain.Companion.constructor | internal-ktlint/src/main/kotlin/dev/sdkforge/ktlint/NoDataImportInDomainRule.kt:48-56 | both companion variables start as "", and `RULE_VIOLATION_MESSAGE` is computed from them then |
| DataImportInDomain.NoDataImportInDomainRule.constructor | internal-ktlint/src/main/kotlin/dev/sdkforge/ktlint/NoDataImportInDomainRule.kt:13-22 | every rule object shares the one companion |
| DataImportInDomain.NoDataImportInDomainRule.BeforeVisitChildNodes | internal-ktlint/src/main/kotlin/dev/sdkforge/ktlint/NoDataImportInDomainRule.kt:23-46 | the companion's variables and the emitted error are exactly what `Step` gives |

## Left out

- Compose UI and the app shells (screens, dialogs, toasts as UI): rendering only. The toast text is modelled as a string.
- `MutableSharedFlow` broadcast and buffering, and coroutine collection: library behaviour and concurrency. `tryEmit`'s result is an input, and `collect` is one call per result.
- `scannedResults` being the same flow object as `initialScannedResults`: flows are not modelled, so there is no flow object to compare. The `Offered` events of the controller's trace stand for what `onScan` hands to that flow.
- CameraX, ML Kit and AVFoundation themselves: session lifecycle, preview layers, image analysis, decoding, and `transformedMetadataObjectForMetadataObject`. These are foreign calls. Detected barcodes, transformed objects, device capabilities and input creation are inputs, and the view's controller and session are fields that record what was requested.
- `preferredCaptureDevice`'s device lookup (a built-in triple camera for the position): a system query. The devices for each position are inputs to `onInit`, and `PreferredPosition` models the position choice.
- `lockForConfiguration`'s result and its error are ignored by `configure`, and so by the model.
- Haptic feedback and OS permission queries: foreign calls, recorded only as trace events.
- `toggleFlash`, `isFlashIsOn` and `toggleActiveCamera`: declared in the common `PlatformCameraView`, but neither platform view implements them, so there is no behaviour to model.
- `SdkForgeRuleSetProvider`: it only registers the rules. The rule that `NoUiImportInDataRuleTest` exercises is not part of this model.
- The ktlint engine's tree walk and its offset-to-line/column mapping. Visits are a given sequence, and the tests' line 3, column 1 is the offset where the import list starts. Which names the Kotlin PSI reports for a package directive (`qualifiedName`, and `name`, its last segment) are fields of the node.
- Platform property reads (web and JVM `Platform` files) and all build configuration.
- Domain.CameraConfig: Kotlin compares the `formats` sets as sets; the model compares them as sequences in iteration order, so two configurations that list the same formats in different insertion orders compare unequal here.
- Domain.Known: its contract states membership and count, not order preservation. Order is stated where it matters, by `IosFormat.MetadataObjectTypes` (the i-th type belongs to the i-th known member).
- IosCameraView.PlatformCameraView.OnInit: repeated calls keep adding inputs and outputs to the session, as the code does. AVFoundation's refusal of a second equal input is not modelled.
- The `imports` set of `NoImportAllowedInPackageRule` holds `KtImportDirective` objects, compared by identity, so two imports of the same path are both kept. The model keeps a sequence of paths in insertion order, which behaves the same way.
