/** The shared domain values: barcode formats, camera facing, scan results and the camera configuration. */
module Domain {
  import opened Wrappers

  /** The twelve barcode symbologies, in declaration order; `Unknown` stands for an undetermined one. */
  datatype Format =
    | Aztec | Code39 | Code93 | Code128 | DataMatrix | Ean8 | Ean13
    | Itf | Pdf417 | QrCode | UpcE | Unknown

  /** Which camera lens to use. */
  datatype Facing = Front | Back

  /** `Format.entries`: every format once, in declaration order. */
  const Entries: seq<Format> :=
    [Aztec, Code39, Code93, Code128, DataMatrix, Ean8, Ean13, Itf, Pdf417, QrCode, UpcE, Unknown]

  /** `Format.entries` lists every format and each exactly once. */
  lemma EntriesComplete()
    ensures forall f: Format :: f in Entries
    ensures NoDuplicates(Entries)
  {
    forall f: Format ensures f in Entries {
      var i := match f
        case Aztec => 0 case Code39 => 1 case Code93 => 2 case Code128 => 3
        case DataMatrix => 4 case Ean8 => 5 case Ean13 => 6 case Itf => 7
        case Pdf417 => 8 case QrCode => 9 case UpcE => 10 case Unknown => 11;
      assert Entries[i] == f;
    }
  }

  /** No element occurs twice: what a Kotlin `Set` guarantees of its iteration order. */
  predicate NoDuplicates<T(==)>(s: seq<T>) {
    forall i, j :: 0 <= i < j < |s| ==> s[i] != s[j]
  }

  /**
   * An immutable scan result. `format` may be `Unknown` when the symbology cannot be
   * determined, and `value` is `None` (Kotlin `null`) when the payload could not be decoded.
   * Equality is structural, as for a Kotlin data class.
   */
  datatype ScanResult = ScanResult(format: Format, value: Option<string>)

  /**
   * An immutable camera configuration. `formats` is the configured `Set<Format>`, listed in
   * its iteration order.
   */
  datatype CameraConfig = CameraConfig(
    formats: seq<Format>,
    enableTorch: bool,
    useHapticFeedback: bool,
    cameraFacing: Facing)

  /** `CameraConfig()` with every parameter left at its default. */
  function DefaultConfig(): (c: CameraConfig)
    ensures forall f: Format :: f in c.formats
    ensures Unknown in c.formats && NoDuplicates(c.formats) && |c.formats| == 12
    ensures !c.enableTorch && !c.useHapticFeedback
    ensures c.cameraFacing == Back
  {
    EntriesComplete();
    CameraConfig(Entries, false, false, Back)
  }

  /** Two results are equal exactly when their formats and their values are equal; null equals only null. */
  lemma ScanResultEquality(a: ScanResult, b: ScanResult)
    ensures a == b <==> a.format == b.format && a.value == b.value
    ensures a.format == b.format && a.value.None? && b.value.Some? ==> a != b
  {
  }

  /** The members of `fs` other than `Unknown`, in order (the `mapNotNull` filter both platforms apply). */
  function Known(fs: seq<Format>): (r: seq<Format>)
    ensures forall f :: f in r <==> f in fs && f != Unknown
    ensures |r| == |fs| - multiset(fs)[Unknown]
    ensures |r| <= |fs|
  {
    if fs == [] then []
    else
      assert fs == [fs[0]] + fs[1..];
      (if fs[0] == Unknown then [] else [fs[0]]) + Known(fs[1..])
  }

  /** The set of members of `fs` other than `Unknown`: all that order- and duplicate-blind encoders may see. */
  function KnownSet(fs: seq<Format>): (r: set<Format>)
    ensures forall f :: f in r <==> f in fs && f != Unknown
  {
    set f | f in fs && f != Unknown
  }
}
