/**
 * The iOS codec between `Format` and AVFoundation's metadata object type strings, and the
 * collection encoder that lists the types the metadata output should report.
 */
module IosFormat {
  import opened Wrappers
  import opened Domain

  /** The `AVMetadataObjectType*` constants the codec uses, left abstract. */
  datatype AvTypes = AvTypes(
    aztec: string, code39: string, code93: string, code128: string, dataMatrix: string,
    ean8: string, ean13: string, itf14: string, pdf417: string, qr: string, upce: string)

  /** `s` is one of the eleven `AVMetadataObjectType*` constants. */
  predicate ConcreteType(t: AvTypes, s: string) {
    s in {t.aztec, t.code39, t.code93, t.code128, t.dataMatrix, t.ean8, t.ean13, t.itf14, t.pdf417, t.qr, t.upce}
  }

  /** `Format.value`: the type string of each concrete format (ITF is ITF-14); `Unknown` has none. */
  function TypeOf(t: AvTypes, f: Format): (r: Option<string>)
    ensures r.None? <==> f == Unknown
    ensures r.Some? ==> ConcreteType(t, r.value)
  {
    match f
    case Aztec => Some(t.aztec)
    case Code39 => Some(t.code39)
    case Code93 => Some(t.code93)
    case Code128 => Some(t.code128)
    case DataMatrix => Some(t.dataMatrix)
    case Ean8 => Some(t.ean8)
    case Ean13 => Some(t.ean13)
    case Itf => Some(t.itf14)
    case Pdf417 => Some(t.pdf417)
    case QrCode => Some(t.qr)
    case UpcE => Some(t.upce)
    case Unknown => None
  }

  /** The eleven type strings are pairwise distinct. */
  predicate Distinct(t: AvTypes) {
    forall f: Format, g: Format :: TypeOf(t, f) == TypeOf(t, g) ==> f == g
  }

  /**
   * `String?.asFormat`: the first of the eleven type strings equal to `s`, in the order of the
   * `when`; null and every other string are `Unknown`.
   */
  function AsFormat(t: AvTypes, s: Option<string>): (r: Format)
    ensures r != Unknown ==> TypeOf(t, r) == s
    ensures r == Unknown <==> forall f :: f != Unknown ==> TypeOf(t, f) != s
  {
    if s == Some(t.aztec) then Aztec
    else if s == Some(t.code39) then Code39
    else if s == Some(t.code93) then Code93
    else if s == Some(t.code128) then Code128
    else if s == Some(t.dataMatrix) then DataMatrix
    else if s == Some(t.ean8) then Ean8
    else if s == Some(t.ean13) then Ean13
    else if s == Some(t.itf14) then Itf
    else if s == Some(t.pdf417) then Pdf417
    else if s == Some(t.qr) then QrCode
    else if s == Some(t.upce) then UpcE
    else Unknown
  }

  /** Decoding the type of any format gives that format back; `Unknown` comes back through null. */
  lemma RoundTrip(t: AvTypes, f: Format)
    requires Distinct(t)
    ensures AsFormat(t, TypeOf(t, f)) == f
  {
    var r := AsFormat(t, TypeOf(t, f));
    if r != Unknown {
      assert TypeOf(t, r) == TypeOf(t, f);
    }
  }

  /** `Collection<Format>.toMetadataObjectTypes()`: `mapNotNull` over the members, `Unknown` mapped to null. */
  function MetadataObjectTypes(t: AvTypes, fs: seq<Format>): (r: seq<string>)
    ensures |r| == |Known(fs)|
    ensures forall i :: 0 <= i < |r| ==> TypeOf(t, Known(fs)[i]) == Some(r[i])
  {
    if fs == [] then []
    else
      var head := if fs[0] == Unknown then None else TypeOf(t, fs[0]);
      (if head.Some? then [head.value] else []) + MetadataObjectTypes(t, fs[1..])
  }

  /**
   * Every listed type decodes to a member of the input other than `Unknown`, and the list keeps
   * the order of those members: the i-th type decodes to the i-th known member.
   */
  lemma MetadataObjectTypesDecode(t: AvTypes, fs: seq<Format>)
    requires Distinct(t)
    ensures forall i :: 0 <= i < |MetadataObjectTypes(t, fs)| ==>
      AsFormat(t, Some(MetadataObjectTypes(t, fs)[i])) == Known(fs)[i]
    ensures forall s :: s in MetadataObjectTypes(t, fs) ==>
      AsFormat(t, Some(s)) in fs && AsFormat(t, Some(s)) != Unknown
  {
    var r := MetadataObjectTypes(t, fs);
    forall i | 0 <= i < |r| ensures AsFormat(t, Some(r[i])) == Known(fs)[i] {
      RoundTrip(t, Known(fs)[i]);
    }
    forall s | s in r ensures AsFormat(t, Some(s)) in fs && AsFormat(t, Some(s)) != Unknown {
      var i :| 0 <= i < |r| && r[i] == s;
      assert Known(fs)[i] in Known(fs);
    }
  }
}
