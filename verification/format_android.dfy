/**
 * The Android codec between `Format` and ML Kit's integer barcode-format codes, and the
 * collection encoder that builds the scanner's format mask. Kotlin `Int` is modelled as
 * `bv32`, so `or` is the 32-bit bitwise OR.
 */
module AndroidFormat {
  import opened Wrappers
  import opened Domain

  /** ML Kit's `Barcode.FORMAT_*` constants, left abstract. */
  datatype MlKitCodes = MlKitCodes(
    aztec: bv32, code39: bv32, code93: bv32, code128: bv32, dataMatrix: bv32,
    ean8: bv32, ean13: bv32, itf: bv32, pdf417: bv32, qrCode: bv32, upcE: bv32,
    unknown: bv32, allFormats: bv32)

  /** `x` is one of the eleven `FORMAT_*` constants of a concrete format. */
  predicate ConcreteCode(c: MlKitCodes, x: bv32) {
    x in {c.aztec, c.code39, c.code93, c.code128, c.dataMatrix, c.ean8, c.ean13, c.itf, c.pdf417, c.qrCode, c.upcE}
  }

  /** `Format.value`: the ML Kit code of each format; `Unknown` maps to `FORMAT_UNKNOWN`. */
  function Code(c: MlKitCodes, f: Format): (code: bv32)
    ensures f == Unknown ==> code == c.unknown
    ensures f != Unknown ==> ConcreteCode(c, code)
  {
    match f
    case Aztec => c.aztec
    case Code39 => c.code39
    case Code93 => c.code93
    case Code128 => c.code128
    case DataMatrix => c.dataMatrix
    case Ean8 => c.ean8
    case Ean13 => c.ean13
    case Itf => c.itf
    case Pdf417 => c.pdf417
    case QrCode => c.qrCode
    case UpcE => c.upcE
    case Unknown => c.unknown
  }

  /** The twelve codes `Format.value` can produce are pairwise distinct. */
  predicate Distinct(c: MlKitCodes) {
    forall f: Format, g: Format :: Code(c, f) == Code(c, g) ==> f == g
  }

  /**
   * `Int.asFormat`: the first of the eleven known codes equal to `code`, in the order of the
   * `when`; every other integer is `Unknown`.
   */
  function AsFormat(c: MlKitCodes, code: bv32): (r: Format)
    ensures r != Unknown ==> Code(c, r) == code
    ensures r == Unknown <==> forall f :: f != Unknown ==> Code(c, f) != code
  {
    if code == c.aztec then Aztec
    else if code == c.code39 then Code39
    else if code == c.code93 then Code93
    else if code == c.code128 then Code128
    else if code == c.dataMatrix then DataMatrix
    else if code == c.ean8 then Ean8
    else if code == c.ean13 then Ean13
    else if code == c.itf then Itf
    else if code == c.pdf417 then Pdf417
    else if code == c.qrCode then QrCode
    else if code == c.upcE then UpcE
    else Unknown
  }

  /** Decoding the code of any format gives that format back, `Unknown` included. */
  lemma RoundTrip(c: MlKitCodes, f: Format)
    requires Distinct(c)
    ensures AsFormat(c, Code(c, f)) == f
  {
    var r := AsFormat(c, Code(c, f));
    if r != Unknown {
      assert Code(c, r) == Code(c, f);
    }
  }

  /** `x & m == 0`: no bit of the mask `m` is set in `x`. */
  predicate Disjoint(x: bv32, m: bv32) {
    x & m == 0
  }

  /** The `mapNotNull` step: the codes of the members other than `Unknown`, in order. */
  function KnownCodes(c: MlKitCodes, fs: seq<Format>): (r: seq<bv32>)
    ensures |r| == |Known(fs)|
    ensures forall i :: 0 <= i < |r| ==> r[i] == Code(c, Known(fs)[i])
  {
    if fs == [] then []
    else (if fs[0] == Unknown then [] else [Code(c, fs[0])]) + KnownCodes(c, fs[1..])
  }

  /** `reduceOrNull { f1, f2 -> f1 or f2 }`: null on an empty list, else the left fold of `or`. */
  function ReduceOr(xs: seq<bv32>): (r: Option<bv32>)
    ensures r.None? <==> xs == []
  {
    if xs == [] then None
    else if |xs| == 1 then Some(xs[0])
    else Some(ReduceOr(xs[..|xs| - 1]).value | xs[|xs| - 1])
  }

  /** A bit is clear in `a | b` exactly when it is clear in both. */
  lemma OrDisjoint(a: bv32, b: bv32, m: bv32)
    ensures Disjoint(a | b, m) <==> Disjoint(a, m) && Disjoint(b, m)
  {
    AndOverOr(a, b, m);
    OrZero(a & m, b & m);
  }

  lemma AndOverOr(a: bv32, b: bv32, m: bv32)
    ensures (a | b) & m == (a & m) | (b & m)
  {
  }

  lemma OrZero(x: bv32, y: bv32)
    ensures x | y == 0 <==> x == 0 && y == 0
  {
  }

  /** Two words that miss the same masks are equal. */
  lemma MasksDetermine(x: bv32, y: bv32)
    requires forall m :: Disjoint(x, m) <==> Disjoint(y, m)
    ensures x == y
  {
    BitFacts(x, y);
    assert Disjoint(y, x & !y);
    assert Disjoint(x, y & !x);
  }

  lemma BitFacts(x: bv32, y: bv32)
    ensures Disjoint(y, x & !y) && Disjoint(x, y & !x)
    ensures Disjoint(x, x & !y) && Disjoint(y, y & !x) ==> x == y
  {
    ClearOfComplement(x, y);
    ClearOfComplement(y, x);
    NoExtraBits(x, y);
  }

  lemma ClearOfComplement(x: bv32, y: bv32)
    ensures y & (x & !y) == 0
  {
  }

  lemma NoExtraBits(x: bv32, y: bv32)
    ensures x & (x & !y) == 0 && y & (y & !x) == 0 ==> x == y
  {
  }

  /** The folded mask misses exactly the bits that every element misses. */
  lemma {:induction false} ReduceOrBits(xs: seq<bv32>, m: bv32)
    requires xs != []
    ensures Disjoint(ReduceOr(xs).value, m) <==> forall i :: 0 <= i < |xs| ==> Disjoint(xs[i], m)
  {
    if |xs| > 1 {
      var init := xs[..|xs| - 1];
      ReduceOrBits(init, m);
      OrDisjoint(ReduceOr(init).value, xs[|xs| - 1], m);
      assert forall i :: 0 <= i < |xs| ==> (i < |xs| - 1 ==> xs[i] == init[i]);
    }
  }

  /** `Collection<Format>.toBarcodeScannerOptions()`. */
  function ScannerOptions(c: MlKitCodes, fs: seq<Format>): (r: Option<bv32>)
    ensures r.None? <==> KnownSet(fs) == {}
  {
    assert Known(fs) != [] ==> Known(fs)[0] in KnownSet(fs);
    ReduceOr(KnownCodes(c, fs))
  }

  /**
   * The scanner mask is null exactly when no member is known; otherwise a bit is clear in it
   * exactly when it is clear in the code of every known member, so the mask is the bitwise OR
   * of the known members' codes.
   */
  lemma ScannerOptionsMeaning(c: MlKitCodes, fs: seq<Format>)
    ensures ScannerOptions(c, fs).None? <==> KnownSet(fs) == {}
    ensures ScannerOptions(c, fs).Some? ==> forall m ::
      Disjoint(ScannerOptions(c, fs).value, m) <==>
      forall f :: f in KnownSet(fs) ==> Disjoint(Code(c, f), m)
  {
    var codes := KnownCodes(c, fs);
    if Known(fs) != [] {
      var f0 := Known(fs)[0];
      assert f0 in Known(fs);
    }
    if codes != [] {
      forall m
        ensures Disjoint(ReduceOr(codes).value, m) <==>
                forall f :: f in KnownSet(fs) ==> Disjoint(Code(c, f), m)
      {
        ReduceOrBits(codes, m);
        if forall i :: 0 <= i < |codes| ==> Disjoint(codes[i], m) {
          forall f | f in KnownSet(fs) ensures Disjoint(Code(c, f), m) {
            var i :| 0 <= i < |Known(fs)| && Known(fs)[i] == f;
            assert codes[i] == Code(c, f);
          }
        }
      }
    }
  }

  /** The mask does not depend on the order of the members, on duplicates or on `Unknown` members. */
  lemma ScannerOptionsSetDetermined(c: MlKitCodes, a: seq<Format>, b: seq<Format>)
    requires KnownSet(a) == KnownSet(b)
    ensures ScannerOptions(c, a) == ScannerOptions(c, b)
  {
    ScannerOptionsMeaning(c, a);
    ScannerOptionsMeaning(c, b);
    if ScannerOptions(c, a).Some? {
      MasksDetermine(ScannerOptions(c, a).value, ScannerOptions(c, b).value);
    }
  }

  /** In particular, `Unknown` members are ignored. */
  lemma ScannerOptionsIgnoresUnknown(c: MlKitCodes, fs: seq<Format>)
    ensures ScannerOptions(c, fs + [Unknown]) == ScannerOptions(c, fs)
    ensures ScannerOptions(c, [Unknown] + fs) == ScannerOptions(c, fs)
  {
    assert KnownSet(fs + [Unknown]) == KnownSet(fs);
    assert KnownSet([Unknown] + fs) == KnownSet(fs);
    ScannerOptionsSetDetermined(c, fs + [Unknown], fs);
    ScannerOptionsSetDetermined(c, [Unknown] + fs, fs);
  }
}
