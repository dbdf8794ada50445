/**
 * The Android app's bounded scan history: the body of the `scannedResults.collect` loop in
 * `MainActivity`, which keeps at most `HistoryScansMaxLength` distinct results in insertion
 * order and evicts the oldest one to make room for a new one.
 */
module ScanHistory {
  import opened Wrappers
  import opened Domain

  /** `AppConstants.HISTORY_SCANS_MAX_LENGTH`. */
  const HistoryScansMaxLength: nat := 5

  /** Which toast a collected result produces. */
  datatype Outcome = AlreadyScanned | ScannedValue(value: Option<string>)

  /** The history invariant: within capacity and without two equal results. */
  predicate Bounded(scans: seq<ScanResult>) {
    |scans| <= HistoryScansMaxLength && NoDuplicates(scans)
  }

  /**
   * The history after collecting `r`: unchanged when `r` is already present; otherwise `r`
   * becomes the newest element, after the oldest element has been removed if the history was full.
   */
  function Record(scans: seq<ScanResult>, r: ScanResult): (after: seq<ScanResult>)
    ensures r in scans ==> after == scans
    ensures r !in scans ==> |after| == if |scans| == HistoryScansMaxLength then |scans| else |scans| + 1
    ensures r !in scans ==> after[|after| - 1] == r
    ensures r !in scans ==> after[..|after| - 1] == scans[|scans| - (|after| - 1)..]
  {
    if r in scans then scans
    else if |scans| == HistoryScansMaxLength then scans[1..] + [r]
    else scans + [r]
  }

  /** The toast decision: "already scanned" exactly for a result already in the history. */
  function OutcomeOf(scans: seq<ScanResult>, r: ScanResult): (o: Outcome)
    ensures o.AlreadyScanned? <==> r in scans
    ensures o.ScannedValue? ==> o.value == r.value
  {
    if r in scans then AlreadyScanned else ScannedValue(r.value)
  }

  /** The toast text; a null value is rendered as "null", as Kotlin string templates do. */
  function ToastText(o: Outcome): (text: string)
    ensures |text| >= 10 && text[..10] == "Success - "
    ensures o.ScannedValue? && o.value.Some? ==>
      |text| >= |o.value.value| && text[|text| - |o.value.value|..] == o.value.value
  {
    match o
    case AlreadyScanned => "Success - " + "Already scanned, check scans history"
    case ScannedValue(v) => "Success - " + "Scanned value:" + " " + (if v.Some? then v.value else "null")
  }

  /** Collecting one result keeps the history bounded and free of duplicates. */
  lemma RecordKeepsBounded(scans: seq<ScanResult>, r: ScanResult)
    requires Bounded(scans)
    ensures Bounded(Record(scans, r))
  {
    if r !in scans {
      var k := if |scans| == HistoryScansMaxLength then 1 else 0;
      SuffixNoDuplicates(scans, k);
      AppendFresh(scans[k..], r);
      assert Record(scans, r) == scans[k..] + [r];
    }
  }

  lemma SuffixNoDuplicates<T>(s: seq<T>, k: nat)
    requires NoDuplicates(s) && k <= |s|
    ensures NoDuplicates(s[k..])
  {
    forall i, j | 0 <= i < j < |s[k..]| ensures s[k..][i] != s[k..][j] {
      assert s[k..][i] == s[k + i] && s[k..][j] == s[k + j];
    }
  }

  lemma AppendFresh<T>(s: seq<T>, x: T)
    requires NoDuplicates(s) && x !in s
    ensures NoDuplicates(s + [x])
  {
    forall i, j | 0 <= i < j < |s + [x]| ensures (s + [x])[i] != (s + [x])[j] {
      if j == |s| {
        assert (s + [x])[i] == s[i];
      } else {
        assert (s + [x])[i] == s[i] && (s + [x])[j] == s[j];
      }
    }
  }

  /** For a history without duplicates: what survives a collection, and what is evicted. */
  lemma RecordMembers(scans: seq<ScanResult>, r: ScanResult, x: ScanResult)
    requires NoDuplicates(scans)
    ensures x in Record(scans, r) <==>
      x == r || (x in scans && !(r !in scans && |scans| == HistoryScansMaxLength && x == scans[0]))
  {
    if r !in scans && |scans| == HistoryScansMaxLength && x in scans && x != scans[0] {
      var i :| 0 <= i < |scans| && scans[i] == x;
      assert scans[1..][i - 1] == x;
    }
  }

  /** The history after collecting `xs` in order, starting from the empty history. */
  function History(xs: seq<ScanResult>): (h: seq<ScanResult>)
    ensures |h| <= |xs| && |h| <= HistoryScansMaxLength
  {
    if xs == [] then [] else Record(History(xs[..|xs| - 1]), xs[|xs| - 1])
  }

  /** The history holds only results that were collected, and always the latest one. */
  lemma {:induction false} HistoryMembers(xs: seq<ScanResult>)
    ensures forall r :: r in History(xs) ==> r in xs
    ensures xs != [] ==> xs[|xs| - 1] in History(xs)
  {
    if xs != [] {
      var init, r := xs[..|xs| - 1], xs[|xs| - 1];
      var h := History(init);
      HistoryMembers(init);
      assert History(xs) == Record(h, r);
      RecordSubset(h, r);
      forall x | x in Record(h, r) ensures x in xs {
        if x != r {
          var i :| 0 <= i < |init| && init[i] == x;
          assert xs[i] == x;
        }
      }
    }
  }

  /** Collecting `r` adds at most `r` and always leaves `r` in the history. */
  lemma RecordSubset(scans: seq<ScanResult>, r: ScanResult)
    ensures forall x :: x in Record(scans, r) ==> x == r || x in scans
    ensures r in Record(scans, r)
  {
    if r !in scans {
      var k := if |scans| == HistoryScansMaxLength then 1 else 0;
      assert Record(scans, r) == scans[k..] + [r];
      assert forall x :: x in scans[k..] ==> x in scans;
    }
  }

  /** Starting from empty, the history stays within capacity and never holds two equal results. */
  lemma {:induction false} HistoryBounded(xs: seq<ScanResult>)
    ensures Bounded(History(xs))
  {
    if xs != [] {
      HistoryBounded(xs[..|xs| - 1]);
      RecordKeepsBounded(History(xs[..|xs| - 1]), xs[|xs| - 1]);
    }
  }

  /** Collecting pairwise-distinct results keeps exactly the most recent five, oldest first. */
  lemma {:induction false} HistoryOfDistinct(xs: seq<ScanResult>)
    requires NoDuplicates(xs)
    ensures History(xs) == xs[|xs| - Min(|xs|, HistoryScansMaxLength)..]
  {
    if xs != [] {
      var n := |xs| - 1;
      var init, r := xs[..n], xs[n];
      assert xs == init + [r];
      PrefixNoDuplicates(xs, n);
      HistoryOfDistinct(init);
      var k := n - Min(n, HistoryScansMaxLength);
      var h := History(init);
      assert h == init[k..];
      assert r !in h;
      assert History(xs) == Record(h, r);
      assert h == xs[k..n];
      RecordWindow(xs, h);
    }
  }

  /** Collecting a fresh result into the window of the previous results gives the next window. */
  lemma RecordWindow(xs: seq<ScanResult>, h: seq<ScanResult>)
    requires xs != []
    requires h == xs[|xs| - 1 - Min(|xs| - 1, HistoryScansMaxLength)..|xs| - 1]
    requires xs[|xs| - 1] !in h
    ensures Record(h, xs[|xs| - 1]) == xs[|xs| - Min(|xs|, HistoryScansMaxLength)..]
  {
    var n := |xs| - 1;
    if n >= HistoryScansMaxLength {
      assert Record(h, xs[n]) == h[1..] + [xs[n]];
      assert h[1..] == xs[n - 4..n];
    } else {
      assert Record(h, xs[n]) == h + [xs[n]];
    }
  }

  lemma PrefixNoDuplicates<T>(s: seq<T>, k: nat)
    requires NoDuplicates(s) && k <= |s|
    ensures NoDuplicates(s[..k])
  {
    forall i, j | 0 <= i < j < k ensures s[..k][i] != s[..k][j] {
      assert s[..k][i] == s[i] && s[..k][j] == s[j];
    }
  }

  function Min(a: nat, b: nat): nat { if a < b then a else b }

  /** Six distinct results collected in order: the first is evicted and the other five remain in order. */
  lemma FifoEviction(r1: ScanResult, r2: ScanResult, r3: ScanResult, r4: ScanResult, r5: ScanResult, r6: ScanResult)
    requires NoDuplicates([r1, r2, r3, r4, r5, r6])
    ensures History([r1, r2, r3, r4, r5, r6]) == [r2, r3, r4, r5, r6]
  {
    HistoryOfDistinct([r1, r2, r3, r4, r5, r6]);
  }

  /** The `scans` state set the activity keeps (`remember { mutableStateSetOf() }`), in insertion order. */
  class Scans {
    var scans: seq<ScanResult>

    constructor ()
      ensures scans == [] && Bounded(scans)
    {
      scans := [];
    }

    /** One iteration of the collect loop: de-duplicate, evict the oldest when full, append. */
    method Collect(r: ScanResult) returns (outcome: Outcome)
      modifies this
      ensures scans == Record(old(scans), r)
      ensures outcome == OutcomeOf(old(scans), r)
      ensures Bounded(old(scans)) ==> Bounded(scans)
    {
      if r in scans {
        outcome := AlreadyScanned;
      } else {
        if |scans| == HistoryScansMaxLength {
          scans := scans[1..];
        }
        scans := scans + [r];
        outcome := ScannedValue(r.value);
      }
      if Bounded(old(scans)) {
        RecordKeepsBounded(old(scans), r);
      }
    }
  }
}
