/** `ToolResult.model_output`: the JSON view of a retained output that fits a byte cap,
    found by binary search over the number of characters shown. */
module ModelView {
  import opened Wrappers
  import opened Utf8
  import opened PrefixCuts
  import opened CanonicalJson

  /** A retained output as the view renders it: its text, its digest and the byte cap. */
  datatype Receipt = Receipt(output: Text, digest: Text, cap: nat)

  const HEAD: Text := FromString("{\"accepted_output_prefix\":\"")
  const BYTES: Text := FromString("\",\"delivery_receipt\":{") + FromString("\"accepted_output_bytes\":")
  const DIGEST: Text := FromString(",\"accepted_output_sha256\":\"")
  const CAP: Text := FromString("\",\"model_view_complete\":false") + FromString(",\"model_view_max_bytes\":")
  const COUNT: Text := FromString(",\"model_view_prefix_characters\":")
  const TAIL: Text := FromString(",\"selection\":\"native-order UTF-8 prefix\"}}")

  function Fixed(r: Receipt): Text {
    BYTES + Decimal(|Encode(r.output)|) + DIGEST + r.digest + CAP + Decimal(r.cap) + COUNT
  }

  /** `render(n)`: canonical JSON with its keys in sorted order. */
  function Render(r: Receipt, n: nat): Text
    requires n <= |r.output|
  {
    HEAD + Escape(r.output[..n]) + Fixed(r) + Decimal(n) + TAIL
  }

  function Size(r: Receipt, n: nat): nat
    requires n <= |r.output|
  {
    |Encode(Render(r, n))|
  }

  lemma SizeOfParts(r: Receipt, n: nat)
    requires n <= |r.output|
    ensures Size(r, n) == |Encode(HEAD)| + |Encode(Escape(r.output[..n]))| + |Encode(Fixed(r))|
                          + |Encode(Decimal(n))| + |Encode(TAIL)|
  {
    var e := Escape(r.output[..n]);
    EncodeConcat(HEAD + e + Fixed(r) + Decimal(n), TAIL);
    EncodeConcat(HEAD + e + Fixed(r), Decimal(n));
    EncodeConcat(HEAD + e, Fixed(r));
    EncodeConcat(HEAD, e);
  }

  lemma EscapeGrows(t: Text, n: nat)
    requires n < |t|
    ensures |Encode(Escape(t[..n]))| < |Encode(Escape(t[..n + 1]))|
  {
    assert t[..n + 1] == t[..n] + [t[n]];
    EscapeConcat(t[..n], [t[n]]);
    EncodeConcat(Escape(t[..n]), Escape([t[n]]));
    EncodeAtLeast(Escape([t[n]]));
  }

  lemma SizeStep(r: Receipt, n: nat)
    requires n < |r.output|
    ensures Size(r, n) < Size(r, n + 1)
  {
    SizeOfParts(r, n);
    SizeOfParts(r, n + 1);
    EscapeGrows(r.output, n);
    DecimalGrows(n, n + 1);
    DecimalIsAscii(n);
    DecimalIsAscii(n + 1);
  }

  /** Showing one more character always costs at least one more byte: this is what makes
      a binary search over the number of characters sound. */
  lemma {:induction false} SizeIncreases(r: Receipt, m: nat, n: nat)
    requires m < n <= |r.output|
    ensures Size(r, m) < Size(r, n)
    decreases n - m
  {
    SizeStep(r, m);
    if m + 1 < n { SizeIncreases(r, m + 1, n); }
  }

  /** `n` characters is the largest view that fits, or none fits and `n` is zero. */
  ghost predicate LargestFit(r: Receipt, n: nat) {
    && n <= |r.output|
    && (n > 0 ==> Size(r, n) <= r.cap)
    && forall m :: n < m <= |r.output| ==> r.cap < Size(r, m)
  }

  /** There is only one such number, so the view is a function of output and cap. */
  lemma LargestFitUnique(r: Receipt, m: nat, n: nat)
    requires LargestFit(r, m) && LargestFit(r, n)
    ensures m == n
  {}

  /** The view is within the cap exactly when its empty form is. */
  lemma WithinCapIffEmptyFits(r: Receipt, n: nat)
    requires LargestFit(r, n)
    ensures Size(r, n) <= r.cap <==> Size(r, 0) <= r.cap
  {
    if n > 0 { SizeIncreases(r, 0, n); }
  }

  method ModelOutput(output: Text, digest: Text, maxBytes: Option<int>) returns (view: Text)
    requires IsDigest(digest)
    ensures |Encode(output)| <= ViewCap(maxBytes) ==> view == output
    ensures |Encode(output)| > ViewCap(maxBytes) ==>
              var r := Receipt(output, digest, ViewCap(maxBytes));
              exists n :: LargestFit(r, n) && view == Render(r, n)
                          && (|Encode(view)| <= r.cap <==> Size(r, 0) <= r.cap)
  {
    var cap := ViewCap(maxBytes);
    if |Encode(output)| <= cap { return output; }
    var r := Receipt(output, digest, cap);
    view := BinarySearch(r);
    ghost var n :| LargestFit(r, n) && view == Render(r, n);
    WithinCapIffEmptyFits(r, n);
  }

  /** The binary search itself. */
  method BinarySearch(r: Receipt) returns (best: Text)
    ensures exists n :: LargestFit(r, n) && best == Render(r, n)
  {
    var low, high := 0, |r.output|;
    ghost var n := 0;
    best := Render(r, 0);
    while low <= high
      invariant 0 <= low <= high + 1 <= |r.output| + 1
      invariant n == (if low == 0 then 0 else low - 1) && best == Render(r, n)
      invariant n > 0 ==> Size(r, n) <= r.cap
      invariant forall m :: high < m <= |r.output| ==> r.cap < Size(r, m)
      decreases high - low
    {
      var middle := (low + high) / 2;
      var candidate := Render(r, middle);
      if |Encode(candidate)| <= r.cap {
        best, n, low := candidate, middle, middle + 1;
      } else {
        forall m | middle < m <= |r.output| ensures r.cap < Size(r, m) { SizeIncreases(r, middle, m); }
        high := middle - 1;
      }
    }
  }

  lemma FixedSize(r: Receipt)
    requires IsDigest(r.digest)
    ensures |Encode(Fixed(r))| == 222 + |Decimal(|Encode(r.output)|)| + |Decimal(r.cap)|
  {
    DecimalIsAscii(|Encode(r.output)|);
    DecimalIsAscii(r.cap);
    AsciiSize(Fixed(r));
  }

  /** The view with no characters at all still carries its receipt: 292 bytes and the
      digits of two numbers. */
  lemma EmptyViewSize(r: Receipt)
    requires IsDigest(r.digest)
    ensures Size(r, 0) == 292 + |Decimal(|Encode(r.output)|)| + |Decimal(r.cap)|
  {
    SizeOfParts(r, 0);
    AsciiSize(HEAD);
    AsciiSize(TAIL);
    FixedSize(r);
    DecimalIsAscii(0);
  }

  /** The clamp's floor of 256 bytes is below that, so a small requested cap is exceeded
      by every output that is not shown whole. */
  lemma FloorIsTooSmall(output: Text, digest: Text)
    requires IsDigest(digest)
    ensures VIEW_FLOOR < Size(Receipt(output, digest, VIEW_FLOOR), 0)
  {
    EmptyViewSize(Receipt(output, digest, VIEW_FLOOR));
  }

  lemma {:induction false} DecimalLength(n: nat, digits: nat)
    requires digits >= 1 && n < Power10(digits)
    ensures |Decimal(n)| <= digits
  {
    if n >= 10 { DecimalLength(n / 10, digits - 1); }
  }

  function Power10(n: nat): nat {
    if n == 0 then 1 else 10 * Power10(n - 1)
  }

  /** The caps the controller uses always hold the receipt, for outputs up to the worker's
      16 MB response limit (and far beyond), so its views never exceed them. */
  lemma UsedCapsHold(r: Receipt)
    requires IsDigest(r.digest) && 16384 <= r.cap <= VIEW_LIMIT
    requires |Encode(r.output)| < 1_000_000_000
    ensures Size(r, 0) <= r.cap
  {
    EmptyViewSize(r);
    assert Power10(9) == 1_000_000_000;
    DecimalLength(|Encode(r.output)|, 9);
    DecimalLength(r.cap, 5);
  }
}
