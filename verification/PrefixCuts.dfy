/** Three places cut retained UTF-8 at a byte cap, with three different programs:
    the receipt excerpt (`first_2kb`), the reader's excerpt check
    (`_largest_utf8_prefix`) and the view quotes are copied from (`quotable_view`). */
module PrefixCuts {
  import opened Wrappers
  import opened Utf8
  import opened Search

  const EXCERPT_LIMIT := 2048
  const VIEW_LIMIT := 65536
  const VIEW_FLOOR := 256

  /* ---- The strict decoder of section 4 of RFC 3629, one sequence at a time ---- */

  datatype Step = Good(c: CodePoint, used: nat) | Bad(used: nat)

  predicate SecondOk(lead: Byte, b: Byte) {
    if lead == 0xE0 then 0xA0 <= b < 0xC0
    else if lead == 0xED then 0x80 <= b < 0xA0
    else if lead == 0xF0 then 0x90 <= b < 0xC0
    else if lead == 0xF4 then 0x80 <= b < 0x90
    else IsContinuation(b)
  }

  /** How many bytes of the sequence announced by `bs[0]` are present and acceptable. */
  function AcceptableRun(bs: Bytes): (n: nat)
    requires bs != []
    ensures 1 <= n <= |bs| && n <= LeadLength(bs[0])
  {
    var need := LeadLength(bs[0]);
    if need < 2 || |bs| < 2 || !SecondOk(bs[0], bs[1]) then 1
    else if need < 3 || |bs| < 3 || !IsContinuation(bs[2]) then 2
    else if need < 4 || |bs| < 4 || !IsContinuation(bs[3]) then 3
    else 4
  }

  /** One step of the decoder; `Bad(n)` is the error range it reports, which reaches the
      end of the data exactly when the data ended too early. */
  function DecodeStep(bs: Bytes): (s: Step)
    requires bs != []
    ensures 1 <= s.used <= |bs|
  {
    var b := bs[0];
    if 0x80 <= b < 0xC2 || 0xF5 <= b then Bad(1)
    else
      var n := AcceptableRun(bs);
      if n < LeadLength(b) then Bad(n)
      else
        SequencePayload(bs[..n]);
        Good(Payload(bs[..n]), n)
  }

  lemma SequencePayload(s: Bytes)
    requires s != [] && (s[0] < 0x80 || 0xC2 <= s[0] < 0xF5)
    requires |s| == LeadLength(s[0]) == AcceptableRun(s)
    ensures 0 <= Payload(s) < 0x110000 && IsScalar(Payload(s))
    ensures EncodeChar(Payload(s)) == s
  {
    var b: seq<int> := s;
    if |s| == 2 {
      Digits(b[0] - 0xC0, b[1] - 0x80);
    } else if |s| == 3 {
      Digits(b[0] - 0xE0, b[1] - 0x80);
      Digits((b[0] - 0xE0) * 0x40 + (b[1] - 0x80), b[2] - 0x80);
    } else if |s| == 4 {
      Digits(b[0] - 0xF0, b[1] - 0x80);
      Digits((b[0] - 0xF0) * 0x40 + (b[1] - 0x80), b[2] - 0x80);
      Digits(((b[0] - 0xF0) * 0x40 + (b[1] - 0x80)) * 0x40 + (b[2] - 0x80), b[3] - 0x80);
    }
  }

  lemma Digits(high: int, low: int)
    requires 0 <= low < 0x40
    ensures (high * 0x40 + low) / 0x40 == high && (high * 0x40 + low) % 0x40 == low
  {}

  lemma StepOnCharacter(c: CodePoint, rest: Bytes)
    requires IsScalar(c)
    ensures DecodeStep(EncodeChar(c) + rest) == Good(c, |EncodeChar(c)|)
  {
    var e := EncodeChar(c);
    assert (e + rest)[..|e|] == e;
    DecodeChar(c);
  }

  /** A character cut short is reported as one error that runs to the end of the data. */
  lemma StepOnCutCharacter(c: CodePoint, m: nat)
    requires IsScalar(c) && 1 <= m < |EncodeChar(c)|
    ensures DecodeStep(EncodeChar(c)[..m]) == Bad(m)
  {}

  datatype Decoded = Valid(text: Text) | Invalid(start: nat, end: nat)

  /** `bs.decode("utf-8")`, with the range the `UnicodeDecodeError` carries. */
  function Decode(bs: Bytes): (d: Decoded)
    ensures d.Invalid? ==> d.start < d.end <= |bs|
  {
    if bs == [] then Valid([])
    else
      match DecodeStep(bs)
      case Bad(n) => Invalid(0, n)
      case Good(c, n) =>
        match Decode(bs[n..])
        case Valid(t) => Valid([c] + t)
        case Invalid(s, e) => Invalid(s + n, e + n)
  }

  /** `bs.decode("utf-8", errors="ignore")`. */
  function DecodeIgnore(bs: Bytes): Text {
    if bs == [] then []
    else
      match DecodeStep(bs)
      case Bad(n) => DecodeIgnore(bs[n..])
      case Good(c, n) => [c] + DecodeIgnore(bs[n..])
  }

  function Prepend(t: Text, n: nat, d: Decoded): Decoded {
    match d
    case Valid(u) => Valid(t + u)
    case Invalid(s, e) => Invalid(s + n, e + n)
  }

  lemma PeelCharacter(c: CodePoint, rest: Bytes)
    requires IsScalar(c)
    ensures var e := EncodeChar(c);
            && Decode(e + rest) == Prepend([c], |e|, Decode(rest))
            && DecodeIgnore(e + rest) == [c] + DecodeIgnore(rest)
  {
    StepOnCharacter(c, rest);
    DropFront(EncodeChar(c), rest);
  }

  /** Decoding reads a valid prefix off unchanged, whatever follows it. */
  lemma {:induction false} DecodePrefix(t: Text, rest: Bytes)
    requires Encodable(t)
    ensures Decode(Encode(t) + rest) == Prepend(t, |Encode(t)|, Decode(rest))
  {
    if t == [] {
      assert Encode(t) + rest == rest;
      PrependNothing(Decode(rest));
    } else {
      DecodePrefix(t[1..], rest);
      DecodeOneMore(t[0], t[1..], rest);
      assert [t[0]] + t[1..] == t;
    }
  }

  lemma DecodeOneMore(c: CodePoint, u: Text, rest: Bytes)
    requires IsScalar(c)
    requires Decode(Encode(u) + rest) == Prepend(u, |Encode(u)|, Decode(rest))
    ensures var e := EncodeChar(c) + Encode(u);
            Decode(e + rest) == Prepend([c] + u, |e|, Decode(rest))
  {
    PeelCharacter(c, Encode(u) + rest);
    Joined(EncodeChar(c), Encode(u), rest);
    PrependTwice([c], |EncodeChar(c)|, u, |Encode(u)|, Decode(rest));
  }

  lemma {:induction false} IgnorePrefix(t: Text, rest: Bytes)
    requires Encodable(t)
    ensures DecodeIgnore(Encode(t) + rest) == t + DecodeIgnore(rest)
  {
    if t == [] {
      assert Encode(t) + rest == rest;
    } else {
      var e, u := EncodeChar(t[0]), t[1..];
      PeelCharacter(t[0], Encode(u) + rest);
      IgnorePrefix(u, rest);
      Joined(e, Encode(u), rest);
      Joined([t[0]], u, DecodeIgnore(rest));
      assert [t[0]] + u == t;
    }
  }

  lemma PrependNothing(d: Decoded)
    ensures Prepend([], 0, d) == d
  {
    if d.Valid? { assert [] + d.text == d.text; }
  }

  lemma PrependTwice(a: Text, m: nat, b: Text, n: nat, d: Decoded)
    ensures Prepend(a, m, Prepend(b, n, d)) == Prepend(a + b, m + n, d)
  {
    if d.Valid? { assert a + (b + d.text) == (a + b) + d.text; }
  }

  lemma DecodeEncode(t: Text)
    requires Encodable(t)
    ensures Decode(Encode(t)) == Valid(t) && DecodeIgnore(Encode(t)) == t
  {
    DecodePrefix(t, []);
    IgnorePrefix(t, []);
    assert Encode(t) + [] == Encode(t) && t + [] == t;
  }

  lemma GoodStep(bs: Bytes)
    requires bs != [] && DecodeStep(bs).Good?
    ensures IsScalar(DecodeStep(bs).c) && EncodeChar(DecodeStep(bs).c) == bs[..DecodeStep(bs).used]
  {
    hide EncodeChar, Payload;
    SequencePayload(bs[..DecodeStep(bs).used]);
  }

  /** The decoder accepts nothing but encoded text, and `Encode` undoes it. */
  lemma {:induction false} DecodeSound(bs: Bytes)
    requires Decode(bs).Valid?
    ensures Encodable(Decode(bs).text) && Encode(Decode(bs).text) == bs
  {
    hide DecodeStep, EncodeChar;
    if bs != [] {
      var s := DecodeStep(bs);
      var head, tail := bs[..s.used], bs[s.used..];
      GoodStep(bs);
      DecodeSound(tail);
      assert bs == head + tail;
      var t := Decode(tail).text;
      assert ([s.c] + t)[1..] == t;
    }
  }

  /* ---- The longest prefix that fits ---- */

  /** Number of leading characters whose encoding fits in `cap` bytes. */
  function Fits(t: Text, cap: nat): (k: nat)
    ensures k <= |t|
  {
    if t == [] || |EncodeChar(t[0])| > cap then 0
    else 1 + Fits(t[1..], cap - |EncodeChar(t[0])|)
  }

  lemma {:induction false} FitsIsLongest(t: Text, cap: nat)
    ensures Offset(t, Fits(t, cap)) <= cap
    ensures forall j :: Fits(t, cap) < j <= |t| ==> cap < Offset(t, j)
  {
    assert t[..0] == [];
    if t != [] {
      OffsetStep(t, 0);
      var n := |EncodeChar(t[0])|;
      if n <= cap {
        FitsIsLongest(t[1..], cap - n);
        forall j | 1 <= j <= |t|
          ensures Offset(t, j) == n + Offset(t[1..], j - 1)
        {
          OffsetWithin(t, 1, j - 1);
        }
      } else {
        forall j | 1 <= j <= |t|
          ensures cap < Offset(t, j)
        {
          OffsetWithin(t, 1, j - 1);
        }
      }
    }
  }

  function Take<T>(s: seq<T>, n: nat): seq<T> {
    if n <= |s| then s[..n] else s
  }

  /** What a byte cut leaves: the characters that fit, then the first bytes of at most
      one more. */
  function Leftover(t: Text, cap: nat): (m: nat)
    ensures m > 0 ==> Fits(t, cap) < |t| && m < |EncodeChar(t[Fits(t, cap)])|
  {
    if t == [] then 0
    else if |EncodeChar(t[0])| > cap then cap
    else Leftover(t[1..], cap - |EncodeChar(t[0])|)
  }

  function LeftoverBytes(t: Text, cap: nat): Bytes {
    if Leftover(t, cap) == 0 then [] else EncodeChar(t[Fits(t, cap)])[..Leftover(t, cap)]
  }

  lemma {:induction false} CutShape(t: Text, cap: nat)
    ensures Take(Encode(t), cap) == Encode(t[..Fits(t, cap)]) + LeftoverBytes(t, cap)
  {
    if t != [] {
      var e, u := EncodeChar(t[0]), t[1..];
      if |e| <= cap {
        var k := Fits(u, cap - |e|);
        CutShape(u, cap - |e|);
        TakePast(e, Encode(u), cap);
        EncodeFront(t, k + 1);
        Joined(e, Encode(u[..k]), LeftoverBytes(u, cap - |e|));
      } else {
        assert t[..0] == [];
        assert Take(e + Encode(u), cap) == e[..cap];
      }
    }
  }

  lemma EncodeFront(t: Text, k: nat)
    requires 1 <= k <= |t|
    ensures Encode(t[..k]) == EncodeChar(t[0]) + Encode(t[1..][..k - 1])
  {
    assert t[..k][1..] == t[1..][..k - 1];
  }

  lemma TakePast<T>(a: seq<T>, b: seq<T>, n: nat)
    requires |a| <= n
    ensures Take(a + b, n) == a + Take(b, n - |a|)
  {}

  lemma DecodeLeftover(t: Text, cap: nat)
    requires Encodable(t)
    ensures var bs := LeftoverBytes(t, cap);
            DecodeIgnore(bs) == [] && Decode(bs) == if bs == [] then Valid([]) else Invalid(0, |bs|)
  {
    var bs := LeftoverBytes(t, cap);
    if bs != [] {
      StepOnCutCharacter(t[Fits(t, cap)], Leftover(t, cap));
      assert bs[|bs|..] == [];
    }
  }

  /** Decoding the cut bytes, leniently or after dropping the error range, yields the
      longest prefix that fits. */
  lemma DecodeCut(t: Text, cap: nat)
    requires Encodable(t)
    ensures DecodeIgnore(Take(Encode(t), cap)) == t[..Fits(t, cap)]
    ensures PrefixText(Take(Encode(t), cap)) == Some(t[..Fits(t, cap)])
  {
    var k, rest := t[..Fits(t, cap)], LeftoverBytes(t, cap);
    CutShape(t, cap);
    DecodeLeftover(t, cap);
    DecodePrefix(k, rest);
    IgnorePrefix(k, rest);
    DecodeEncode(k);
    assert k + [] == k;
    assert (Encode(k) + rest)[..|Encode(k)|] == Encode(k);
  }

  /* ---- The writer's excerpt ---- */

  function First2kb(t: Text): Text {
    DecodeIgnore(Take(EncodeReplace(t), EXCERPT_LIMIT))
  }

  /* ---- The reader's excerpt ---- */

  /** The text the reader recovers from a byte prefix, if the prefix can be one. */
  function PrefixText(bs: Bytes): Option<Text> {
    match Decode(bs)
    case Valid(t) => Some(t)
    case Invalid(s, e) =>
      if e < |bs| then None
      else
        match Decode(bs[..s])
        case Valid(t) => Some(t)
        case Invalid(_, _) => None
  }

  lemma {:induction false} BeforeErrorIsValid(bs: Bytes)
    requires Decode(bs).Invalid?
    ensures Decode(bs[..Decode(bs).start]).Valid?
  {
    var s := DecodeStep(bs);
    if s.Good? {
      BeforeErrorIsValid(bs[s.used..]);
      var cut := Decode(bs).start;
      assert bs[..cut][s.used..] == bs[s.used..][..cut - s.used];
      assert bs[..cut][..s.used] == bs[..s.used];
      assert DecodeStep(bs[..cut]) == s;
    }
  }

  /** `_largest_utf8_prefix`. */
  method LargestUtf8Prefix(prefix: Bytes) returns (r: Option<Text>)
    ensures r == PrefixText(Take(prefix, EXCERPT_LIMIT))
  {
    var candidate := Take(prefix, EXCERPT_LIMIT);
    ghost var whole := candidate;
    while true
      invariant candidate == whole
                || (Decode(whole).Invalid? && Decode(whole).end == |whole|
                    && candidate == whole[..Decode(whole).start])
      decreases |candidate|
    {
      match Decode(candidate) {
        case Valid(t) => return Some(t);
        case Invalid(start, end) =>
          if candidate != whole {
            BeforeErrorIsValid(whole);
            assert false;
          }
          if start == 0 && candidate == [] { return None; }
          if end < |candidate| { return None; }
          candidate := candidate[..start];
      }
    }
  }

  /** A byte that starts no sequence at all (section 4 of RFC 3629). */
  predicate ImpossibleLead(b: Byte) {
    0x80 <= b < 0xC2 || 0xF5 <= b
  }

  /** A truncated but so far acceptable sequence can be completed to one character. */
  lemma CutSequenceCompletes(bs: Bytes) returns (c: CodePoint)
    requires bs != [] && DecodeStep(bs) == Bad(|bs|) && !ImpossibleLead(bs[0])
    ensures IsScalar(c) && |bs| < |EncodeChar(c)| && bs == EncodeChar(c)[..|bs|]
  {
    var second := if bs[0] == 0xE0 then 0xA0 else if bs[0] == 0xF0 then 0x90 else 0x80;
    var full: Bytes := if |bs| == 1 then [bs[0], second, 0x80, 0x80]
                       else if |bs| == 2 then bs + [0x80, 0x80] else bs + [0x80];
    var s := full[..LeadLength(bs[0])];
    SequencePayload(s);
    c := Payload(s);
  }

  /** The bytes are what a byte cut leaves of some valid text. */
  ghost predicate CutOfText(bs: Bytes) {
    exists u: Text :: Encodable(u) && bs == Take(Encode(u), |bs|)
  }

  predicate EndsInImpossibleByte(bs: Bytes) {
    bs != [] && ImpossibleLead(bs[|bs| - 1]) && Decode(bs[..|bs| - 1]).Valid?
  }

  /** Exactly when the reader finds a prefix: on every cut of a valid text, and also, since
      its loop drops an error range that reaches the end of the data, on a valid text with
      one impossible byte after it. */
  lemma PrefixTextExact(bs: Bytes)
    ensures PrefixText(bs).Some? <==> CutOfText(bs) || EndsInImpossibleByte(bs)
  {
    hide PrefixText, CutOfText, EndsInImpossibleByte;
    if CutOfText(bs) {
      CutHasPrefix(bs);
    } else if EndsInImpossibleByte(bs) {
      ImpossibleHasPrefix(bs);
    } else if PrefixText(bs).Some? {
      PrefixIsCutOrImpossible(bs);
    }
  }

  lemma CutHasPrefix(bs: Bytes)
    requires CutOfText(bs)
    ensures PrefixText(bs).Some?
  {
    hide PrefixText;
    var u: Text :| Encodable(u) && bs == Take(Encode(u), |bs|);
    DecodeCut(u, |bs|);
  }

  lemma ImpossibleHasPrefix(bs: Bytes)
    requires EndsInImpossibleByte(bs)
    ensures PrefixText(bs).Some? && Decode(bs) == Invalid(|bs| - 1, |bs|)
  {
    hide Encode, EncodeChar, AcceptableRun, Payload;
    var head, tail := bs[..|bs| - 1], bs[|bs| - 1..];
    DecodeSound(head);
    DecodePrefix(Decode(head).text, tail);
    assert bs == head + tail;
  }

  lemma PrefixIsCutOrImpossible(bs: Bytes)
    requires PrefixText(bs).Some?
    ensures CutOfText(bs) || EndsInImpossibleByte(bs)
  {
    hide Encode, EncodeChar, DecodeStep, EndsInImpossibleByte;
    if Decode(bs).Valid? {
      DecodeSound(bs);
    } else {
      var head, tail := SplitAtError(bs);
      CutFound(head, tail);
    }
  }

  /** The second family is no cut of a valid text, so a caller that first checks its data for
      valid UTF-8, as the reader does before it takes a prefix, never meets it. */
  lemma ValidDataEndsWell(t: Text, cap: nat)
    requires Encodable(t)
    ensures !EndsInImpossibleByte(Take(Encode(t), cap))
  {
    hide Encode, Decode, EndsInImpossibleByte;
    CutDecodes(t, cap);
    if EndsInImpossibleByte(Take(Encode(t), cap)) {
      ImpossibleHasPrefix(Take(Encode(t), cap));
      LastIsImpossible(Take(Encode(t), cap));
    }
  }

  /** A cut of a valid text decodes, or its last error starts with a possible byte. */
  lemma CutDecodes(t: Text, cap: nat)
    requires Encodable(t)
    ensures var bs := Take(Encode(t), cap);
            Decode(bs).Valid? || (Decode(bs).end == |bs| && !ImpossibleLead(bs[Decode(bs).start]))
  {
    hide Encode, DecodeStep, DecodeIgnore, Fits;
    var k, rest := t[..Fits(t, cap)], LeftoverBytes(t, cap);
    CutShape(t, cap);
    DecodeLeftover(t, cap);
    DecodePrefix(k, rest);
    if rest == [] {
      DecodeEncode(k);
      assert Encode(k) + [] == Encode(k);
    } else {
      LeadIsPossible(t[Fits(t, cap)]);
    }
  }

  lemma LastIsImpossible(bs: Bytes)
    requires EndsInImpossibleByte(bs)
    ensures bs != [] && ImpossibleLead(bs[|bs| - 1])
  {}

  lemma LeadIsPossible(c: CodePoint)
    requires IsScalar(c)
    ensures !ImpossibleLead(EncodeChar(c)[0])
  {}

  /** One impossible byte is given an empty prefix. */
  lemma ImpossibleByteHasPrefix()
    ensures PrefixText([0xFF]) == Some([]) && !CutOfText([0xFF])
  {
    assert [0xFF][..0] == [];
    assert EndsInImpossibleByte([0xFF]);
    forall u: Text | Encodable(u) ensures [0xFF] != Take(Encode(u), 1) { ValidDataEndsWell(u, 1); }
  }

  lemma SplitAtError(bs: Bytes) returns (head: Text, tail: Bytes)
    requires PrefixText(bs).Some? && Decode(bs).Invalid?
    ensures Encodable(head) && bs == Encode(head) + tail
    ensures Decode(bs) == Invalid(|Encode(head)|, |bs|)
  {
    var cut := Decode(bs).start;
    DecodeSound(bs[..cut]);
    head, tail := Decode(bs[..cut]).text, bs[cut..];
  }

  lemma CutFound(head: Text, tail: Bytes)
    requires Encodable(head)
    requires Decode(Encode(head) + tail) == Invalid(|Encode(head)|, |Encode(head)| + |tail|)
    ensures CutOfText(Encode(head) + tail) || EndsInImpossibleByte(Encode(head) + tail)
  {
    ErrorAfter(head, tail);
    if ImpossibleLead(tail[0]) {
      DecodeEncode(head);
      assert (Encode(head) + tail)[..|Encode(head)|] == Encode(head);
    } else {
      CompletesToText(head, tail);
    }
  }

  lemma ErrorAfter(head: Text, tail: Bytes)
    requires Encodable(head)
    requires Decode(Encode(head) + tail) == Invalid(|Encode(head)|, |Encode(head)| + |tail|)
    ensures tail != [] && DecodeStep(tail) == Bad(|tail|)
    ensures ImpossibleLead(tail[0]) ==> |tail| == 1
  {
    hide Encode, EncodeChar, AcceptableRun, Payload;
    DecodePrefix(head, tail);
  }

  lemma CompletesToText(head: Text, tail: Bytes)
    requires Encodable(head) && tail != []
    requires DecodeStep(tail) == Bad(|tail|) && !ImpossibleLead(tail[0])
    ensures CutOfText(Encode(head) + tail)
  {
    var c := CutSequenceCompletes(tail);
    var bs := Encode(head) + tail;
    EncodeWithLast(head, c);
    TakePast(Encode(head), EncodeChar(c), |bs|);
    assert Encodable(head + [c]);
    assert bs == Take(Encode(head + [c]), |bs|);
  }

  lemma EncodeWithLast(t: Text, c: CodePoint)
    ensures Encode(t + [c]) == Encode(t) + EncodeChar(c)
  {
    EncodeConcat(t, [c]);
    assert [c][1..] == [];
    assert Encode([c]) == EncodeChar(c) + Encode([]);
  }

  /** Writer and reader cut the excerpt at the same place: both keep the longest prefix of
      whole characters within 2048 bytes. */
  lemma ExcerptsAgree(output: Text)
    requires Encodable(output)
    ensures First2kb(output) == output[..Fits(output, 2_048)]
    ensures PrefixText(Take(Encode(output), 2_048)) == Some(First2kb(output))
  {
    assert Printable(output) == output;
    DecodeCut(output, EXCERPT_LIMIT);
  }

  /* ---- The view quotes are copied from ---- */

  /** `cap = max(256, min(max_bytes, 65536))`. */
  function ViewCap(maxBytes: Option<int>): (cap: nat)
    ensures VIEW_FLOOR <= cap <= VIEW_LIMIT
  {
    match maxBytes
    case None => VIEW_LIMIT
    case Some(n) => if n < VIEW_FLOOR then VIEW_FLOOR else if n < VIEW_LIMIT then n else VIEW_LIMIT
  }

  /** A view has at least 256 and at most 65,536 bytes to fill, and between them what is asked. */
  lemma ViewCapExactly(n: int)
    ensures ViewCap(None) == 65_536
    ensures n <= 256 ==> ViewCap(Some(n)) == 256
    ensures 256 <= n <= 65_536 ==> ViewCap(Some(n)) == n
    ensures n >= 65_536 ==> ViewCap(Some(n)) == 65_536
  {}

  /** Number of characters `quotable_view` keeps: the ones that fit, except that a cut
      falling exactly after a multibyte character gives that character up too. */
  function QuotableCount(t: Text, cap: nat): (k: nat)
    ensures k <= |t|
  {
    var k := Fits(t, cap);
    if |Encode(t)| <= cap then |t|
    else if Leftover(t, cap) == 0 && k > 0 && t[k - 1] >= 0x80 then k - 1
    else k
  }

  /** `ToolResult.quotable_view` on a retained (hence encodable) output. */
  method QuotableView(output: Text, maxBytes: Option<int>) returns (view: Text)
    requires Encodable(output)
    ensures view == output[..QuotableCount(output, ViewCap(maxBytes))]
    ensures |Encode(view)| <= ViewCap(maxBytes)
    ensures view != output ==> ViewCap(maxBytes) - 4 <= |Encode(view)|
  {
    var cap := ViewCap(maxBytes);
    var encoded := Encode(output);
    if |encoded| <= cap {
      assert output[..|output|] == output;
      return output;
    }
    var clipped := encoded[..cap];
    while clipped != [] && IsContinuation(clipped[|clipped| - 1])
      invariant |clipped| <= cap && clipped == encoded[..|clipped|]
      invariant forall i :: |clipped| <= i < cap ==> IsContinuation(encoded[i])
    {
      clipped := clipped[..|clipped| - 1];
    }
    ghost var k := LastStart(output, cap, |clipped|);
    if clipped != [] && clipped[|clipped| - 1] >= 0x80 {
      clipped := clipped[..|clipped| - 1];
    }
    view := DecodeIgnore(clipped);
    DecodeFront(output, QuotableCount(output, cap), clipped);
  }

  lemma DecodeFront(t: Text, k: nat, bs: Bytes)
    requires Encodable(t) && k <= |t|
    requires |bs| == Offset(t, k) <= |Encode(t)| && bs == Encode(t)[..|bs|]
    ensures DecodeIgnore(bs) == t[..k] && Encode(t[..k]) == bs
  {
    EncodeSplit(t, k);
    DecodeEncode(t[..k]);
  }

  /** After the continuation bytes are stripped, the last byte left starts character `k`,
      and that character reaches the cut. */
  lemma LastStart(t: Text, cap: nat, m: nat) returns (k: nat)
    requires 1 <= cap < |Encode(t)| && m <= cap
    requires forall i :: m <= i < cap ==> IsContinuation(Encode(t)[i])
    requires m > 0 ==> !IsContinuation(Encode(t)[m - 1])
    ensures m > 0 && k < |t| && Offset(t, k) == m - 1
    ensures if Encode(t)[m - 1] >= 0x80
            then QuotableCount(t, cap) == k && cap <= Offset(t, k) + 4
            else QuotableCount(t, cap) == k + 1 && Offset(t, k + 1) == m == cap
  {
    var first := CharacterAt(t, 0);
    assert t[..0] == [];
    OffsetReflectsOrder(t, first, 0);
    k := CharacterAt(t, m - 1);
    LeadAt(t, k);
    OffsetStep(t, k);
    CoversCut(t, cap, k);
    CountAtCut(t, cap, k);
  }

  lemma FitsIs(t: Text, cap: nat, j: nat)
    requires j < |t| && Offset(t, j) <= cap < Offset(t, j + 1)
    ensures Fits(t, cap) == j
  {
    FitsIsLongest(t, cap);
    OffsetReflectsOrder(t, j + 1, Fits(t, cap));
  }

  lemma CountAtCut(t: Text, cap: nat, k: nat)
    requires k < |t| && Offset(t, k) < cap <= Offset(t, k + 1) && cap < |Encode(t)|
    ensures QuotableCount(t, cap) == if t[k] >= 0x80 then k else k + 1
    ensures cap <= Offset(t, k) + 4
  {
    OffsetStep(t, k);
    LeftoverExact(t, cap);
    if cap < Offset(t, k + 1) {
      FitsIs(t, cap, k);
    } else {
      assert t[..|t|] == t;
      OffsetReflectsOrder(t, |t|, k + 1);
      OffsetStep(t, k + 1);
      FitsIs(t, cap, k + 1);
    }
  }

  lemma LeadAt(t: Text, k: nat)
    requires k < |t|
    ensures Offset(t, k) < |Encode(t)| && Encode(t)[Offset(t, k)] == EncodeChar(t[k])[0]
    ensures EncodeChar(t[k])[0] < 0x80 <==> t[k] < 0x80
  {
    EncodeSplit(t, k);
    assert Encode(t)[Offset(t, k)..][0] == EncodeChar(t[k])[0];
  }

  /** Only continuation bytes between the start of `k` and the cut: the cut is inside or
      right after character `k`. */
  lemma CoversCut(t: Text, cap: nat, k: nat)
    requires k < |t| && Offset(t, k) < cap < |Encode(t)|
    requires forall i :: Offset(t, k) < i < cap ==> IsContinuation(Encode(t)[i])
    ensures cap <= Offset(t, k + 1)
  {
    hide Encode, EncodeChar, IsContinuation;
    OffsetStep(t, k);
    if Offset(t, k + 1) < cap {
      assert t[..|t|] == t;
      OffsetReflectsOrder(t, k + 1, |t|);
      LeadAt(t, k + 1);
      assert false;
    }
  }

  lemma LeftoverExact(t: Text, cap: nat)
    requires cap < |Encode(t)|
    ensures Leftover(t, cap) == cap - Offset(t, Fits(t, cap))
  {
    CutShape(t, cap);
  }

  /** Whatever the model copies from the view resolves in the full retained bytes. */
  lemma ViewQuoteResolves(output: Text, view: Text, quote: Text)
    requires view <= output && quote != [] && Contains(view, quote)
    ensures exists k: nat, p: nat :: FindFrom(Encode(output), Encode(quote), 0) == At(p)
                                     && Resolves(output, quote, p, k)
  {
    assert OccursAt(output, view, 0);
    ContainsWithin(output, view, quote);
    ContainsIffFound(output, quote);
    FindResolves(output, quote);
  }
}
