/** UTF-8 as the controller and the reader use it: Python text is a sequence of
    code points (lone surrogates included, which is why encoding can fail), files are
    bytes, and every quote travels between the two.  Sections 3 and 4 of RFC 3629. */
module Utf8 {
  import opened Wrappers

  type Byte = b: int | 0 <= b < 0x100
  type Bytes = seq<Byte>
  type CodePoint = c: int | 0 <= c < 0x110000
  type Text = seq<CodePoint>

  predicate IsScalar(c: CodePoint) {
    !(0xD800 <= c < 0xE000)
  }

  /** `text.encode("utf-8")` succeeds exactly on texts without lone surrogates. */
  predicate Encodable(t: Text) {
    forall i :: 0 <= i < |t| ==> IsScalar(t[i])
  }

  predicate IsContinuation(b: Byte) {
    0x80 <= b < 0xC0
  }

  /** The bit distribution of section 3 of RFC 3629. */
  function EncodeChar(c: CodePoint): (bs: Bytes)
    ensures 1 <= |bs| <= 4
    ensures !IsContinuation(bs[0])
    ensures forall i :: 1 <= i < |bs| ==> IsContinuation(bs[i])
    ensures |bs| == LeadLength(bs[0])
  {
    var high, higher := c / 0x40, c / 0x40 / 0x40;
    if c < 0x80 then [c]
    else if c < 0x800 then [0xC0 + high, 0x80 + c % 0x40]
    else if c < 0x10000 then [0xE0 + higher, 0x80 + high % 0x40, 0x80 + c % 0x40]
    else [0xF0 + higher / 0x40, 0x80 + higher % 0x40, 0x80 + high % 0x40, 0x80 + c % 0x40]
  }

  /** Length of the sequence a lead byte announces. */
  function LeadLength(b: Byte): nat {
    if b < 0x80 then 1 else if b < 0xE0 then 2 else if b < 0xF0 then 3 else 4
  }

  function Encode(t: Text): Bytes {
    if t == [] then [] else EncodeChar(t[0]) + Encode(t[1..])
  }

  /** `text.encode("utf-8", errors="replace")`: a lone surrogate becomes `?`. */
  function EncodeReplace(t: Text): Bytes {
    Encode(Printable(t))
  }

  function Printable(t: Text): Text {
    seq(|t|, i requires 0 <= i < |t| => if IsScalar(t[i]) then t[i] else 0x3F)
  }

  /** Byte offset of character `k`. */
  function Offset(t: Text, k: nat): nat
    requires k <= |t|
  {
    |Encode(t[..k])|
  }

  /** The arithmetic inverse of the bit distribution. */
  function Payload(bs: Bytes): int
    requires bs != [] && |bs| == LeadLength(bs[0])
  {
    var b: seq<int> := bs;
    if |b| == 1 then b[0]
    else if |b| == 2 then (b[0] - 0xC0) * 0x40 + (b[1] - 0x80)
    else if |b| == 3 then ((b[0] - 0xE0) * 0x40 + (b[1] - 0x80)) * 0x40 + (b[2] - 0x80)
    else (((b[0] - 0xF0) * 0x40 + (b[1] - 0x80)) * 0x40 + (b[2] - 0x80)) * 0x40 + (b[3] - 0x80)
  }

  lemma DecodeChar(c: CodePoint)
    ensures Payload(EncodeChar(c)) == c
  {
    var high, higher := c / 0x40, c / 0x40 / 0x40;
    assert c == high * 0x40 + c % 0x40;
    assert high == higher * 0x40 + high % 0x40;
    assert higher == higher / 0x40 * 0x40 + higher % 0x40;
  }

  lemma EncodeCharInjective(c: CodePoint, d: CodePoint)
    requires EncodeChar(c) == EncodeChar(d)
    ensures c == d
  {
    DecodeChar(c);
    DecodeChar(d);
  }

  lemma {:induction false} EncodeConcat(a: Text, b: Text)
    ensures Encode(a + b) == Encode(a) + Encode(b)
  {
    hide EncodeChar;
    if a == [] {
      assert a + b == b;
    } else {
      EncodeConcat(a[1..], b);
      assert (a + b)[1..] == a[1..] + b;
      Joined(EncodeChar(a[0]), Encode(a[1..]), Encode(b));
    }
  }

  lemma DropFront<T>(a: seq<T>, b: seq<T>)
    ensures (a + b)[|a|..] == b
  {}

  lemma EncodeSplit(t: Text, k: nat)
    requires k <= |t|
    ensures Encode(t) == Encode(t[..k]) + Encode(t[k..])
    ensures Offset(t, k) <= |Encode(t)|
    ensures Encode(t)[Offset(t, k)..] == Encode(t[k..])
  {
    var front, back := t[..k], t[k..];
    assert t == front + back;
    EncodeConcat(front, back);
    DropFront(Encode(front), Encode(back));
  }

  lemma {:induction false} EncodeAtLeast(t: Text)
    ensures |Encode(t)| >= |t|
  {
    if t != [] { EncodeAtLeast(t[1..]); }
  }

  lemma OffsetStep(t: Text, k: nat)
    requires k < |t|
    ensures Offset(t, k + 1) == Offset(t, k) + |EncodeChar(t[k])|
  {
    EncodeConcat(t[..k], [t[k]]);
    assert t[..k + 1] == t[..k] + [t[k]];
    assert [t[k]][1..] == [];
  }

  lemma OffsetWithin(t: Text, k: nat, m: nat)
    requires k <= |t| && m <= |t| - k
    ensures Offset(t, k + m) == Offset(t, k) + Offset(t[k..], m)
  {
    EncodeConcat(t[..k], t[k..][..m]);
    assert t[..k + m] == t[..k] + t[k..][..m];
  }

  lemma {:induction false} OffsetMonotone(t: Text, j: nat, k: nat)
    requires j < k <= |t|
    ensures Offset(t, j) + (k - j) <= Offset(t, k)
    decreases k - j
  {
    OffsetStep(t, k - 1);
    if j < k - 1 { OffsetMonotone(t, j, k - 1); }
  }

  lemma OffsetReflectsOrder(t: Text, j: nat, k: nat)
    requires j <= |t| && k <= |t|
    ensures Offset(t, j) <= Offset(t, k) <==> j <= k
  {
    if j < k { OffsetMonotone(t, j, k); }
    if k < j { OffsetMonotone(t, k, j); }
  }

  /** Self-synchronisation: a byte of valid UTF-8 is not a continuation byte exactly
      when it starts a character. */
  lemma {:induction false} CharacterAt(t: Text, p: nat) returns (k: nat)
    requires p < |Encode(t)|
    ensures k < |t| && Offset(t, k) <= p < Offset(t, k + 1)
    ensures IsContinuation(Encode(t)[p]) <==> p != Offset(t, k)
  {
    var head := |EncodeChar(t[0])|;
    OffsetStep(t, 0);
    assert t[..0] == [];
    if p < head {
      k := 0;
      assert Encode(t)[p] == EncodeChar(t[0])[p];
    } else {
      var j := CharacterAt(t[1..], p - head);
      k := j + 1;
      OffsetWithin(t, 1, j);
      OffsetWithin(t, 1, j + 1);
      assert Encode(t)[p] == Encode(t[1..])[p - head];
    }
  }

  /** No encoded text is a proper byte prefix that ends inside a character of another. */
  lemma {:induction false} PrefixFree(q: Text, t: Text)
    requires Encode(q) <= Encode(t)
    ensures q <= t
  {
    if q != [] {
      EncodeAtLeast(q);
      assert Encode(q)[0] == Encode(t)[0];
      if t == [] {
        assert false;
      } else {
        var n := |EncodeChar(q[0])|;
        assert Encode(q)[0] == EncodeChar(q[0])[0] && Encode(t)[0] == EncodeChar(t[0])[0];
        assert |EncodeChar(t[0])| == n;
        assert Encode(q)[..n] == EncodeChar(q[0]) && Encode(t)[..n] == EncodeChar(t[0]);
        EncodeCharInjective(q[0], t[0]);
        assert Encode(q)[n..] == Encode(q[1..]) && Encode(t)[n..] == Encode(t[1..]);
        PrefixFree(q[1..], t[1..]);
        assert q == [q[0]] + q[1..] && t == [t[0]] + t[1..];
      }
    }
  }

  /** Two texts with the same bytes are the same text. */
  lemma EncodeInjective(a: Text, b: Text)
    requires Encode(a) == Encode(b)
    ensures a == b
  {
    PrefixFree(a, b);
    PrefixFree(b, a);
  }
}

/** Python's `in`, `find` and `count`, once for every element type, and the reason the
    byte versions agree with the character versions. */
module Search {
  import opened Utf8

  predicate OccursAt<T(==)>(hay: seq<T>, needle: seq<T>, p: nat) {
    p + |needle| <= |hay| && hay[p..p + |needle|] == needle
  }

  predicate Contains<T(==)>(hay: seq<T>, needle: seq<T>) {
    exists p: nat :: p <= |hay| && OccursAt(hay, needle, p)
  }

  datatype Hit = Miss | At(p: nat)

  /** `hay.find(needle, from)`: the first occurrence at or after `from`. */
  function FindFrom<T(==)>(hay: seq<T>, needle: seq<T>, from: nat): (h: Hit)
    ensures h.At? ==> from <= h.p && h.p + |needle| <= |hay|
    decreases |hay| - from
  {
    if from + |needle| > |hay| then Miss
    else if OccursAt(hay, needle, from) then At(from)
    else FindFrom(hay, needle, from + 1)
  }

  lemma {:induction false} FindIsFirst<T>(hay: seq<T>, needle: seq<T>, from: nat)
    ensures var h := FindFrom(hay, needle, from);
            && (h.At? ==> OccursAt(hay, needle, h.p))
            && (forall p: nat {:trigger OccursAt(hay, needle, p)} ::
                  from <= p && (h.At? ==> p < h.p) ==> !OccursAt(hay, needle, p))
    decreases |hay| - from
  {
    if from + |needle| <= |hay| && !OccursAt(hay, needle, from) {
      FindIsFirst(hay, needle, from + 1);
    }
  }

  /** `hay.count(needle)`: occurrences taken left to right without overlap. */
  function CountFrom<T(==)>(hay: seq<T>, needle: seq<T>, from: nat): nat
    requires needle != []
    decreases |hay| - from
  {
    match FindFrom(hay, needle, from)
    case Miss => 0
    case At(p) => 1 + CountFrom(hay, needle, p + |needle|)
  }

  /** Occurrences from `from` on, in order, none overlapping the one before it. */
  predicate Apart<T(==)>(hay: seq<T>, needle: seq<T>, from: nat, places: seq<nat>) {
    && (forall i :: 0 <= i < |places| ==> from <= places[i] && OccursAt(hay, needle, places[i]))
    && (forall i :: 0 < i < |places| ==> places[i - 1] + |needle| <= places[i])
  }

  /** All but the first of them stand after any end that the first one does not precede. */
  lemma LaterApart<T>(hay: seq<T>, needle: seq<T>, from: nat, places: seq<nat>, end: nat)
    requires Apart(hay, needle, from, places) && places != [] && end <= places[0] + |needle|
    ensures Apart(hay, needle, end, places[1..])
  {
    var rest := places[1..];
    var i := 0;
    while i < |rest|
      invariant 0 <= i <= |rest| && forall k :: 0 <= k < i ==> end <= rest[k]
    {
      assert places[i] + |needle| <= places[i + 1] == rest[i];
      assert i > 0 ==> rest[i - 1] == places[i];
      i := i + 1;
    }
  }

  /** The count is of occurrences that do not overlap. */
  lemma {:induction false} CountReached<T>(hay: seq<T>, needle: seq<T>, from: nat) returns (best: seq<nat>)
    requires needle != []
    ensures Apart(hay, needle, from, best) && |best| == CountFrom(hay, needle, from)
    decreases |hay| - from
  {
    FindIsFirst(hay, needle, from);
    match FindFrom(hay, needle, from) {
      case Miss => best := [];
      case At(p) =>
        var after := CountReached(hay, needle, p + |needle|);
        best := [p] + after;
    }
  }

  /** No choice of such occurrences is longer. */
  lemma {:induction false} CountIsMost<T>(hay: seq<T>, needle: seq<T>, from: nat, places: seq<nat>)
    requires needle != [] && Apart(hay, needle, from, places)
    ensures |places| <= CountFrom(hay, needle, from)
    decreases |places|
  {
    if places != [] {
      FindIsFirst(hay, needle, from);
      assert OccursAt(hay, needle, places[0]);
      var p := FindFrom(hay, needle, from).p;
      LaterApart(hay, needle, from, places, p + |needle|);
      CountIsMost(hay, needle, p + |needle|, places[1..]);
    }
  }

  lemma ContainsIffFound<T>(hay: seq<T>, needle: seq<T>)
    ensures Contains(hay, needle) <==> FindFrom(hay, needle, 0).At?
  {
    FindIsFirst(hay, needle, 0);
    var h := FindFrom(hay, needle, 0);
    if h.At? { assert OccursAt(hay, needle, h.p); }
  }

  /** A character occurrence is a byte occurrence at its byte offset. */
  lemma CharToByte(t: Text, q: Text, k: nat)
    requires OccursAt(t, q, k)
    ensures OccursAt(Encode(t), Encode(q), Offset(t, k))
    ensures Offset(t, k + |q|) == Offset(t, k) + |Encode(q)|
  {
    EncodeSplit(t, k);
    EncodeSplit(t[k..], |q|);
    assert t[k..][..|q|] == q;
    OffsetWithin(t, k, |q|);
    var b := Encode(t);
    assert b[Offset(t, k)..] == Encode(q) + Encode(t[k..][|q|..]);
    assert b[Offset(t, k)..][..|Encode(q)|] == Encode(q);
    assert b[Offset(t, k)..Offset(t, k) + |Encode(q)|] == b[Offset(t, k)..][..|Encode(q)|];
  }

  /** Every byte occurrence of a nonempty quote is a character occurrence: it can
      neither start nor end inside a character. */
  lemma ByteToChar(t: Text, q: Text, p: nat) returns (k: nat)
    requires q != [] && OccursAt(Encode(t), Encode(q), p)
    ensures k <= |t| && Offset(t, k) == p && OccursAt(t, q, k)
  {
    EncodeAtLeast(q);
    assert Encode(q)[0] == EncodeChar(q[0])[0];
    assert Encode(t)[p] == Encode(t)[p..p + |Encode(q)|][0];
    k := CharacterAt(t, p);
    assert !IsContinuation(Encode(q)[0]);
    EncodeSplit(t, k);
    assert Encode(t)[p..][..|Encode(q)|] == Encode(t)[p..p + |Encode(q)|];
    PrefixFree(q, t[k..]);
    assert t[k..][..|q|] == q;
    assert t[k..k + |q|] == t[k..][..|q|];
  }

  /** The byte search, from a character boundary, finds the byte offset of what the
      character search finds. */
  lemma FindAligned(t: Text, q: Text, from: nat)
    requires q != [] && from <= |t|
    ensures var c, b := FindFrom(t, q, from), FindFrom(Encode(t), Encode(q), Offset(t, from));
            if c.At? then c.p <= |t| && b == At(Offset(t, c.p)) else b == Miss
  {
    var c, b := FindFrom(t, q, from), FindFrom(Encode(t), Encode(q), Offset(t, from));
    FindIsFirst(t, q, from);
    FindIsFirst(Encode(t), Encode(q), Offset(t, from));
    if c.At? {
      CharToByte(t, q, c.p);
      OffsetReflectsOrder(t, from, c.p);
    }
    if b.At? {
      var k := ByteToChar(t, q, b.p);
      OffsetReflectsOrder(t, from, k);
      if c.At? { OffsetReflectsOrder(t, c.p, k); }
    }
  }

  lemma FindEnd(t: Text, q: Text, from: nat)
    requires FindFrom(t, q, from).At?
    ensures var p := FindFrom(t, q, from).p;
            Offset(t, p + |q|) == Offset(t, p) + |Encode(q)|
  {
    FindIsFirst(t, q, from);
    CharToByte(t, q, FindFrom(t, q, from).p);
  }

  /** Searching `hay2` from a translated position finds the translation of what
      searching `hay1` finds, and the two needles are equally long after translation. */
  ghost predicate FindsAgree<A, B>(hay1: seq<A>, needle1: seq<A>, hay2: seq<B>, needle2: seq<B>,
                                   at: nat -> nat, from: nat)
  {
    var c, b := FindFrom(hay1, needle1, from), FindFrom(hay2, needle2, at(from));
    if c.At? then b == At(at(c.p)) && at(c.p + |needle1|) == at(c.p) + |needle2| else b == Miss
  }

  lemma {:induction false} CountsAgree<A, B>(hay1: seq<A>, needle1: seq<A>, hay2: seq<B>,
                                             needle2: seq<B>, at: nat -> nat, from: nat)
    requires needle1 != [] && needle2 != [] && from <= |hay1|
    requires forall k: nat :: k <= |hay1| ==> FindsAgree(hay1, needle1, hay2, needle2, at, k)
    ensures CountFrom(hay2, needle2, at(from)) == CountFrom(hay1, needle1, from)
    decreases |hay1| - from
  {
    assert FindsAgree(hay1, needle1, hay2, needle2, at, from);
    var c := FindFrom(hay1, needle1, from);
    if c.At? {
      CountsAgree(hay1, needle1, hay2, needle2, at, c.p + |needle1|);
    }
  }

  lemma CountAligned(t: Text, q: Text)
    requires q != []
    ensures Encode(q) != []
    ensures CountFrom(Encode(t), Encode(q), 0) == CountFrom(t, q, 0)
  {
    hide FindFrom, OccursAt, CountFrom;
    EncodeAtLeast(q);
    var at := (k: nat) => if k <= |t| then Offset(t, k) else 0;
    forall k: nat | k <= |t|
      ensures FindsAgree(t, q, Encode(t), Encode(q), at, k)
    {
      FindAligned(t, q, k);
      if FindFrom(t, q, k).At? { FindEnd(t, q, k); }
    }
    assert t[..0] == [];
    CountsAgree(t, q, Encode(t), Encode(q), at, 0);
  }

  lemma NoOffset(t: Text)
    ensures Offset(t, 0) == 0
  {
    assert t[..0] == [];
  }

  lemma FindResolves(t: Text, q: Text)
    requires q != []
    ensures FindFrom(Encode(t), Encode(q), 0).At? <==> FindFrom(t, q, 0).At?
    ensures var b := FindFrom(Encode(t), Encode(q), 0);
            b.At? ==> exists k: nat :: Resolves(t, q, b.p, k)
  {
    hide Encode, FindFrom;
    NoOffset(t);
    FindAligned(t, q, 0);
    var c := FindFrom(t, q, 0);
    if c.At? {
      FindIsFirst(t, q, 0);
      CharToByte(t, q, c.p);
      assert Resolves(t, q, Offset(t, c.p), c.p);
    }
  }

  /** The byte range that starts at `p` and is as long as the quote is exactly the
      characters `k .. k + |q|` of the text, and they are the quote. */
  ghost predicate Resolves(t: Text, q: Text, p: nat, k: nat) {
    k + |q| <= |t| && t[k..k + |q|] == q && Offset(t, k) == p && Offset(t, k + |q|) == p + |Encode(q)|
  }

  /** What the citation code relies on: searching bytes instead of characters finds the
      same quotes, the byte range slices back to the quote, and both counts agree. */
  lemma ByteSearchIsCharacterSearch(t: Text, q: Text)
    requires q != []
    ensures Encode(q) != []
    ensures FindFrom(Encode(t), Encode(q), 0).At? <==> Contains(t, q)
    ensures var b := FindFrom(Encode(t), Encode(q), 0);
            b.At? ==> exists k: nat :: Resolves(t, q, b.p, k)
    ensures CountFrom(Encode(t), Encode(q), 0) == CountFrom(t, q, 0)
  {
    assert t[..0] == [];
    ContainsIffFound(t, q);
    CountAligned(t, q);
    FindResolves(t, q);
  }

  lemma ContainsWithin(t: Text, s: Text, q: Text)
    requires Contains(t, s) && Contains(s, q)
    ensures Contains(t, q)
  {
    var a: nat :| a <= |t| && OccursAt(t, s, a);
    var b: nat :| b <= |s| && OccursAt(s, q, b);
    assert t[a + b..a + b + |q|] == t[a..a + |s|][b..][..|q|];
    assert s[b..b + |q|] == s[b..][..|q|];
    assert OccursAt(t, q, a + b);
  }
}
