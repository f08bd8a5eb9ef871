/** Indices of the elements of a sequence that satisfy a test, and how they move when
    sequences are joined. */
module Occurrences {
  import opened Wrappers

  /** `[index for index, x in enumerate(s) if p(x)]`. */
  function Where<T>(s: seq<T>, p: T -> bool): (ps: seq<nat>)
    ensures forall i :: 0 <= i < |ps| ==> ps[i] < |s| && p(s[ps[i]])
  {
    if s == [] then []
    else
      var last := |s| - 1;
      Where(s[..last], p) + if p(s[last]) then [last] else []
  }

  function Shift(ps: seq<nat>, base: nat): seq<nat> {
    seq(|ps|, i requires 0 <= i < |ps| => ps[i] + base)
  }

  lemma {:induction false} WhereConcat<T>(a: seq<T>, b: seq<T>, p: T -> bool)
    ensures Where(a + b, p) == Where(a, p) + Shift(Where(b, p), |a|)
    decreases |b|
  {
    if b == [] {
      assert a + b == a;
    } else {
      var last := |b| - 1;
      WhereConcat(a, b[..last], p);
      assert (a + b)[..|a + b| - 1] == a + b[..last];
      assert (a + b)[|a + b| - 1] == b[last];
      ShiftConcat(Where(b[..last], p), if p(b[last]) then [last] else [], |a|);
      Joined(Where(a, p), Shift(Where(b[..last], p), |a|), Shift(if p(b[last]) then [last] else [], |a|));
    }
  }

  lemma ShiftConcat(a: seq<nat>, b: seq<nat>, base: nat)
    ensures Shift(a + b, base) == Shift(a, base) + Shift(b, base)
  {}

  /** The positions are increasing and miss nothing. */
  lemma {:induction false} WhereComplete<T>(s: seq<T>, p: T -> bool)
    ensures forall i, j :: 0 <= i < j < |Where(s, p)| ==> Where(s, p)[i] < Where(s, p)[j]
    ensures forall k :: 0 <= k < |s| && p(s[k]) ==> k in Where(s, p)
  {
    if s != [] {
      var last := |s| - 1;
      WhereComplete(s[..last], p);
      forall k | 0 <= k < |s| && p(s[k]) ensures k in Where(s, p) {
        if k < last { assert s[..last][k] == s[k]; }
      }
    }
  }

  lemma {:induction false} WhereNone<T>(s: seq<T>, p: T -> bool)
    requires forall k :: 0 <= k < |s| ==> !p(s[k])
    ensures Where(s, p) == []
  {
    if s != [] { WhereNone(s[..|s| - 1], p); }
  }

  lemma WhereSingle<T>(x: T, p: T -> bool)
    ensures Where([x], p) == if p(x) then [0] else []
  {
    assert [x][..0] == [];
  }

  lemma {:induction false} WhereOnce<T>(s: seq<T>, p: T -> bool, at: nat)
    requires at < |s| && p(s[at]) && forall k :: 0 <= k < |s| && k != at ==> !p(s[k])
    ensures Where(s, p) == [at]
  {
    if at == |s| - 1 {
      WhereNone(s[..at], p);
    } else {
      WhereOnce(s[..|s| - 1], p, at);
    }
  }

  /* ---- A sequence made of parts ---- */

  function Flatten<T>(parts: seq<seq<T>>): seq<T> {
    if parts == [] then [] else Flatten(parts[..|parts| - 1]) + parts[|parts| - 1]
  }

  /** Where part `i` begins. */
  function Start<T>(parts: seq<seq<T>>, i: nat): nat
    requires i <= |parts|
  {
    |Flatten(parts[..i])|
  }

  lemma {:induction false} StartMonotone<T>(parts: seq<seq<T>>, i: nat, j: nat)
    requires i <= j <= |parts|
    ensures Start(parts, i) <= Start(parts, j)
    decreases j
  {
    if i < j {
      StartNext(parts, j - 1);
      StartMonotone(parts, i, j - 1);
    }
  }

  lemma {:induction false} FlattenConcat<T>(a: seq<seq<T>>, b: seq<seq<T>>)
    ensures Flatten(a + b) == Flatten(a) + Flatten(b)
    decreases |b|
  {
    if b == [] {
      assert a + b == a;
    } else {
      var n := |b| - 1;
      assert (a + b)[..|a + b| - 1] == a + b[..n];
      FlattenConcat(a, b[..n]);
      Joined(Flatten(a), Flatten(b[..n]), b[n]);
    }
  }

  /** `p` holds once in each of the parts `lo .. hi` and in no other. */
  predicate OnceEach<T>(parts: seq<seq<T>>, p: T -> bool, lo: nat, hi: nat) {
    && lo <= hi <= |parts|
    && forall i :: 0 <= i < |parts| ==> |Where(parts[i], p)| == if lo <= i < hi then 1 else 0
  }

  function Clamp(n: nat, lo: nat, hi: nat): nat
    requires lo <= hi
  {
    if n < lo then 0 else if n < hi then n - lo else hi - lo
  }

  lemma {:induction false} OnceEachCount<T>(parts: seq<seq<T>>, p: T -> bool, lo: nat, hi: nat, n: nat)
    requires OnceEach(parts, p, lo, hi) && n <= |parts|
    ensures |Where(Flatten(parts[..n]), p)| == Clamp(n, lo, hi)
    decreases n
  {
    if n > 0 {
      OnceEachCount(parts, p, lo, hi, n - 1);
      assert parts[..n][..n - 1] == parts[..n - 1];
      WhereConcat(Flatten(parts[..n - 1]), parts[n - 1], p);
    }
  }

  lemma Around<T>(s: seq<T>, i: nat)
    requires i < |s|
    ensures s == s[..i] + ([s[i]] + s[i + 1..])
  {}

  lemma FlattenAround<T>(parts: seq<seq<T>>, i: nat)
    requires i < |parts|
    ensures Flatten(parts) == Flatten(parts[..i]) + (parts[i] + Flatten(parts[i + 1..]))
  {
    hide Flatten;
    Around(parts, i);
    FlattenConcat(parts[..i], [parts[i]] + parts[i + 1..]);
    FlattenConcat([parts[i]], parts[i + 1..]);
    OneFlat(parts[i]);
  }

  lemma SliceOfSlice<T>(s: seq<T>, from: nat, to: nat, i: nat, j: nat)
    requires from <= to <= |s| && i <= j <= to - from
    ensures s[from..to][i..j] == s[from + i..from + j]
  {
    var inner := s[from..to];
    forall k | 0 <= k < j - i ensures inner[i..j][k] == s[from + i..from + j][k] {
      assert inner[i..j][k] == inner[i + k];
    }
  }

  lemma MiddleSlice<T>(a: seq<T>, b: seq<T>, c: seq<T>)
    ensures (a + (b + c))[..|a|] == a && (a + (b + c))[|a|..|a| + |b|] == b
  {}

  /** A part made of three pieces lies in the whole piece by piece. */
  lemma PiecesAt<T>(parts: seq<seq<T>>, i: nat, before: seq<T>, middle: seq<T>, after: seq<T>)
    requires i < |parts| && parts[i] == before + (middle + after)
    ensures var at := Start(parts, i) + |before|;
            && at + |middle| + |after| == Start(parts, i + 1) <= |Flatten(parts)|
            && Flatten(parts)[at..at + |middle|] == middle
            && Flatten(parts)[at + |middle|..at + |middle| + |after|] == after
            && Flatten(parts)[..at] == Flatten(parts[..i]) + before
  {
    var head, tail := Flatten(parts[..i]), Flatten(parts[i + 1..]);
    FlattenAround(parts, i);
    StartNext(parts, i);
    Regroup(head, before, middle, after, tail);
    MiddleSlice(head + before, middle, after + tail);
    MiddleSlice(head + before + middle, after, tail);
  }

  lemma Regroup<T>(head: seq<T>, before: seq<T>, middle: seq<T>, after: seq<T>, tail: seq<T>)
    ensures head + ((before + (middle + after)) + tail) == head + before + (middle + (after + tail))
    ensures head + ((before + (middle + after)) + tail) == head + before + middle + (after + tail)
  {
    Joined(before, middle + after, tail);
    Joined(middle, after, tail);
    Joined(head, before, middle + (after + tail));
    Joined(head + before, middle, after + tail);
  }

  lemma StartNext<T>(parts: seq<seq<T>>, i: nat)
    requires i < |parts|
    ensures Start(parts, i + 1) == Start(parts, i) + |parts[i]|
  {
    assert parts[..i + 1][..i] == parts[..i];
  }

  lemma WhereMiddle<T>(a: seq<T>, b: seq<T>, c: seq<T>, p: T -> bool)
    requires |Where(b, p)| == 1
    ensures |Where(a, p)| < |Where(a + (b + c), p)|
    ensures Where(a + (b + c), p)[|Where(a, p)|] == |a| + Where(b, p)[0]
  {
    WhereConcat(a, b + c, p);
    WhereConcat(b, c, p);
  }

  /** Then its positions are one in each of those parts, in order. */
  lemma OnceEachAt<T>(parts: seq<seq<T>>, p: T -> bool, lo: nat, hi: nat, i: nat)
    requires OnceEach(parts, p, lo, hi) && lo <= i < hi
    ensures |Where(Flatten(parts), p)| == hi - lo && |Where(parts[i], p)| == 1
    ensures Where(Flatten(parts), p)[i - lo] == Start(parts, i) + Where(parts[i], p)[0]
  {
    OnceEachCount(parts, p, lo, hi, i);
    OnceEachCount(parts, p, lo, hi, |parts|);
    assert parts[..|parts|] == parts;
    FlattenAround(parts, i);
    WhereMiddle(Flatten(parts[..i]), parts[i], Flatten(parts[i + 1..]), p);
  }

  lemma OneFlat<T>(part: seq<T>)
    ensures Flatten([part]) == part
  {
    assert [part][..0] == [];
  }

  /** Every index of the whole is an index of one part. */
  lemma {:induction false} Locate<T>(parts: seq<seq<T>>, p: nat) returns (i: nat, k: nat)
    requires p < |Flatten(parts)|
    ensures i < |parts| && k < |parts[i]| && p == Start(parts, i) + k && Flatten(parts)[p] == parts[i][k]
    decreases |parts|
  {
    var n := |parts| - 1;
    var shorter := parts[..n];
    assert forall j :: 0 <= j <= n ==> shorter[..j] == parts[..j];
    if p < |Flatten(shorter)| {
      i, k := Locate(shorter, p);
    } else {
      i, k := n, p - |Flatten(shorter)|;
    }
  }

  /* ---- Elements that stand in a relation to what precedes them ---- */

  predicate EachAfter<T>(ok: (seq<T>, T) -> bool, s: seq<T>) {
    s != [] ==> EachAfter(ok, s[..|s| - 1]) && ok(s[..|s| - 1], s[|s| - 1])
  }

  lemma {:induction false} EachAfterAt<T>(ok: (seq<T>, T) -> bool, s: seq<T>, i: nat)
    requires EachAfter(ok, s) && i < |s|
    ensures ok(s[..i], s[i]) && EachAfter(ok, s[..i])
  {
    if i < |s| - 1 {
      EachAfterAt(ok, s[..|s| - 1], i);
      assert s[..|s| - 1][..i] == s[..i];
    }
  }

  lemma EachAfterMore<T>(ok: (seq<T>, T) -> bool, s: seq<T>, x: T)
    requires EachAfter(ok, s) && ok(s, x)
    ensures EachAfter(ok, s + [x])
  {
    assert (s + [x])[..|s|] == s;
  }
}
