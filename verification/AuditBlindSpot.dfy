/** What two verifying logs with one final hash have in common, when no two of their records
    collide under SHA-256: exactly what their records print as, a lone surrogate as `?`.  So
    the writer's own verification overlooks changes among lone surrogates and question
    marks, and nothing else. */
module AuditBlindSpot {
  import opened Wrappers
  import opened Utf8
  import opened CanonicalJson
  import opened AuditChain

  /* ---- Printing a value's text is the text of the printed value ---- */

  function Shown(j: Json): Json
    decreases j, 0
  {
    match j
    case Str(t) => Str(Printable(t))
    case Array(items) => Array(ShownItems(items))
    case Object(members) => Object(ShownMembers(members))
    case _ => j
  }

  function ShownItems(items: seq<Json>): (shown: seq<Json>)
    ensures |shown| == |items| && forall i :: 0 <= i < |items| ==> shown[i] == Shown(items[i])
    decreases items, 1
  {
    if items == [] then [] else [Shown(items[0])] + ShownItems(items[1..])
  }

  function ShownMembers(members: seq<Member>): (shown: seq<Member>)
    ensures |shown| == |members|
    ensures forall i :: 0 <= i < |members| ==> shown[i] == Member(Printable(members[i].key), Shown(members[i].value))
    decreases members, 1
  {
    if members == [] then []
    else [Member(Printable(members[0].key), Shown(members[0].value))] + ShownMembers(members[1..])
  }

  lemma {:induction false} EscapePrints(t: Text)
    ensures Printable(Escape(t)) == Escape(Printable(t))
  {
    if t != [] {
      EscapePrints(t[1..]);
      assert Printable(t)[1..] == Printable(t[1..]);
      PrintableConcat(EscapeChar(t[0]), Escape(t[1..]));
      assert Printable(EscapeChar(t[0])) == EscapeChar(Printable(t)[0]);
    }
  }

  lemma QuotedPrints(t: Text)
    ensures Printable(Quoted(t)) == Quoted(Printable(t))
  {
    EscapePrints(t);
    PrintableConcat(Escape(t), [0x22]);
    PrintableConcat([0x22], Escape(t) + [0x22]);
    assert Printable([0x22]) == [0x22];
  }

  lemma HeadPrints(c: CodePoint, t: Text)
    requires IsScalar(c)
    ensures Printable([c] + t) == [c] + Printable(t)
  {}

  lemma {:induction false} CanonicalPrints(j: Json)
    requires WellFormed(j)
    ensures Printable(Canonical(j)) == Canonical(Shown(j)) && WellFormed(Shown(j))
    decreases j, 0
  {
    match j
    case Str(t) => QuotedPrints(t);
    case Array(items) =>
      HeadPrints(0x5B, Items(items));
      ItemsPrint(items);
    case Object(members) =>
      HeadPrints(0x7B, Members(members));
      MembersPrint(members);
    case _ =>
  }

  lemma {:induction false} ItemsPrint(items: seq<Json>)
    requires forall i :: 0 <= i < |items| ==> WellFormed(items[i])
    ensures Printable(Items(items)) == Items(ShownItems(items))
    ensures forall i :: 0 <= i < |items| ==> WellFormed(Shown(items[i]))
    decreases items, 1
  {
    if items != [] {
      var rest := items[1..];
      CanonicalPrints(items[0]);
      ItemsPrint(rest);
      assert ShownItems(items)[1..] == ShownItems(rest);
      PrintableConcat(Canonical(items[0]), ItemsAfter(rest));
      if rest != [] { HeadPrints(0x2C, Items(rest)); }
      assert forall i :: 1 <= i < |items| ==> items[i] == rest[i - 1];
    }
  }

  lemma {:induction false} MembersPrint(members: seq<Member>)
    requires forall i :: 0 <= i < |members| ==> WellFormed(members[i].value)
    ensures Printable(Members(members)) == Members(ShownMembers(members))
    ensures forall i :: 0 <= i < |members| ==> WellFormed(Shown(members[i].value))
    decreases members, 1
  {
    if members != [] {
      var rest, m := members[1..], members[0];
      CanonicalPrints(m.value);
      QuotedPrints(m.key);
      MembersPrint(rest);
      assert ShownMembers(members)[1..] == ShownMembers(rest);
      PrintableConcat(Canonical(m.value), MembersAfter(rest));
      HeadPrints(0x3A, Canonical(m.value) + MembersAfter(rest));
      PrintableConcat(Quoted(m.key), [0x3A] + (Canonical(m.value) + MembersAfter(rest)));
      if rest != [] { HeadPrints(0x2C, Members(rest)); }
      assert forall i :: 1 <= i < |members| ==> members[i] == rest[i - 1];
    }
  }

  /** Records that print alike are alike field by field. */
  lemma SamePrintSameFields(a: Line, b: Line)
    requires a.Entry? && b.Entry? && WellFormed(Object(a.unsigned)) && WellFormed(Object(b.unsigned))
    requires Printed(a) == Printed(b)
    ensures ShownMembers(a.unsigned) == ShownMembers(b.unsigned)
  {
    CanonicalPrints(Object(a.unsigned));
    CanonicalPrints(Object(b.unsigned));
    Unambiguous(Shown(Object(a.unsigned)), Shown(Object(b.unsigned)), [], []);
  }

  /** A text of scalars without `?` that nothing else prints as. */
  predicate Plain(t: Text) {
    Encodable(t) && 0x3F !in t
  }

  lemma OnlyPlainPrintsPlain(t: Text, plain: Text)
    requires Plain(plain) && Printable(t) == plain
    ensures t == plain
  {
    forall i | 0 <= i < |t| ensures t[i] == plain[i] {
      assert Printable(t)[i] == plain[i] && plain[i] in plain;
    }
  }

  lemma {:induction false} LookupPrints(fields: seq<Member>, key: Text)
    requires Plain(key)
    ensures Lookup(ShownMembers(fields), key) == Shown(Lookup(fields, key))
  {
    if fields != [] {
      if Printable(fields[0].key) == key { OnlyPlainPrintsPlain(fields[0].key, key); }
      assert Printable(key) == key;
      assert ShownMembers(fields)[1..] == ShownMembers(fields[1..]);
      LookupPrints(fields[1..], key);
    }
  }

  /* ---- The blind spot ---- */

  /** The hashes of the file are hexadecimal. */
  predicate Hashed(sha: Sha, file: seq<Line>) {
    forall i :: 0 <= i < |file| && file[i].Entry? ==> IsDigest(EntryHash(sha, file[i]))
  }

  /** No record of the one file and record of the other exhibit a SHA-256 collision. */
  predicate CollisionFree(sha: Sha, a: seq<Line>, b: seq<Line>) {
    forall i, j :: 0 <= i < |a| && 0 <= j < |b| && a[i].Entry? && b[j].Entry? ==>
      EntryHash(sha, a[i]) == EntryHash(sha, b[j]) ==> SignedBytes(a[i]) == SignedBytes(b[j])
  }

  predicate PrintAlike(a: seq<Line>, b: seq<Line>) {
    && |a| == |b|
    && forall k :: 0 <= k < |a| ==> a[k].Entry? && b[k].Entry? && Printed(a[k]) == Printed(b[k])
  }

  lemma LinkIsPlain(sha: Sha, file: seq<Line>, i: nat)
    requires Hashed(sha, file) && Chained(sha, file) && i <= |file|
    ensures Plain(LinkBefore(sha, file, i))
  {
    if i > 0 { assert FaultAt(sha, file, i - 1) == NoFault; }
  }

  /** Records that print alike stand at the same place and link to the same hash. */
  lemma AlikeLinkAlike(sha: Sha, a: seq<Line>, b: seq<Line>, i: nat, j: nat)
    requires Readable(a) && Readable(b) && Chained(sha, a) && Chained(sha, b) && Hashed(sha, a) && Hashed(sha, b)
    requires i < |a| && j < |b| && a[i].Entry? && b[j].Entry? && Printed(a[i]) == Printed(b[j])
    ensures i == j && LinkBefore(sha, a, i) == LinkBefore(sha, b, j)
  {
    hide WellFormed, Printed, Shown, Lookup, EntryHash, Plain;
    assert FaultAt(sha, a, i) == NoFault && FaultAt(sha, b, j) == NoFault;
    SamePrintSameFields(a[i], b[j]);
    LookupFields(a[i].unsigned, b[j].unsigned);
    ShownNumber(i + 1);
    ShownNumber(j + 1);
    DecimalInjective(i + 1, j + 1);
    LinkIsPlain(sha, a, i);
    LinkIsPlain(sha, b, j);
    ShownPlain(LinkBefore(sha, a, i));
    ShownPlain(LinkBefore(sha, b, j));
  }

  lemma ShownNumber(n: nat)
    ensures Shown(IntJson(n)) == IntJson(n)
  {}

  lemma ShownPlain(t: Text)
    requires Plain(t)
    ensures Shown(Str(t)) == Str(t)
  {
    assert Printable(t) == t;
  }

  lemma {:induction false} SameHashPrintsAlike(sha: Sha, a: seq<Line>, b: seq<Line>)
    requires Readable(a) && Readable(b) && Chained(sha, a) && Chained(sha, b) && Hashed(sha, a) && Hashed(sha, b)
    requires CollisionFree(sha, a, b) && a != [] && b != []
    requires LinkBefore(sha, a, |a|) == LinkBefore(sha, b, |b|)
    ensures PrintAlike(a, b)
    decreases |a|
  {
    hide SignedBytes, Printed, WellFormed, Canonical, IsDigest, EntryHash, Lookup, Encode;
    var i, j := |a| - 1, |b| - 1;
    assert FaultAt(sha, a, i) == NoFault && FaultAt(sha, b, j) == NoFault;
    SameBytesSamePrint(a[i], b[j]);
    AlikeLinkAlike(sha, a, b, i, j);
    if i > 0 {
      ChainedPrefix(sha, a, i);
      ChainedPrefix(sha, b, i);
      LinkOfPrefix(sha, a, i, i);
      LinkOfPrefix(sha, b, i, i);
      SameHashPrintsAlike(sha, a[..i], b[..i]);
    }
  }

  predicate SameEntryHashes(a: seq<Line>, b: seq<Line>) {
    && |a| == |b|
    && forall k :: 0 <= k < |a| ==> a[k].Entry? && b[k].Entry? && a[k].entryHash == b[k].entryHash
  }

  lemma AlikeHashAlike(sha: Sha, a: Line, b: Line)
    requires a.Entry? && b.Entry? && Printed(a) == Printed(b)
    ensures EntryHash(sha, a) == EntryHash(sha, b)
  {
    SameBytesSamePrint(a, b);
  }

  lemma OnlyNumberShowsNumber(j: Json, n: nat)
    requires Shown(j) == IntJson(n)
    ensures j == IntJson(n)
  {}

  lemma OnlyPlainShowsPlain(j: Json, t: Text)
    requires Plain(t) && Shown(j) == Str(t)
    ensures j == Str(t)
  {
    OnlyPlainPrintsPlain(j.text, t);
  }

  /** A record put in the place of one that verifies and prints alike verifies too. */
  lemma AlikePasses(sha: Sha, a: seq<Line>, b: seq<Line>, k: nat)
    requires Readable(a) && Readable(b) && Chained(sha, a) && Hashed(sha, a)
    requires PrintAlike(a, b) && SameEntryHashes(a, b) && k < |a|
    ensures FaultAt(sha, b, k) == NoFault
  {
    hide WellFormed, Printed, Shown, Lookup, EntryHash, Plain;
    assert FaultAt(sha, a, k) == NoFault;
    SamePrintSameFields(a[k], b[k]);
    LookupFields(a[k].unsigned, b[k].unsigned);
    ShownNumber(k + 1);
    OnlyNumberShowsNumber(Lookup(b[k].unsigned, SEQUENCE), k + 1);
    LinkIsPlain(sha, a, k);
    ShownPlain(LinkBefore(sha, a, k));
    OnlyPlainShowsPlain(Lookup(b[k].unsigned, PREVIOUS), LinkBefore(sha, a, k));
    AlikeHashAlike(sha, a[k], b[k]);
    if k > 0 { AlikeHashAlike(sha, a[k - 1], b[k - 1]); }
  }

  lemma LookupFields(a: seq<Member>, b: seq<Member>)
    requires ShownMembers(a) == ShownMembers(b)
    ensures Shown(Lookup(a, SEQUENCE)) == Shown(Lookup(b, SEQUENCE))
    ensures Shown(Lookup(a, PREVIOUS)) == Shown(Lookup(b, PREVIOUS))
  {
    hide Shown, Lookup;
    LookupPrints(a, SEQUENCE);
    LookupPrints(b, SEQUENCE);
    LookupPrints(a, PREVIOUS);
    LookupPrints(b, PREVIOUS);
  }

  /** Exactly which files can stand in for a verifying log, still verify and end in its hash:
      those that print alike, record by record, and carry its entry hashes, unless SHA-256
      collides on two of their records. */
  lemma UnnoticedExactly(sha: Sha, a: seq<Line>, b: seq<Line>)
    requires Readable(a) && Readable(b) && Chained(sha, a) && Hashed(sha, a) && Hashed(sha, b)
    requires CollisionFree(sha, a, b) && a != [] && b != []
    ensures Chained(sha, b) && LinkBefore(sha, a, |a|) == LinkBefore(sha, b, |b|)
            <==> PrintAlike(a, b) && SameEntryHashes(a, b)
  {
    hide SignedBytes, Printed, Readable, Hashed, CollisionFree, EntryHash;
    if Chained(sha, b) && LinkBefore(sha, a, |a|) == LinkBefore(sha, b, |b|) {
      SameHashPrintsAlike(sha, a, b);
      forall k | 0 <= k < |a| ensures a[k].entryHash == b[k].entryHash {
        assert FaultAt(sha, a, k) == NoFault && FaultAt(sha, b, k) == NoFault;
        AlikeHashAlike(sha, a[k], b[k]);
      }
    } else if PrintAlike(a, b) && SameEntryHashes(a, b) {
      forall k | 0 <= k < |b| ensures FaultAt(sha, b, k) == NoFault {
        AlikePasses(sha, a, b, k);
      }
      AlikeHashAlike(sha, a[|a| - 1], b[|b| - 1]);
    }
  }
}
