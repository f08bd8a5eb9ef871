/** The canonical JSON text the log is hashed over: keys sorted, no spaces, non-ASCII text
    left as it is.  It is shown to be unambiguous, so two different values never have the
    same bytes, and a repeated hash is a repeated SHA-256 value. */
module CanonicalJson {
  import opened Wrappers
  import opened Utf8

  predicate AllAscii(t: Text) {
    forall i :: 0 <= i < |t| ==> t[i] < 0x80
  }

  function FromString(s: string): (t: Text)
    requires forall i :: 0 <= i < |s| ==> s[i] as int < 0x80
    ensures AllAscii(t) && |t| == |s|
  {
    seq(|s|, i requires 0 <= i < |s| => s[i] as int)
  }

  function Decimal(n: nat): Text {
    if n < 10 then [0x30 + n] else Decimal(n / 10) + [0x30 + n % 10]
  }

  lemma {:induction false} AsciiSize(t: Text)
    requires AllAscii(t)
    ensures |Encode(t)| == |t|
  {
    if t != [] { AsciiSize(t[1..]); }
  }

  lemma {:induction false} DecimalIsAscii(n: nat)
    ensures AllAscii(Decimal(n))
    ensures |Encode(Decimal(n))| == |Decimal(n)|
  {
    if n >= 10 { DecimalIsAscii(n / 10); }
    AsciiSize(Decimal(n));
  }

  lemma {:induction false} DecimalGrows(m: nat, n: nat)
    requires m <= n
    ensures |Decimal(m)| <= |Decimal(n)|
  {
    if n >= 10 && m >= 10 { DecimalGrows(m / 10, n / 10); }
  }

  lemma {:induction false} DecimalInjective(m: nat, n: nat)
    requires Decimal(m) == Decimal(n)
    ensures m == n
  {
    DecimalNonempty(m);
    DecimalNonempty(n);
    if m >= 10 && n >= 10 {
      var a, b := Decimal(m / 10), Decimal(n / 10);
      assert Decimal(m)[..|a|] == a && Decimal(n)[..|b|] == b;
      assert Decimal(m)[|a|] == 0x30 + m % 10 && Decimal(n)[|b|] == 0x30 + n % 10;
      DecimalInjective(m / 10, n / 10);
    }
  }

  lemma {:induction false} DecimalNonempty(n: nat)
    ensures |Decimal(n)| >= 1 && (n >= 10 ==> |Decimal(n)| >= 2)
    ensures forall i :: 0 <= i < |Decimal(n)| ==> 0x30 <= Decimal(n)[i] < 0x3A
  {
    if n >= 10 { DecimalNonempty(n / 10); }
  }

  /** The number a decimal text stands for. */
  function DecimalValue(t: Text): nat
    requires forall i :: 0 <= i < |t| ==> 0x30 <= t[i] <= 0x39
  {
    if t == [] then 0 else DecimalValue(t[..|t| - 1]) * 10 + (t[|t| - 1] - 0x30)
  }

  /** Decimal text reads back as the number, and has no leading zero. */
  lemma {:induction false} DecimalReads(n: nat)
    ensures forall i :: 0 <= i < |Decimal(n)| ==> 0x30 <= Decimal(n)[i] <= 0x39
    ensures DecimalValue(Decimal(n)) == n
    ensures n > 0 ==> Decimal(n)[0] != 0x30
  {
    if n >= 10 {
      DecimalReads(n / 10);
      assert Decimal(n)[..|Decimal(n)| - 1] == Decimal(n / 10);
    }
  }

  function HexDigit(n: nat): CodePoint
    requires n < 16
  {
    if n < 10 then 0x30 + n else 0x57 + n
  }

  /** A lower-case hexadecimal SHA-256. */
  predicate IsDigest(t: Text) {
    |t| == 64 && forall i :: 0 <= i < 64 ==> 0x30 <= t[i] < 0x3A || 0x61 <= t[i] < 0x67
  }

  /** `IsDigest`, character by character. */
  method CheckDigest(t: Text) returns (ok: bool)
    ensures ok <==> IsDigest(t)
  {
    if |t| != 64 { return false; }
    var i := 0;
    while i < 64
      invariant 0 <= i <= 64 && forall k :: 0 <= k < i ==> 0x30 <= t[k] < 0x3A || 0x61 <= t[k] < 0x67
    {
      HexDigitsAre(t[i]);
      if t[i] !in FromString("0123456789abcdef") { return false; }
      i := i + 1;
    }
    return true;
  }

  lemma HexDigitsAre(c: CodePoint)
    ensures c in FromString("0123456789abcdef") <==> 0x30 <= c < 0x3A || 0x61 <= c < 0x67
  {
    var digits := FromString("0123456789abcdef");
    if 0x30 <= c < 0x3A {
      assert digits[c - 0x30] == c;
    } else if 0x61 <= c < 0x67 {
      assert digits[c - 0x57] == c;
    }
  }

  /** One character inside a JSON string, with non-ASCII text left as it is. */
  function EscapeChar(c: CodePoint): (e: Text)
    ensures e != []
  {
    if c == 0x22 || c == 0x5C then [0x5C, c]
    else if c == 0x0A then [0x5C, 0x6E]
    else if c == 0x0D then [0x5C, 0x72]
    else if c == 0x09 then [0x5C, 0x74]
    else if c == 0x08 then [0x5C, 0x62]
    else if c == 0x0C then [0x5C, 0x66]
    else if c < 0x20 then [0x5C, 0x75, 0x30, 0x30, HexDigit(c / 16), HexDigit(c % 16)]
    else [c]
  }

  function Escape(t: Text): Text {
    if t == [] then [] else EscapeChar(t[0]) + Escape(t[1..])
  }

  lemma {:induction false} EscapeConcat(a: Text, b: Text)
    ensures Escape(a + b) == Escape(a) + Escape(b)
  {
    if a == [] {
      assert a + b == b;
    } else {
      EscapeConcat(a[1..], b);
      assert (a + b)[1..] == a[1..] + b;
      Joined(EscapeChar(a[0]), Escape(a[1..]), Escape(b));
    }
  }

  /** A JSON value.  Numbers are kept as their literals; an object is the sequence of its
      members in key order, so equal objects are equal sequences. */
  datatype Json =
    | Null
    | True
    | False
    | Number(literal: Text)
    | Str(text: Text)
    | Array(items: seq<Json>)
    | Object(members: seq<Member>)

  datatype Member = Member(key: Text, value: Json)

  predicate NumberChar(c: CodePoint) {
    0x30 <= c < 0x3A || c == 0x2B || c == 0x2D || c == 0x2E || c == 0x45 || c == 0x65
  }

  predicate WellFormed(j: Json) {
    match j
    case Number(n) =>
      n != [] && (0x30 <= n[0] < 0x3A || n[0] == 0x2D) && forall i :: 0 <= i < |n| ==> NumberChar(n[i])
    case Array(items) => forall i :: 0 <= i < |items| ==> WellFormed(items[i])
    case Object(members) => forall i :: 0 <= i < |members| ==> WellFormed(members[i].value)
    case _ => true
  }

  const NULL: Text := [0x6E, 0x75, 0x6C, 0x6C]
  const TRUE: Text := [0x74, 0x72, 0x75, 0x65]
  const FALSE: Text := [0x66, 0x61, 0x6C, 0x73, 0x65]

  function Quoted(t: Text): Text {
    [0x22] + (Escape(t) + [0x22])
  }

  function Canonical(j: Json): Text
    decreases j, 0
  {
    match j
    case Null => NULL
    case True => TRUE
    case False => FALSE
    case Number(n) => n
    case Str(t) => Quoted(t)
    case Array(items) => [0x5B] + Items(items)
    case Object(members) => [0x7B] + Members(members)
  }

  /** The items, their separating commas and the closing bracket. */
  function Items(items: seq<Json>): Text
    decreases items, 1
  {
    if items == [] then [0x5D] else Canonical(items[0]) + ItemsAfter(items[1..])
  }

  function ItemsAfter(items: seq<Json>): Text
    decreases items, 2
  {
    if items == [] then [0x5D] else [0x2C] + Items(items)
  }

  function Members(members: seq<Member>): Text
    decreases members, 1
  {
    if members == [] then [0x7D]
    else
      var m := members[0];
      Quoted(m.key) + ([0x3A] + (Canonical(m.value) + MembersAfter(members[1..])))
  }

  function MembersAfter(members: seq<Member>): Text
    decreases members, 2
  {
    if members == [] then [0x7D] else [0x2C] + Members(members)
  }

  /* ---- Every value is read back from its text ---- */

  /** What may follow a value: nothing, or a character that ends a number. */
  predicate Ends(r: Text) {
    r == [] || !NumberChar(r[0])
  }

  predicate Digits(n: Text) {
    forall i :: 0 <= i < |n| ==> NumberChar(n[i])
  }

  lemma {:induction false} NumberEnds(m: Text, n: Text, r: Text, s: Text)
    requires Digits(m) && Digits(n) && Ends(r) && Ends(s) && m + r == n + s
    ensures m == n && r == s
  {
    NumberSpan(m, r);
    NumberSpan(n, s);
    assert m == (m + r)[..|m|] && n == (n + s)[..|n|];
    DropFront(m, r);
    DropFront(n, s);
  }

  /** What a reader of JSON text, as section 7 of RFC 8259 writes it, takes off the front. */
  datatype Reading<T> = Fails | Reads(value: T, rest: Text)

  function HexValue(c: CodePoint): (v: Option<nat>)
    ensures v.Some? ==> v.value < 16
  {
    if 0x30 <= c <= 0x39 then Some(c - 0x30)
    else if 0x41 <= c <= 0x46 then Some(c - 0x41 + 10)
    else if 0x61 <= c <= 0x66 then Some(c - 0x61 + 10)
    else None
  }

  /** The character four hexadecimal digits name. */
  function FourDigits(t: Text): Option<CodePoint>
    requires |t| >= 4
  {
    match (HexValue(t[0]), HexValue(t[1]), HexValue(t[2]), HexValue(t[3]))
    case (Some(a), Some(b), Some(c), Some(d)) => Some(((a * 16 + b) * 16 + c) * 16 + d)
    case _ => None
  }

  /** One character inside a string, escaped or not. */
  function ReadChar(t: Text): (r: Reading<CodePoint>)
    requires t != []
    ensures r.Reads? ==> |r.rest| < |t|
  {
    if t[0] != 0x5C then if t[0] < 0x20 then Fails else Reads(t[0], t[1..])
    else if |t| < 2 then Fails
    else if t[1] == 0x22 || t[1] == 0x5C || t[1] == 0x2F then Reads(t[1], t[2..])
    else if t[1] == 0x62 then Reads(0x08, t[2..])
    else if t[1] == 0x66 then Reads(0x0C, t[2..])
    else if t[1] == 0x6E then Reads(0x0A, t[2..])
    else if t[1] == 0x72 then Reads(0x0D, t[2..])
    else if t[1] == 0x74 then Reads(0x09, t[2..])
    else if t[1] == 0x75 && |t| >= 6 && FourDigits(t[2..]).Some? then Reads(FourDigits(t[2..]).value, t[6..])
    else Fails
  }

  /** The rest of a string, up to its closing quote. */
  function ReadString(t: Text): (r: Reading<Text>)
    ensures r.Reads? ==> |r.rest| < |t|
    decreases |t|
  {
    if t == [] then Fails
    else if t[0] == 0x22 then Reads([], t[1..])
    else
      match ReadChar(t)
      case Fails => Fails
      case Reads(c, rest) =>
        match ReadString(rest)
        case Fails => Fails
        case Reads(text, after) => Reads([c] + text, after)
  }

  function NumberLength(t: Text): (n: nat)
    ensures n <= |t|
  {
    if t == [] || !NumberChar(t[0]) then 0 else 1 + NumberLength(t[1..])
  }

  function ReadValue(t: Text): (r: Reading<Json>)
    ensures r.Reads? ==> |r.rest| < |t|
    decreases |t|, 0
  {
    if t == [] then Fails
    else if t[0] == 0x22 then
      match ReadString(t[1..]) case Fails => Fails case Reads(text, rest) => Reads(Str(text), rest)
    else if t[0] == 0x5B then
      match ReadItems(t[1..]) case Fails => Fails case Reads(items, rest) => Reads(Array(items), rest)
    else if t[0] == 0x7B then
      match ReadMembers(t[1..]) case Fails => Fails case Reads(members, rest) => Reads(Object(members), rest)
    else if FromString("null") <= t then Reads(Null, t[4..])
    else if FromString("true") <= t then Reads(True, t[4..])
    else if FromString("false") <= t then Reads(False, t[5..])
    else if 0x30 <= t[0] <= 0x39 || t[0] == 0x2D then
      var n := NumberLength(t);
      if n == 0 then Fails else Reads(Number(t[..n]), t[n..])
    else Fails
  }

  /** The items of an array, after its opening bracket. */
  function ReadItems(t: Text): (r: Reading<seq<Json>>)
    ensures r.Reads? ==> |r.rest| < |t|
    decreases |t|, 2
  {
    if t != [] && t[0] == 0x5D then Reads([], t[1..]) else ReadSomeItems(t)
  }

  function ReadSomeItems(t: Text): (r: Reading<seq<Json>>)
    ensures r.Reads? ==> |r.rest| < |t|
    decreases |t|, 1
  {
    match ReadValue(t)
    case Fails => Fails
    case Reads(item, rest) =>
      if rest == [] then Fails
      else if rest[0] == 0x5D then Reads([item], rest[1..])
      else if rest[0] != 0x2C then Fails
      else match ReadSomeItems(rest[1..]) case Fails => Fails case Reads(items, after) => Reads([item] + items, after)
  }

  /** The members of an object, after its opening brace. */
  function ReadMembers(t: Text): (r: Reading<seq<Member>>)
    ensures r.Reads? ==> |r.rest| < |t|
    decreases |t|, 2
  {
    if t != [] && t[0] == 0x7D then Reads([], t[1..]) else ReadSomeMembers(t)
  }

  function ReadMember(t: Text): (r: Reading<Member>)
    ensures r.Reads? ==> |r.rest| < |t|
    decreases |t|, 0
  {
    if t == [] || t[0] != 0x22 then Fails
    else
      match ReadString(t[1..])
      case Fails => Fails
      case Reads(key, rest) =>
        if rest == [] || rest[0] != 0x3A then Fails
        else match ReadValue(rest[1..]) case Fails => Fails case Reads(value, after) => Reads(Member(key, value), after)
  }

  function ReadSomeMembers(t: Text): (r: Reading<seq<Member>>)
    ensures r.Reads? ==> |r.rest| < |t|
    decreases |t|, 1
  {
    match ReadMember(t)
    case Fails => Fails
    case Reads(member, rest) =>
      if rest == [] then Fails
      else if rest[0] == 0x7D then Reads([member], rest[1..])
      else if rest[0] != 0x2C then Fails
      else match ReadSomeMembers(rest[1..]) case Fails => Fails case Reads(members, after) => Reads([member] + members, after)
  }

  lemma {:induction false} NumberSpan(n: Text, r: Text)
    requires Digits(n) && Ends(r)
    ensures NumberLength(n + r) == |n|
  {
    if n == [] {
      assert n + r == r;
    } else {
      assert (n + r)[1..] == n[1..] + r;
      NumberSpan(n[1..], r);
    }
  }

  lemma HexReads(n: nat)
    requires n < 16
    ensures HexValue(HexDigit(n)) == Some(n)
  {}

  lemma CharReads(c: CodePoint, r: Text)
    ensures ReadChar(EscapeChar(c) + r) == Reads(c, r) && (EscapeChar(c) + r)[0] != 0x22
  {
    var e := EscapeChar(c);
    DropFront(e, r);
    if |e| == 6 {
      HexReads(c / 16);
      HexReads(c % 16);
      assert (e + r)[2..][0] == 0x30 && (e + r)[2..][1] == 0x30;
      assert (e + r)[2..][2] == e[4] && (e + r)[2..][3] == e[5];
      assert FourDigits((e + r)[2..]) == Some(c / 16 * 16 + c % 16);
    }
  }

  /** Only what JSON demands is escaped, in the short form where there is one, and with
      lower-case digits. */
  lemma EscapesExactly(c: CodePoint)
    ensures EscapeChar(c) == [c] <==> c >= 0x20 && c != 0x22 && c != 0x5C
    ensures |EscapeChar(c)| == 2 <==> c in {0x08, 0x09, 0x0A, 0x0C, 0x0D, 0x22, 0x5C}
    ensures forall i :: 0 <= i < |EscapeChar(c)| && EscapeChar(c) != [c] ==> !(0x41 <= EscapeChar(c)[i] <= 0x46)
  {}

  lemma {:induction false} StringReads(t: Text, r: Text)
    ensures ReadString(Escape(t) + ([0x22] + r)) == Reads(t, r)
  {
    var q := [0x22] + r;
    if t == [] {
      assert Escape(t) + q == q && q[1..] == r;
    } else {
      Joined(EscapeChar(t[0]), Escape(t[1..]), q);
      CharReads(t[0], Escape(t[1..]) + q);
      StringReads(t[1..], r);
      assert t == [t[0]] + t[1..];
    }
  }

  lemma QuotedReads(t: Text, r: Text)
    ensures Quoted(t) + r == [0x22] + (Escape(t) + ([0x22] + r)) && ReadString((Quoted(t) + r)[1..]) == Reads(t, r)
  {
    Joined([0x22], Escape(t) + [0x22], r);
    Joined(Escape(t), [0x22], r);
    DropFront([0x22 as CodePoint], Escape(t) + ([0x22] + r));
    StringReads(t, r);
  }

  lemma LiteralTexts()
    ensures FromString("null") == NULL && FromString("true") == TRUE && FromString("false") == FALSE
  {}

  lemma LiteralReads(name: Text, r: Text)
    requires name == NULL || name == TRUE || name == FALSE
    ensures ReadValue(name + r) == Reads(if name == NULL then Null else if name == TRUE then True else False, r)
  {
    LiteralTexts();
    DropFront(name, r);
    assert name <= name + r && (name + r)[0] == name[0];
  }

  lemma NumberReads(n: Text, r: Text)
    requires WellFormed(Number(n)) && Ends(r)
    ensures ReadValue(n + r) == Reads(Number(n), r)
  {
    LiteralTexts();
    NumberSpan(n, r);
    DropFront(n, r);
    assert (n + r)[0] == n[0] && (n + r)[..|n|] == n;
  }

  lemma Opened(c: CodePoint, a: Text, r: Text)
    ensures ([c] + a + r)[0] == c && ([c] + a + r)[1..] == a + r
  {}

  /** A value's text is never mistaken for the end of an array or of an object. */
  lemma FirstCharacter(j: Json)
    requires WellFormed(j)
    ensures Canonical(j) != [] && Canonical(j)[0] != 0x5D && Canonical(j)[0] != 0x7D
  {}

  /** Reading the canonical text of a value gives the value back, and all that follows it. */
  lemma {:induction false} ReadsBack(j: Json, r: Text)
    requires WellFormed(j) && Ends(r)
    ensures ReadValue(Canonical(j) + r) == Reads(j, r)
    decreases j, 0
  {
    hide ReadItems, ReadMembers, ReadString;
    match j {
      case Null => LiteralReads(NULL, r);
      case True => LiteralReads(TRUE, r);
      case False => LiteralReads(FALSE, r);
      case Number(n) => NumberReads(n, r);
      case Str(t) => QuotedReads(t, r);
      case Array(items) =>
        Opened(0x5B, Items(items), r);
        ItemsReadBack(items, r);
      case Object(members) =>
        Opened(0x7B, Members(members), r);
        MembersReadBack(members, r);
    }
  }

  lemma {:induction false} ItemsReadBack(items: seq<Json>, r: Text)
    requires forall i :: 0 <= i < |items| ==> WellFormed(items[i])
    ensures ReadItems(Items(items) + r) == Reads(items, r)
    decreases items, 2
  {
    if items == [] {
      DropFront([0x5D as CodePoint], r);
    } else {
      FirstCharacter(items[0]);
      assert (Items(items) + r)[0] == Canonical(items[0])[0];
      SomeItemsReadBack(items, r);
    }
  }

  lemma {:induction false} SomeItemsReadBack(items: seq<Json>, r: Text)
    requires items != [] && forall i :: 0 <= i < |items| ==> WellFormed(items[i])
    ensures ReadSomeItems(Items(items) + r) == Reads(items, r)
    decreases items, 1
  {
    hide ReadValue;
    var later := ItemsAfter(items[1..]) + r;
    Joined(Canonical(items[0]), ItemsAfter(items[1..]), r);
    assert later[0] == ItemsAfter(items[1..])[0];
    ReadsBack(items[0], later);
    assert items == [items[0]] + items[1..];
    if items[1..] == [] {
      assert later[1..] == r && items == [items[0]];
    } else {
      Opened(0x2C, Items(items[1..]), r);
      SomeItemsReadBack(items[1..], r);
    }
  }

  lemma {:induction false} MembersReadBack(members: seq<Member>, r: Text)
    requires forall i :: 0 <= i < |members| ==> WellFormed(members[i].value)
    ensures ReadMembers(Members(members) + r) == Reads(members, r)
    decreases members, 3
  {
    if members == [] {
      DropFront([0x7D as CodePoint], r);
    } else {
      MemberParts(members, r);
      SomeMembersReadBack(members, r);
    }
  }

  lemma MemberParts(members: seq<Member>, r: Text)
    requires members != []
    ensures var later := MembersAfter(members[1..]) + r;
            Members(members) + r == Quoted(members[0].key) + ([0x3A] + (Canonical(members[0].value) + later))
  {
    var q, v, a := Quoted(members[0].key), Canonical(members[0].value), MembersAfter(members[1..]);
    Joined(q, [0x3A] + (v + a), r);
    Joined([0x3A], v + a, r);
    Joined(v, a, r);
  }

  lemma {:induction false} MemberReadsBack(m: Member, r: Text)
    requires WellFormed(m.value) && Ends(r)
    ensures ReadMember(Quoted(m.key) + ([0x3A] + (Canonical(m.value) + r))) == Reads(m, r)
    decreases m, 1
  {
    hide ReadValue, ReadString;
    var rest := [0x3A] + (Canonical(m.value) + r);
    QuotedReads(m.key, rest);
    DropFront([0x3A as CodePoint], Canonical(m.value) + r);
    ReadsBack(m.value, r);
  }

  lemma {:induction false} SomeMembersReadBack(members: seq<Member>, r: Text)
    requires members != [] && forall i :: 0 <= i < |members| ==> WellFormed(members[i].value)
    ensures ReadSomeMembers(Members(members) + r) == Reads(members, r)
    decreases members, 2
  {
    hide ReadMember;
    var later := MembersAfter(members[1..]) + r;
    MemberParts(members, r);
    assert later[0] == MembersAfter(members[1..])[0];
    MemberReadsBack(members[0], later);
    assert members == [members[0]] + members[1..];
    if members[1..] == [] {
      assert later[1..] == r && members == [members[0]];
    } else {
      Opened(0x2C, Members(members[1..]), r);
      SomeMembersReadBack(members[1..], r);
    }
  }

  /** Two texts that agree and continue past a value continue past the same value. */
  lemma Unambiguous(v: Json, w: Json, r: Text, s: Text)
    requires WellFormed(v) && WellFormed(w) && Ends(r) && Ends(s)
    requires Canonical(v) + r == Canonical(w) + s
    ensures v == w && r == s
  {
    ReadsBack(v, r);
    ReadsBack(w, s);
  }

  /** Two values with the same canonical bytes are the same value. */
  lemma CanonicalBytesInjective(v: Json, w: Json)
    requires WellFormed(v) && WellFormed(w)
    requires Encode(Canonical(v)) == Encode(Canonical(w))
    ensures v == w
  {
    EncodeInjective(Canonical(v), Canonical(w));
    Unambiguous(v, w, [], []);
  }
}
