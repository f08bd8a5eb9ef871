/** The append-only log: one canonical JSON record a line, each carrying the hash of the
    record before it.  `sha` stands for SHA-256 and is any function from bytes to text;
    tampering is shown to leave behind a repeated hash, never to be impossible. */
module AuditChain {
  import opened Wrappers
  import opened Utf8
  import opened CanonicalJson

  type Sha = Bytes -> Text

  const GENESIS: Text := FromString("00000000000000000000000000000000") + FromString("00000000000000000000000000000000")

  /** One line of the file.  An entry is the parsed object without its `entry_hash`, its
      members in key order, and that hash (`Null` when the key is missing). */
  datatype Line =
    | Unterminated
    | Unreadable
    | Entry(unsigned: seq<Member>, entryHash: Json)

  const ACTOR := FromString("actor")
  const ELAPSED := FromString("elapsed_ms")
  const EVENT_ID := FromString("event_id")
  const EVENT_TYPE := FromString("event_type")
  const PAYLOAD := FromString("payload")
  const PREVIOUS := FromString("previous_hash")
  const RUN_ID := FromString("run_id")
  const SCHEMA := FromString("schema_version")
  const SEQUENCE := FromString("sequence")
  const TIMESTAMP := FromString("timestamp_utc")

  predicate Has(fields: seq<Member>, key: Text) {
    exists i :: 0 <= i < |fields| && fields[i].key == key
  }

  /** `record.get(key)`. */
  function Lookup(fields: seq<Member>, key: Text): Json {
    if fields == [] then Null
    else if fields[0].key == key then fields[0].value
    else Lookup(fields[1..], key)
  }

  function IntJson(n: nat): Json {
    Number(Decimal(n))
  }

  /** The bytes an entry is hashed over: `sha256_text(canonical_json(unsigned))` encodes
      with `errors="replace"`. */
  function SignedBytes(line: Line): Bytes
    requires line.Entry?
  {
    EncodeReplace(Canonical(Object(line.unsigned)))
  }

  /** The text an entry is hashed over, as encoding leaves it: `?` for each lone surrogate. */
  function Printed(line: Line): Text
    requires line.Entry?
  {
    Printable(Canonical(Object(line.unsigned)))
  }

  /** The text an entry is hashed over holds no lone surrogate, so encoding replaces
      nothing. */
  predicate Faithful(line: Line) {
    line.Entry? && Encodable(Canonical(Object(line.unsigned)))
  }

  function EntryHash(sha: Sha, line: Line): Text
    requires line.Entry?
  {
    sha(SignedBytes(line))
  }

  /** The hash that line `i` must link to. */
  function LinkBefore(sha: Sha, file: seq<Line>, i: nat): Text
    requires i <= |file|
  {
    if i == 0 then GENESIS
    else if file[i - 1].Entry? then EntryHash(sha, file[i - 1])
    else []
  }

  datatype Fault = Incomplete | InvalidJson | SequenceMismatch | LinkMismatch | HashMismatch | NoFault

  /** What `AuditLog.verify` says of line `i` when every line before it passed. */
  function FaultAt(sha: Sha, file: seq<Line>, i: nat): Fault
    requires i < |file|
  {
    match file[i]
    case Unterminated => Incomplete
    case Unreadable => InvalidJson
    case Entry(unsigned, entryHash) =>
      if Lookup(unsigned, SEQUENCE) != IntJson(i + 1) then SequenceMismatch
      else if Lookup(unsigned, PREVIOUS) != Str(LinkBefore(sha, file, i)) then LinkMismatch
      else if entryHash != Str(EntryHash(sha, file[i])) then HashMismatch
      else NoFault
  }

  predicate Chained(sha: Sha, file: seq<Line>) {
    forall i :: 0 <= i < |file| ==> FaultAt(sha, file, i) == NoFault
  }

  lemma LinkOfPrefix(sha: Sha, file: seq<Line>, n: nat, i: nat)
    requires i <= n <= |file|
    ensures LinkBefore(sha, file[..n], i) == LinkBefore(sha, file, i)
    ensures i < n ==> FaultAt(sha, file[..n], i) == FaultAt(sha, file, i)
  {}

  lemma ChainedPrefix(sha: Sha, file: seq<Line>, n: nat)
    requires Chained(sha, file) && n <= |file|
    ensures Chained(sha, file[..n])
  {
    forall i | 0 <= i < n ensures FaultAt(sha, file[..n], i) == NoFault {
      LinkOfPrefix(sha, file, n, i);
    }
  }

  lemma ChainedExtends(sha: Sha, file: seq<Line>, line: Line)
    requires Chained(sha, file) && FaultAt(sha, file + [line], |file|) == NoFault
    ensures Chained(sha, file + [line])
  {
    var longer := file + [line];
    assert longer[..|file|] == file;
    forall i | 0 <= i < |longer| ensures FaultAt(sha, longer, i) == NoFault {
      if i < |file| { LinkOfPrefix(sha, longer, |file|, i); }
    }
  }

  /* ---- Verifying, appending and reopening ---- */

  datatype Verdict = Verified | Broken(line: nat, fault: Fault)

  /** `AuditLog.verify`: the first line that breaks the chain, if one does. */
  method Verify(sha: Sha, file: seq<Line>) returns (v: Verdict)
    ensures v.Verified? <==> Chained(sha, file)
    ensures v.Broken? ==> v.line < |file| && Chained(sha, file[..v.line])
    ensures v.Broken? ==> v.fault == FaultAt(sha, file, v.line) != NoFault
  {
    var previous, i := GENESIS, 0;
    while i < |file|
      invariant 0 <= i <= |file| && previous == LinkBefore(sha, file, i)
      invariant forall k :: 0 <= k < i ==> FaultAt(sha, file, k) == NoFault
    {
      ghost var fault := FaultAt(sha, file, i);
      if fault != NoFault { PassedSoFar(sha, file, i); }
      match file[i] {
        case Unterminated => return Broken(i, Incomplete);
        case Unreadable => return Broken(i, InvalidJson);
        case Entry(unsigned, entryHash) =>
          if Lookup(unsigned, SEQUENCE) != IntJson(i + 1) { return Broken(i, SequenceMismatch); }
          if Lookup(unsigned, PREVIOUS) != Str(previous) { return Broken(i, LinkMismatch); }
          if entryHash != Str(EntryHash(sha, file[i])) { return Broken(i, HashMismatch); }
          previous := entryHash.text;
      }
      i := i + 1;
    }
    return Verified;
  }

  lemma PassedSoFar(sha: Sha, file: seq<Line>, i: nat)
    requires i <= |file| && forall k :: 0 <= k < i ==> FaultAt(sha, file, k) == NoFault
    ensures Chained(sha, file[..i])
  {
    forall k | 0 <= k < i ensures FaultAt(sha, file[..i], k) == NoFault {
      LinkOfPrefix(sha, file, i, k);
    }
  }

  /** What the caller and the clock add to an appended record. */
  datatype Stamp = Stamp(eventId: Text, eventType: Text, actor: Text, payload: Json, elapsedMs: nat, timestamp: Text)

  /** The record `append` hashes, in the order `canonical_json` sorts it. */
  function Base(runId: Text, sequence: nat, previous: Text, s: Stamp): seq<Member> {
    [Member(ACTOR, Str(s.actor)), Member(ELAPSED, IntJson(s.elapsedMs)),
     Member(EVENT_ID, Str(s.eventId)), Member(EVENT_TYPE, Str(s.eventType)),
     Member(PAYLOAD, s.payload), Member(PREVIOUS, Str(previous)), Member(RUN_ID, Str(runId)),
     Member(SCHEMA, IntJson(1)), Member(SEQUENCE, IntJson(sequence)),
     Member(TIMESTAMP, Str(s.timestamp))]
  }

  function Appended(sha: Sha, base: seq<Member>): Line {
    Entry(base, Str(EntryHash(sha, Entry(base, Null))))
  }

  /** The line `append` adds to `file`. */
  function Next(sha: Sha, runId: Text, file: seq<Line>, s: Stamp): (line: Line)
    ensures line.Entry? && line.entryHash == Str(EntryHash(sha, line))
  {
    Appended(sha, Base(runId, |file| + 1, LinkBefore(sha, file, |file|), s))
  }

  class AuditLog {
    const sha: Sha
    const runId: Text
    var file: seq<Line>
    var sequence: nat
    var previous: Text
    var open: bool

    ghost predicate Valid()
      reads this
    {
      && Chained(sha, file)
      && sequence == |file|
      && previous == LinkBefore(sha, file, |file|)
    }

    /** The state `__init__` reaches once the existing file has been verified. */
    constructor (sha: Sha, runId: Text, file: seq<Line>)
      requires Chained(sha, file)
      ensures Valid() && open
      ensures this.sha == sha && this.runId == runId && this.file == file
    {
      this.sha, this.runId, this.file, open := sha, runId, file, true;
      sequence := |file|;
      previous := LinkBefore(sha, file, |file|);
    }

    /** `AuditLog(path, run_id)` on a file that may already hold records. */
    static method Open(sha: Sha, runId: Text, file: seq<Line>) returns (log: AuditLog?)
      ensures log == null <==> !Chained(sha, file)
      ensures log != null ==> fresh(log) && log.Valid() && log.open
      ensures log != null ==> log.sha == sha && log.runId == runId && log.file == file
    {
      var v := Verify(sha, file);
      if v.Broken? { return null; }
      log := new AuditLog(sha, runId, file);
    }

    method Close()
      requires Valid()
      modifies this`open
      ensures Valid() && !open
    {
      open := false;
    }

    /** Appending to a closed log, or a record UTF-8 cannot carry, changes nothing;
        otherwise one record is added and the log still verifies. */
    method Append(s: Stamp) returns (r: Option<Line>)
      requires Valid()
      modifies this
      ensures Valid() && open == old(open)
      ensures var line := Next(sha, runId, old(file), s);
              if open && Faithful(line) then r == Some(line) && file == old(file) + [line]
              else r == None && file == old(file)
    {
      if !open { return None; }
      var base := Base(runId, sequence + 1, previous, s);
      var digest := EntryHash(sha, Entry(base, Null));
      if !Encodable(Canonical(Object(base))) { return None; }
      var line := Entry(base, Str(digest));
      AppendedPasses(sha, runId, file, s);
      ChainedExtends(sha, file, line);
      file, sequence, previous := file + [line], sequence + 1, digest;
      return Some(line);
    }
  }

  /** Key order, character by character. */
  predicate KeyBefore(a: Text, b: Text) {
    if a == [] || b == [] then a == [] && b != []
    else a[0] < b[0] || (a[0] == b[0] && KeyBefore(a[1..], b[1..]))
  }

  /** The record carries each thing the caller and the log gave it, under its own name. */
  lemma BaseCarries(runId: Text, sequence: nat, previous: Text, s: Stamp)
    ensures var b := Base(runId, sequence, previous, s);
            && |b| == 10
            && Lookup(b, FromString("actor")) == Str(s.actor)
            && Lookup(b, FromString("elapsed_ms")) == Number(Decimal(s.elapsedMs))
            && Lookup(b, FromString("event_id")) == Str(s.eventId)
            && Lookup(b, FromString("event_type")) == Str(s.eventType)
            && Lookup(b, FromString("payload")) == s.payload
            && Lookup(b, FromString("previous_hash")) == Str(previous)
            && Lookup(b, FromString("run_id")) == Str(runId)
            && Lookup(b, FromString("schema_version")) == Number(Decimal(1))
            && Lookup(b, FromString("sequence")) == Number(Decimal(sequence))
            && Lookup(b, FromString("timestamp_utc")) == Str(s.timestamp)
  {
    hide Lookup, KEYS;
    var b := Base(runId, sequence, previous, s);
    KeyList();
    forall n: nat | n < 10 ensures Lookup(b, b[n].key) == b[n].value { FieldNamed(b, n); }
    assert b[0].key == ACTOR && b[1].key == ELAPSED && b[2].key == EVENT_ID && b[3].key == EVENT_TYPE;
    assert b[4].key == PAYLOAD && b[5].key == PREVIOUS && b[6].key == RUN_ID && b[7].key == SCHEMA;
    assert b[8].key == SEQUENCE && b[9].key == TIMESTAMP;
  }

  /** The ten names, in the order canonical JSON sorts them. */
  const KEYS: seq<Text> :=
    [ACTOR, ELAPSED, EVENT_ID, EVENT_TYPE, PAYLOAD, PREVIOUS, RUN_ID, SCHEMA, SEQUENCE, TIMESTAMP]

  lemma KeyList()
    ensures KEYS == [ACTOR, ELAPSED, EVENT_ID, EVENT_TYPE, PAYLOAD, PREVIOUS, RUN_ID, SCHEMA, SEQUENCE, TIMESTAMP]
  {}

  /** Each name sorts before the next, so no two are the same. */
  lemma KeysAscend(i: nat)
    requires i < 9
    ensures KeyBefore(KEYS[i], KEYS[i + 1])
  {
    if i == 2 {
      assert EVENT_ID[..6] == EVENT_TYPE[..6];
      SharedPrefix(EVENT_ID, EVENT_TYPE, 6);
    } else if i == 1 || i == 4 || i == 7 {
      assert KEYS[i][1..][0] < KEYS[i + 1][1..][0];
    }
  }

  lemma {:induction false} SharedPrefix(a: Text, b: Text, n: nat)
    requires n < |a| && n < |b| && a[..n] == b[..n] && a[n] < b[n]
    ensures KeyBefore(a, b)
  {
    if n > 0 {
      assert a[0] == a[..n][0] && b[0] == b[..n][0];
      assert a[1..][..n - 1] == a[..n][1..] && b[1..][..n - 1] == b[..n][1..];
      SharedPrefix(a[1..], b[1..], n - 1);
    }
  }

  lemma {:induction false} KeyBeforeChains(a: Text, b: Text, c: Text)
    requires KeyBefore(a, b) && KeyBefore(b, c)
    ensures KeyBefore(a, c) && a != c
  {
    if a != [] && b != [] && c != [] && a[0] == b[0] == c[0] { KeyBeforeChains(a[1..], b[1..], c[1..]); }
  }

  lemma {:induction false} KeysSorted(i: nat, j: nat)
    requires i < j < 10
    ensures KeyBefore(KEYS[i], KEYS[j]) && KEYS[i] != KEYS[j]
    decreases j - i
  {
    hide KEYS, KeyBefore;
    KeyList();
    KeysAscend(i);
    if i + 1 < j {
      KeysSorted(i + 1, j);
      KeyBeforeChains(KEYS[i], KEYS[i + 1], KEYS[j]);
    } else {
      NeverItself(KEYS[i], KEYS[j]);
    }
  }

  lemma {:induction false} NeverItself(a: Text, b: Text)
    requires KeyBefore(a, b)
    ensures a != b
  {
    if a != [] && b != [] && a[0] == b[0] { NeverItself(a[1..], b[1..]); }
  }

  lemma FieldNamed(b: seq<Member>, n: nat)
    requires |b| == 10 && n < 10 && forall i :: 0 <= i < 10 ==> b[i].key == KEYS[i]
    ensures Lookup(b, KEYS[n]) == b[n].value
  {
    hide KEYS, KeyBefore, Lookup;
    KeyList();
    forall i | 0 <= i < n ensures b[i].key != KEYS[n] { KeysSorted(i, n); }
    LookupSkips(b, KEYS[n], n);
  }

  lemma BaseFields(runId: Text, sequence: nat, previous: Text, s: Stamp)
    ensures Lookup(Base(runId, sequence, previous, s), SEQUENCE) == IntJson(sequence)
    ensures Lookup(Base(runId, sequence, previous, s), PREVIOUS) == Str(previous)
  {
    hide Base, Lookup;
    BaseCarries(runId, sequence, previous, s);
  }

  lemma {:induction false} LookupSkips(fields: seq<Member>, key: Text, n: nat)
    requires n < |fields| && fields[n].key == key
    requires forall i :: 0 <= i < n ==> fields[i].key != key
    ensures Lookup(fields, key) == fields[n].value
  {
    if n > 0 { LookupSkips(fields[1..], key, n - 1); }
  }

  lemma AppendedPasses(sha: Sha, runId: Text, file: seq<Line>, s: Stamp)
    ensures FaultAt(sha, file + [Next(sha, runId, file, s)], |file|) == NoFault
  {
    var link := LinkBefore(sha, file, |file|);
    var line := Appended(sha, Base(runId, |file| + 1, link, s));
    BaseFields(runId, |file| + 1, link, s);
    assert (file + [line])[..|file|] == file;
    LinkOfPrefix(sha, file + [line], |file|, |file|);
  }

  /* ---- Tamper evidence ---- */

  /** The entries hold JSON values. */
  predicate Readable(file: seq<Line>) {
    forall i :: 0 <= i < |file| ==> file[i].Entry? ==> WellFormed(Object(file[i].unsigned))
  }

  /** Two different logs that both verify and end in the same hash: going back from their
      ends there is a pair of different records with one hash.  It is a SHA-256 collision
      exactly when the two print differently, as they do when neither holds a lone
      surrogate. */
  lemma {:induction false} TamperLeavesRepeatedHash(sha: Sha, a: seq<Line>, b: seq<Line>) returns (i: nat, j: nat)
    requires Readable(a) && Readable(b) && Chained(sha, a) && Chained(sha, b)
    requires a != [] && b != [] && a != b
    requires LinkBefore(sha, a, |a|) == LinkBefore(sha, b, |b|)
    ensures i < |a| && j < |b| && a[i].Entry? && b[j].Entry?
    ensures a[i].unsigned != b[j].unsigned && EntryHash(sha, a[i]) == EntryHash(sha, b[j])
    ensures SignedBytes(a[i]) == SignedBytes(b[j]) <==> Printed(a[i]) == Printed(b[j])
    ensures Faithful(a[i]) && Faithful(b[j]) ==> SignedBytes(a[i]) != SignedBytes(b[j])
    decreases |a|
  {
    hide SignedBytes, Printed, EntryHash, WellFormed, Canonical, Encodable;
    i, j := |a| - 1, |b| - 1;
    assert FaultAt(sha, a, i) == NoFault && FaultAt(sha, b, j) == NoFault;
    if a[i].unsigned == b[j].unsigned {
      DecimalInjective(i + 1, j + 1);
      assert a == a[..i] + [a[i]] && b == b[..i] + [b[i]];
      ChainedPrefix(sha, a, i);
      ChainedPrefix(sha, b, i);
      LinkOfPrefix(sha, a, i, i);
      LinkOfPrefix(sha, b, i, i);
      i, j := TamperLeavesRepeatedHash(sha, a[..i], b[..i]);
    } else {
      SameBytesSamePrint(a[i], b[j]);
      if Faithful(a[i]) && Faithful(b[j]) { DifferentRecordsDifferentBytes(a[i], b[j]); }
    }
  }

  lemma SameBytesSamePrint(a: Line, b: Line)
    requires a.Entry? && b.Entry?
    ensures SignedBytes(a) == SignedBytes(b) <==> Printed(a) == Printed(b)
  {
    if SignedBytes(a) == SignedBytes(b) { EncodeInjective(Printed(a), Printed(b)); }
  }

  lemma NothingReplaced(t: Text)
    requires Encodable(t)
    ensures EncodeReplace(t) == Encode(t)
  {
    assert Printable(t) == t;
  }

  lemma DifferentRecordsDifferentBytes(a: Line, b: Line)
    requires Faithful(a) && Faithful(b) && a.unsigned != b.unsigned
    requires WellFormed(Object(a.unsigned)) && WellFormed(Object(b.unsigned))
    ensures SignedBytes(a) != SignedBytes(b)
  {
    NothingReplaced(Canonical(Object(a.unsigned)));
    NothingReplaced(Canonical(Object(b.unsigned)));
    if SignedBytes(a) == SignedBytes(b) {
      CanonicalBytesInjective(Object(a.unsigned), Object(b.unsigned));
    }
  }

  /** Without that condition there need be no collision: a `?` rewritten to an escaped lone
      surrogate leaves every hash as it was, and `AuditLog.verify` still accepts. */
  lemma SurrogateGoesUnnoticed(sha: Sha) returns (a: Line, b: Line)
    ensures Chained(sha, [a]) && Chained(sha, [b]) && a.Entry? && b.Entry? && a.unsigned != b.unsigned
    ensures SignedBytes(a) == SignedBytes(b)
  {
    a, b := WithActor(sha, 0x3F), WithActor(sha, 0xD800);
    WithActorPasses(sha, 0x3F);
    WithActorPasses(sha, 0xD800);
    PrintableActor(sha, 0x3F);
    PrintableActor(sha, 0xD800);
    assert Printable(ActorText(0x3F)) == Printable(ActorText(0xD800));
    assert a.unsigned[0].value != b.unsigned[0].value;
  }

  function WithActor(sha: Sha, c: CodePoint): Line {
    Appended(sha, Base([], 1, GENESIS, Stamp([], [], [c], Null, 0, [])))
  }

  lemma WithActorPasses(sha: Sha, c: CodePoint)
    ensures Chained(sha, [WithActor(sha, c)])
  {
    AppendedPasses(sha, [], [], Stamp([], [], [c], Null, 0, []));
    assert [] + [WithActor(sha, c)] == [WithActor(sha, c)];
  }

  function ActorText(c: CodePoint): Text {
    [0x22, c, 0x22]
  }

  function AfterActor(): Text {
    MembersAfter(Base([], 1, GENESIS, Stamp([], [], [], Null, 0, []))[1..])
  }

  lemma PrintableConcat(a: Text, b: Text)
    ensures Printable(a + b) == Printable(a) + Printable(b)
  {}

  lemma PrintableActor(sha: Sha, c: CodePoint)
    requires c == 0x3F || c == 0xD800
    ensures Printable(Canonical(Object(WithActor(sha, c).unsigned)))
            == Printable([0x7B] + Quoted(ACTOR) + [0x3A]) + (Printable(ActorText(c)) + Printable(AfterActor()))
  {
    ActorSplits(c);
    PrintableConcat([0x7B] + Quoted(ACTOR) + [0x3A], ActorText(c) + AfterActor());
    PrintableConcat(ActorText(c), AfterActor());
  }

  lemma QuotedActor(c: CodePoint)
    requires c == 0x3F || c == 0xD800
    ensures Quoted([c]) == ActorText(c)
  {
    assert Escape([c][1..]) == [] && Escape([c]) == EscapeChar(c);
  }

  lemma ActorSplits(c: CodePoint)
    requires c == 0x3F || c == 0xD800
    ensures Canonical(Object(Base([], 1, GENESIS, Stamp([], [], [c], Null, 0, []))))
            == [0x7B] + Quoted(ACTOR) + [0x3A] + (ActorText(c) + AfterActor())
  {
    var base := Base([], 1, GENESIS, Stamp([], [], [c], Null, 0, []));
    assert base[1..] == Base([], 1, GENESIS, Stamp([], [], [], Null, 0, []))[1..];
    QuotedActor(c);
    assert Members(base) == Quoted(ACTOR) + ([0x3A] + (ActorText(c) + AfterActor()));
    Joined([0x7B], Quoted(ACTOR), [0x3A] + (ActorText(c) + AfterActor()));
    Joined([0x7B] + Quoted(ACTOR), [0x3A], ActorText(c) + AfterActor());
  }
}
