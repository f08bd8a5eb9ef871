/** The strict reader's walk over the log: it records every problem and goes on, so what
    it accepts is what leaves its list of errors empty. */
module AuditReader {
  import opened Wrappers
  import opened Utf8
  import opened CanonicalJson
  import opened AuditChain

  datatype Problem =
    | MissingNewline(line: nat)
    | InvalidLine(line: nat)
    | LacksFields(line: nat)
    | WrongSchema(line: nat)
    | WrongRun(line: nat)
    | WrongSequence(line: nat)
    | NoEventId(line: nat)
    | DuplicateEventId(id: Text)
    | NoEventType(line: nat)
    | WrongLink(line: nat)
    | InvalidEntryHash(line: nat)
    | NotCanonicalizable(line: nat)
    | WrongEntryHash(line: nat)
    | WrongEntryCount
    | NoRecords
    | WrongFinalHash

  predicate Complete(line: Line) {
    && line.Entry? && line.entryHash != Null
    && forall i :: 0 <= i < |KEYS| ==> Has(line.unsigned, KEYS[i])
  }

  predicate NonemptyText(j: Json) {
    j.Str? && j.text != []
  }

  function IdOf(line: Line): Text {
    if line.Entry? && Lookup(line.unsigned, EVENT_ID).Str? then Lookup(line.unsigned, EVENT_ID).text else []
  }

  /** The digest of the exact text, where `AuditLog` would replace what it cannot encode. */
  function ExactHash(sha: Sha, line: Line): Json
    requires line.Entry?
  {
    var text := Canonical(Object(line.unsigned));
    if Encodable(text) then Str(sha(Encode(text))) else Str([])
  }

  predicate Labelled(runId: Text, i: nat, line: Line)
    requires line.Entry?
  {
    && Lookup(line.unsigned, SCHEMA) == IntJson(1)
    && Lookup(line.unsigned, RUN_ID) == Str(runId)
    && Lookup(line.unsigned, SEQUENCE) == IntJson(i + 1)
    && NonemptyText(Lookup(line.unsigned, EVENT_ID))
    && NonemptyText(Lookup(line.unsigned, EVENT_TYPE))
  }

  predicate Sealed(sha: Sha, line: Line, previous: Text)
    requires line.Entry?
  {
    && Lookup(line.unsigned, PREVIOUS) == Str(previous)
    && line.entryHash.Str? && IsDigest(line.entryHash.text)
    && Faithful(line) && line.entryHash == ExactHash(sha, line)
  }

  predicate LineOk(sha: Sha, runId: Text, i: nat, line: Line, previous: Text) {
    Complete(line) && Labelled(runId, i, line) && Sealed(sha, line, previous)
  }

  function HashBefore(file: seq<Line>, i: nat): Text
    requires i <= |file|
  {
    if i == 0 then GENESIS
    else if file[i - 1].Entry? && file[i - 1].entryHash.Str? then file[i - 1].entryHash.text
    else []
  }

  predicate LinesOk(sha: Sha, runId: Text, file: seq<Line>, n: nat)
    requires n <= |file|
  {
    forall i :: 0 <= i < n ==> LineOk(sha, runId, i, file[i], HashBefore(file, i))
  }

  predicate DistinctIds(file: seq<Line>, n: nat)
    requires n <= |file|
  {
    forall i, j :: 0 <= i < j < n ==> IdOf(file[i]) != IdOf(file[j])
  }

  /** A log that passes: every line complete, labelled, linked and sealed, no event id
      twice, and the manifest's count and final hash. */
  predicate Accepted(sha: Sha, runId: Text, file: seq<Line>, count: nat, final: Text) {
    && LinesOk(sha, runId, file, |file|) && DistinctIds(file, |file|)
    && file != [] && |file| == count && HashBefore(file, |file|) == final
  }

  class Reader {
    const sha: Sha
    const runId: Text
    var errors: seq<Problem>

    constructor (sha: Sha, runId: Text)
      ensures this.sha == sha && this.runId == runId && errors == []
    {
      this.sha, this.runId, errors := sha, runId, [];
    }

    method Error(p: Problem)
      modifies this
      ensures errors != [] && (forall q :: q in errors <==> q in old(errors) || q == p)
    {
      if p !in errors { errors := errors + [p]; }
    }

    /** The ten fields and the hash. */
    method CheckComplete(line: Line) returns (complete: bool)
      requires line.Entry?
      ensures complete <==> Complete(line)
    {
      hide KEYS;
      if line.entryHash == Null { return false; }
      var names, k := set i | 0 <= i < |line.unsigned| :: line.unsigned[i].key, 0;
      while k < |KEYS|
        invariant 0 <= k <= |KEYS| && forall i :: 0 <= i < k ==> Has(line.unsigned, KEYS[i])
      {
        if KEYS[k] !in names { return false; }
        k := k + 1;
      }
      return true;
    }

    method CheckLabels(i: nat, line: Line)
      requires line.Entry?
      modifies this
      ensures errors == [] <==> old(errors) == [] && Labelled(runId, i, line)
    {
      var fields := line.unsigned;
      if Lookup(fields, SCHEMA) != IntJson(1) { Error(WrongSchema(i)); }
      if Lookup(fields, RUN_ID) != Str(runId) { Error(WrongRun(i)); }
      if Lookup(fields, SEQUENCE) != IntJson(i + 1) { Error(WrongSequence(i)); }
      var id, eventType := Lookup(fields, EVENT_ID), Lookup(fields, EVENT_TYPE);
      if !id.Str? || id.text == [] { Error(NoEventId(i)); }
      if !eventType.Str? || eventType.text == [] { Error(NoEventType(i)); }
    }

    method CheckId(line: Line, seen: set<Text>) returns (now: set<Text>)
      requires line.Entry?
      modifies this
      ensures errors == [] <==>
              old(errors) == [] && !(NonemptyText(Lookup(line.unsigned, EVENT_ID)) && IdOf(line) in seen)
      ensures now == if NonemptyText(Lookup(line.unsigned, EVENT_ID)) then seen + {IdOf(line)} else seen
    {
      now := seen;
      var id := Lookup(line.unsigned, EVENT_ID);
      if NonemptyText(id) {
        if id.text in seen { Error(DuplicateEventId(id.text)); } else { now := seen + {id.text}; }
      }
    }

    method CheckSeal(i: nat, line: Line, previous: Text)
      requires line.Entry?
      modifies this
      ensures errors == [] <==> old(errors) == [] && Sealed(sha, line, previous)
    {
      if Lookup(line.unsigned, PREVIOUS) != Str(previous) { Error(WrongLink(i)); }
      var hexadecimal := false;
      if line.entryHash.Str? { hexadecimal := CheckDigest(line.entryHash.text); }
      if !hexadecimal { Error(InvalidEntryHash(i)); }
      if !Encodable(Canonical(Object(line.unsigned))) { Error(NotCanonicalizable(i)); }
      if line.entryHash != ExactHash(sha, line) { Error(WrongEntryHash(i)); }
    }

    /** One line: the hash the next one must link to, the ids seen, and the line itself when
        it was complete enough to keep. */
    method CheckLine(i: nat, line: Line, previous: Text, seen: set<Text>)
      returns (link: Text, now: set<Text>, kept: bool)
      modifies this
      ensures errors == [] <==>
              old(errors) == [] && LineOk(sha, runId, i, line, previous) && IdOf(line) !in seen
      ensures kept ==> line.Entry?
      ensures errors == [] ==> kept && Str(link) == line.entryHash && now == seen + {IdOf(line)}
    {
      link, now, kept := previous, seen, false;
      match line {
        case Unterminated => Error(MissingNewline(i));
        case Unreadable => Error(InvalidLine(i));
        case Entry(_, entryHash) =>
          var complete := CheckComplete(line);
          if !complete { Error(LacksFields(i)); return; }
          CheckLabels(i, line);
          now := CheckId(line, seen);
          CheckSeal(i, line, previous);
          if entryHash.Str? { link := entryHash.text; }
          kept := true;
      }
    }

    method CheckTotals(entries: seq<Line>, count: nat, final: Text)
      requires forall i :: 0 <= i < |entries| ==> entries[i].Entry?
      modifies this
      ensures errors == [] <==>
              old(errors) == [] && entries != [] && |entries| == count
              && entries[|entries| - 1].entryHash == Str(final)
    {
      if |entries| != count { Error(WrongEntryCount); }
      if entries == [] { Error(NoRecords); return; }
      if entries[|entries| - 1].entryHash != Str(final) { Error(WrongFinalHash); }
    }

    /** `_verify_audit` against the manifest's entry count and final hash. */
    method VerifyAudit(file: seq<Line>, count: nat, final: Text) returns (entries: seq<Line>)
      modifies this
      ensures errors == [] <==> old(errors) == [] && Accepted(sha, runId, file, count, final)
      ensures errors == [] ==> entries == file
    {
      hide IdOf, LinesOk, DistinctIds, Ids, LineOk;
      var previous: Text, seen, i := seq(64, _ => 0x30), {}, 0;
      assert previous == GENESIS;
      entries := [];
      NoLines(sha, runId, file);
      while i < |file|
        invariant 0 <= i <= |file|
        invariant forall k :: 0 <= k < |entries| ==> entries[k].Entry?
        invariant errors == [] <==> old(errors) == [] && LinesOk(sha, runId, file, i) && DistinctIds(file, i)
        invariant errors == [] ==> previous == HashBefore(file, i) && entries == file[..i] && seen == Ids(file, i)
        invariant errors == [] && i > 0 ==> file[i - 1].Entry? && file[i - 1].entryHash == Str(previous)
      {
        var kept;
        LineStep(sha, runId, file, i);
        previous, seen, kept := CheckLine(i, file[i], previous, seen);
        if kept { entries := entries + [file[i]]; }
        i := i + 1;
      }
      CheckTotals(entries, count, final);
      assert file[..|file|] == file;
    }
  }

  function Ids(file: seq<Line>, n: nat): set<Text>
    requires n <= |file|
  {
    set k | 0 <= k < n :: IdOf(file[k])
  }

  lemma NoLines(sha: Sha, runId: Text, file: seq<Line>)
    ensures LinesOk(sha, runId, file, 0) && DistinctIds(file, 0) && Ids(file, 0) == {}
  {}

  lemma LineStep(sha: Sha, runId: Text, file: seq<Line>, i: nat)
    requires i < |file|
    ensures LinesOk(sha, runId, file, i + 1)
            <==> LinesOk(sha, runId, file, i) && LineOk(sha, runId, i, file[i], HashBefore(file, i))
    ensures DistinctIds(file, i + 1) <==> DistinctIds(file, i) && IdOf(file[i]) !in Ids(file, i)
    ensures Ids(file, i + 1) == Ids(file, i) + {IdOf(file[i])}
  {
    hide LineOk, HashBefore, IdOf;
  }

  /* ---- The reader's acceptance implies the writer's, and repairs its blind spot ---- */

  lemma SealIsHash(sha: Sha, line: Line, previous: Text)
    requires line.Entry? && Sealed(sha, line, previous)
    ensures line.entryHash == Str(EntryHash(sha, line))
  {
    NothingReplaced(Canonical(Object(line.unsigned)));
  }

  lemma SameLinks(sha: Sha, runId: Text, file: seq<Line>, i: nat)
    requires LinesOk(sha, runId, file, |file|) && i <= |file|
    ensures HashBefore(file, i) == LinkBefore(sha, file, i)
  {
    if i > 0 {
      assert LineOk(sha, runId, i - 1, file[i - 1], HashBefore(file, i - 1));
      SealIsHash(sha, file[i - 1], HashBefore(file, i - 1));
    }
  }

  /** Whatever the strict reader accepts, `AuditLog.verify` accepts. */
  lemma AcceptedIsChained(sha: Sha, runId: Text, file: seq<Line>, count: nat, final: Text)
    requires Accepted(sha, runId, file, count, final)
    ensures Chained(sha, file) && LinkBefore(sha, file, |file|) == final
  {
    SameLinks(sha, runId, file, |file|);
    forall i | 0 <= i < |file| ensures FaultAt(sha, file, i) == NoFault {
      OkLinePasses(sha, runId, file, i);
    }
  }

  lemma OkLinePasses(sha: Sha, runId: Text, file: seq<Line>, i: nat)
    requires LinesOk(sha, runId, file, |file|) && i < |file|
    ensures FaultAt(sha, file, i) == NoFault
  {
    SameLinks(sha, runId, file, i);
    LinkedLinePasses(sha, runId, file, i);
  }

  lemma LinkedLinePasses(sha: Sha, runId: Text, file: seq<Line>, i: nat)
    requires i < |file| && LineOk(sha, runId, i, file[i], LinkBefore(sha, file, i))
    ensures FaultAt(sha, file, i) == NoFault
  {
    SealIsHash(sha, file[i], LinkBefore(sha, file, i));
  }

  /** Two different logs the strict reader accepts under one final hash hold a SHA-256
      collision: a record of each whose signed bytes differ and have one digest. */
  lemma AcceptedTamperIsCollision(sha: Sha, runId: Text, a: seq<Line>, b: seq<Line>, final: Text)
      returns (i: nat, j: nat)
    requires Readable(a) && Readable(b) && a != b
    requires Accepted(sha, runId, a, |a|, final) && Accepted(sha, runId, b, |b|, final)
    ensures i < |a| && j < |b| && a[i].Entry? && b[j].Entry?
    ensures SignedBytes(a[i]) != SignedBytes(b[j]) && sha(SignedBytes(a[i])) == sha(SignedBytes(b[j]))
  {
    AcceptedIsChained(sha, runId, a, |a|, final);
    AcceptedIsChained(sha, runId, b, |b|, final);
    i, j := TamperLeavesRepeatedHash(sha, a, b);
    assert LineOk(sha, runId, i, a[i], HashBefore(a, i));
    assert LineOk(sha, runId, j, b[j], HashBefore(b, j));
  }

  /* ---- What the writer appends, the reader accepts ---- */

  predicate HexSha(sha: Sha, line: Line)
    requires line.Entry?
  {
    IsDigest(EntryHash(sha, line))
  }

  lemma BaseLabels(runId: Text, sequence: nat, previous: Text, s: Stamp)
    ensures Lookup(Base(runId, sequence, previous, s), SCHEMA) == IntJson(1)
    ensures Lookup(Base(runId, sequence, previous, s), RUN_ID) == Str(runId)
    ensures Lookup(Base(runId, sequence, previous, s), EVENT_ID) == Str(s.eventId)
    ensures Lookup(Base(runId, sequence, previous, s), EVENT_TYPE) == Str(s.eventType)
  {
    hide Base, Lookup;
    BaseCarries(runId, sequence, previous, s);
  }

  lemma BaseIsComplete(runId: Text, sequence: nat, previous: Text, s: Stamp, hash: Json)
    requires hash != Null
    ensures Complete(Entry(Base(runId, sequence, previous, s), hash))
  {
    var b := Base(runId, sequence, previous, s);
    forall i | 0 <= i < |KEYS| ensures Has(b, KEYS[i]) {
      assert b[i].key == KEYS[i];
    }
  }

  lemma AppendedIsOk(sha: Sha, runId: Text, i: nat, previous: Text, s: Stamp)
    requires s.eventId != [] && s.eventType != []
    requires var line := Appended(sha, Base(runId, i + 1, previous, s)); Faithful(line) && HexSha(sha, line)
    ensures LineOk(sha, runId, i, Appended(sha, Base(runId, i + 1, previous, s)), previous)
  {
    var b := Base(runId, i + 1, previous, s);
    BaseFields(runId, i + 1, previous, s);
    BaseLabels(runId, i + 1, previous, s);
    BaseIsComplete(runId, i + 1, previous, s, Appended(sha, b).entryHash);
    NothingReplaced(Canonical(Object(b)));
  }

  /** An empty log, or one that passes with its own count and final hash. */
  predicate Sound(sha: Sha, runId: Text, file: seq<Line>) {
    file != [] ==> Accepted(sha, runId, file, |file|, LinkBefore(sha, file, |file|))
  }

  /** A log the strict reader accepts is still accepted, with the new count and final
      hash, after `append` adds a record whose event id is new. */
  lemma AppendKeepsAccepted(sha: Sha, runId: Text, file: seq<Line>, s: Stamp)
    requires Sound(sha, runId, file)
    requires s.eventId != [] && s.eventType != [] && s.eventId !in Ids(file, |file|)
    requires Faithful(Next(sha, runId, file, s)) && HexSha(sha, Next(sha, runId, file, s))
    ensures Sound(sha, runId, file + [Next(sha, runId, file, s)])
  {
    var line, longer := Next(sha, runId, file, s), file + [Next(sha, runId, file, s)];
    SameLinks(sha, runId, file, |file|);
    NextIsOk(sha, runId, file, s);
    NextId(sha, runId, file, s);
    ExtendLines(sha, runId, file, line);
    ExtendIds(file, line);
    SameLinks(sha, runId, longer, |longer|);
  }

  lemma NextIsOk(sha: Sha, runId: Text, file: seq<Line>, s: Stamp)
    requires HashBefore(file, |file|) == LinkBefore(sha, file, |file|)
    requires s.eventId != [] && s.eventType != []
    requires Faithful(Next(sha, runId, file, s)) && HexSha(sha, Next(sha, runId, file, s))
    ensures LineOk(sha, runId, |file|, Next(sha, runId, file, s), HashBefore(file, |file|))
  {
    AppendedIsOk(sha, runId, |file|, HashBefore(file, |file|), s);
  }

  lemma NextId(sha: Sha, runId: Text, file: seq<Line>, s: Stamp)
    ensures IdOf(Next(sha, runId, file, s)) == s.eventId
  {
    BaseLabels(runId, |file| + 1, LinkBefore(sha, file, |file|), s);
  }

  lemma HashOfPrefix(file: seq<Line>, line: Line, i: nat)
    requires i <= |file|
    ensures HashBefore(file + [line], i) == HashBefore(file, i)
  {}

  lemma ExtendLines(sha: Sha, runId: Text, file: seq<Line>, line: Line)
    requires LinesOk(sha, runId, file, |file|)
    requires LineOk(sha, runId, |file|, line, HashBefore(file, |file|))
    ensures LinesOk(sha, runId, file + [line], |file| + 1)
  {
    hide LineOk, HashBefore;
    var longer := file + [line];
    forall i | 0 <= i < |longer| ensures LineOk(sha, runId, i, longer[i], HashBefore(longer, i)) {
      HashOfPrefix(file, line, i);
    }
  }

  lemma ExtendIds(file: seq<Line>, line: Line)
    requires DistinctIds(file, |file|) && IdOf(line) !in Ids(file, |file|)
    ensures DistinctIds(file + [line], |file| + 1)
  {}

  /* ---- Whole runs of the writer ---- */

  /** The file after a run of appends from an empty log. */
  function Written(sha: Sha, runId: Text, stamps: seq<Stamp>): (file: seq<Line>)
    ensures |file| == |stamps|
  {
    if stamps == [] then []
    else
      var before := Written(sha, runId, stamps[..|stamps| - 1]);
      before + [Next(sha, runId, before, stamps[|stamps| - 1])]
  }

  /** Named, each under its own event id. */
  predicate Stamped(stamps: seq<Stamp>) {
    && (forall i :: 0 <= i < |stamps| ==> stamps[i].eventId != [] && stamps[i].eventType != [])
    && (forall i, j :: 0 <= i < j < |stamps| ==> stamps[i].eventId != stamps[j].eventId)
  }

  predicate AllFaithful(sha: Sha, file: seq<Line>) {
    forall i :: 0 <= i < |file| ==> Faithful(file[i]) && HexSha(sha, file[i])
  }

  lemma {:induction false} IdsWritten(sha: Sha, runId: Text, stamps: seq<Stamp>)
    ensures forall i :: 0 <= i < |stamps| ==> IdOf(Written(sha, runId, stamps)[i]) == stamps[i].eventId
  {
    if stamps != [] {
      var n := |stamps| - 1;
      IdsWritten(sha, runId, stamps[..n]);
      NextId(sha, runId, Written(sha, runId, stamps[..n]), stamps[n]);
    }
  }

  /** Whatever is appended to an empty log, each record under its own event id, the strict
      reader accepts the file with its own count and final hash. */
  lemma {:induction false} AppendsAreAccepted(sha: Sha, runId: Text, stamps: seq<Stamp>)
    requires Stamped(stamps) && AllFaithful(sha, Written(sha, runId, stamps))
    ensures Sound(sha, runId, Written(sha, runId, stamps))
  {
    hide Accepted, HexSha, Faithful, IdOf;
    if stamps != [] {
      var n := |stamps| - 1;
      var before := Written(sha, runId, stamps[..n]);
      assert Written(sha, runId, stamps)[..n] == before;
      assert forall i :: 0 <= i < n ==> before[i] == Written(sha, runId, stamps)[i];
      AppendsAreAccepted(sha, runId, stamps[..n]);
      IdsWritten(sha, runId, stamps[..n]);
      assert Written(sha, runId, stamps)[n] == Next(sha, runId, before, stamps[n]);
      AppendKeepsAccepted(sha, runId, before, stamps[n]);
    }
  }
}
