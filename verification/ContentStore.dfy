/** The content-addressed directory of tool outputs: a map from names to bytes, changed by
    exclusive creation, writing, hard-linking and unlinking.  Installers of any number of
    threads and processes interleave between those steps. */
module ContentStore {
  import opened Wrappers
  import opened Utf8
  import opened CanonicalJson
  import opened AuditChain

  /** A destination (`<digest><suffix>`) or a temporary (`.<destination>.<token>.tmp`). */
  datatype Name = Blob(name: Text) | Temporary(name: Text, token: nat)

  type Files = map<Name, Bytes>

  /** `.json` or `.txt`, decided from the bytes alone. */
  type Format = Bytes -> Text

  function Destination(sha: Sha, format: Format, content: Bytes): Text {
    sha(content) + format(content)
  }

  datatype Result = Installed | Conflicting | Disappeared | Errored

  /* ---- One installer, undisturbed ---- */

  class Directory {
    const sha: Sha
    const format: Format
    var files: Files

    constructor (sha: Sha, format: Format, files: Files)
      ensures this.sha == sha && this.format == format && this.files == files
    {
      this.sha, this.format, this.files := sha, format, files;
    }

    /** `_write_all`: at most `chunk + 1` bytes at a time. */
    method WriteAll(temporary: Name, content: Bytes, chunk: nat)
      requires temporary in files && files[temporary] == []
      modifies this
      ensures files == old(files)[temporary := content]
    {
      var offset := 0;
      while offset < |content|
        invariant 0 <= offset <= |content|
        invariant files == old(files)[temporary := content[..offset]]
      {
        var written := if offset + chunk + 1 <= |content| then chunk + 1 else |content| - offset;
        assert content[..offset] + content[offset..offset + written] == content[..offset + written];
        files := files[temporary := files[temporary] + content[offset..offset + written]];
        offset := offset + written;
      }
      assert content[..|content|] == content;
    }

    /** `_install_content_addressed` for a writer that meets no input or output error. */
    method Install(name: Text, content: Bytes, token: nat, chunk: nat) returns (r: Result)
      modifies this
      ensures Temporary(name, token) in old(files) ==> r == Errored && files == old(files)
      ensures Temporary(name, token) !in old(files) ==>
                if Blob(name) !in old(files) then r == Installed && files == old(files)[Blob(name) := content]
                else files == old(files) && r == if old(files)[Blob(name)] == content then Installed else Conflicting
    {
      var temporary := Temporary(name, token);
      if temporary in files { return Errored; }
      files := files[temporary := []];
      WriteAll(temporary, content, chunk);
      if Blob(name) in files {
        r := if files[Blob(name)] == content then Installed else Conflicting;
      } else {
        files, r := files[Blob(name) := files[temporary]], Installed;
      }
      files := files - {temporary};
    }

    /** `_persist_tool_output`: nothing is written for text UTF-8 cannot carry or for a
        claimed digest that is not the digest of the bytes. */
    method Persist(output: Text, claimed: Text, token: nat, chunk: nat) returns (r: Option<Text>)
      modifies this
      ensures var name := Destination(sha, format, Encode(output));
              && (r == None || r == Some(name))
              && (r.Some? <==> && Encodable(output) && Claims(claimed, sha(Encode(output)))
                               && Temporary(name, token) !in old(files)
                               && (Blob(name) in old(files) ==> old(files)[Blob(name)] == Encode(output)))
              && files == if r.None? then old(files) else old(files)[Blob(name) := Encode(output)]
    {
      if !Encodable(output) { return None; }
      var content := Encode(output);
      var digest := sha(content);
      var claims := CheckClaim(claimed, digest);
      if !claims { return None; }
      var name := digest + format(content);
      var installed := Install(name, content, token, chunk);
      r := if installed == Installed then Some(name) else None;
    }
  }

  predicate HexCharacter(c: CodePoint) {
    0x30 <= c < 0x3A || 0x41 <= c < 0x47 || 0x61 <= c < 0x67
  }

  function Lower(t: Text): Text {
    seq(|t|, i requires 0 <= i < |t| => if 0x41 <= t[i] < 0x47 then (t[i] + 0x20) as CodePoint else t[i])
  }

  /** A result's digest names the bytes when it is 64 hexadecimal characters of any case. */
  predicate Claims(claimed: Text, digest: Text) {
    |claimed| == 64 && (forall i :: 0 <= i < 64 ==> HexCharacter(claimed[i])) && Lower(claimed) == digest
  }

  /** `Claims`, character by character. */
  method CheckClaim(claimed: Text, digest: Text) returns (ok: bool)
    ensures ok <==> Claims(claimed, digest)
  {
    if |claimed| != 64 || |digest| != 64 { return false; }
    var k := 0;
    while k < 64
      invariant 0 <= k <= 64
      invariant forall i :: 0 <= i < k ==> HexCharacter(claimed[i]) && Lower(claimed)[i] == digest[i]
    {
      var c := claimed[k];
      AnyCase(c);
      if c in FromString("ABCDEF") {
        if c + 0x20 != digest[k] { return false; }
      } else if c !in FromString("0123456789abcdef") || c != digest[k] {
        return false;
      }
      k := k + 1;
    }
    assert Lower(claimed) == digest;
    return true;
  }

  lemma AnyCase(c: CodePoint)
    ensures c in FromString("ABCDEF") <==> 0x41 <= c < 0x47
    ensures c in FromString("0123456789abcdef") <==> 0x30 <= c < 0x3A || 0x61 <= c < 0x67
  {
    HexDigitsAre(c);
    if 0x41 <= c < 0x47 { assert FromString("ABCDEF")[c - 0x41] == c; }
  }

  /* ---- Installers interleaved step by step ---- */

  datatype Job = Job(name: Text, content: Bytes, token: nat)
  {
    function Temp(): Name { Temporary(name, token) }
  }

  datatype Phase =
    | Waiting
    | Writing(offset: nat)
    | Linking
    | Comparing
    | Unlinking(result: Result)
    | Done(result: Result)

  predicate Active(p: Phase) {
    !p.Waiting? && !p.Done?
  }

  datatype World = World(files: Files, phases: seq<Phase>)

  /** One step of one installer; the operating system may fail it anywhere. */
  datatype Turn = Turn(installer: nat, bytes: nat, fails: bool)

  function Step(jobs: seq<Job>, w: World, turn: Turn): (next: World)
    requires |w.phases| == |jobs|
    ensures |next.phases| == |jobs|
  {
    if turn.installer < |jobs| then
      var (files, phase) := Advance(jobs[turn.installer], w.files, w.phases[turn.installer], turn);
      World(files, w.phases[turn.installer := phase])
    else w
  }

  function Advance(job: Job, files: Files, phase: Phase, turn: Turn): (Files, Phase) {
    match phase
    case Waiting =>
      if turn.fails || job.Temp() in files then (files, Done(Errored))
      else (files[job.Temp() := []], Writing(0))
    case Writing(offset) =>
      if turn.fails then (files, Unlinking(Errored))
      else if offset >= |job.content| then (files, Linking)
      else
        var upto := if offset + turn.bytes + 1 <= |job.content| then offset + turn.bytes + 1 else |job.content|;
        (files[job.Temp() := job.content[..upto]], Writing(upto))
    case Linking =>
      if turn.fails then (files, Unlinking(Errored))
      else if Blob(job.name) in files then (files, Comparing)
      else if job.Temp() in files then (files[Blob(job.name) := files[job.Temp()]], Unlinking(Installed))
      else (files, Unlinking(Errored))
    case Comparing =>
      if turn.fails then (files, Unlinking(Errored))
      else if Blob(job.name) !in files then (files, Unlinking(Disappeared))
      else (files, Unlinking(if files[Blob(job.name)] == job.content then Installed else Conflicting))
    case Unlinking(result) => (files - {job.Temp()}, Done(result))
    case Done(_) => (files, phase)
  }

  function Run(jobs: seq<Job>, w: World, turns: seq<Turn>): (last: World)
    requires |w.phases| == |jobs|
    ensures |last.phases| == |jobs|
  {
    if turns == [] then w
    else Step(jobs, Run(jobs, w, turns[..|turns| - 1]), turns[|turns| - 1])
  }

  function Begin(jobs: seq<Job>, files: Files): (w: World)
    ensures |w.phases| == |jobs|
  {
    World(files, seq(|jobs|, _ => Waiting))
  }

  /** Every job is stored under the name its own bytes hash to. */
  predicate Addressed(sha: Sha, format: Format, jobs: seq<Job>) {
    forall i :: 0 <= i < |jobs| ==> jobs[i].name == Destination(sha, format, jobs[i].content)
  }

  /** What holds between the first state of a run and every later one. */
  ghost predicate Invariant(sha: Sha, format: Format, jobs: seq<Job>, before: Files, w: World) {
    && |w.phases| == |jobs|
    && Kept(before, w.files)
    && (forall n: Name :: n in w.files && n !in before ==> NewFile(sha, format, jobs, w, n))
    && (forall i :: 0 <= i < |jobs| ==> Progress(before, w.files, jobs[i], w.phases[i]))
    && Exclusive(jobs, w.phases)
  }

  ghost predicate Kept(before: Files, after: Files) {
    forall n: Name :: n in before ==> n in after && after[n] == before[n]
  }

  /** The content is the job's, under the job's name. */
  predicate StoredBy(job: Job, name: Text, content: Bytes) {
    job.name == name && job.content == content
  }

  ghost predicate NewFile(sha: Sha, format: Format, jobs: seq<Job>, w: World, n: Name)
    requires n in w.files && |w.phases| == |jobs|
  {
    match n
    case Blob(name) => exists k :: 0 <= k < |jobs| && StoredBy(jobs[k], name, w.files[n])
    case Temporary(_, _) => exists i :: 0 <= i < |jobs| && jobs[i].Temp() == n && Active(w.phases[i])
  }

  predicate Progress(before: Files, files: Files, job: Job, phase: Phase) {
    && (Active(phase) ==> job.Temp() in files && job.Temp() !in before)
    && (phase.Writing? ==> phase.offset <= |job.content| && job.Temp() in files
                           && files[job.Temp()] == job.content[..phase.offset])
    && (phase.Linking? ==> job.Temp() in files && files[job.Temp()] == job.content)
    && (phase.Comparing? ==> Blob(job.name) in files)
    && (phase.Unlinking? || phase.Done? ==> Truthful(files, job, phase.result))
  }

  predicate Truthful(files: Files, job: Job, result: Result) {
    && result != Disappeared
    && (result == Installed ==> Blob(job.name) in files && files[Blob(job.name)] == job.content)
    && (result == Conflicting ==> Blob(job.name) in files && files[Blob(job.name)] != job.content)
  }

  /** No two running installers hold one temporary. */
  predicate Exclusive(jobs: seq<Job>, phases: seq<Phase>)
    requires |phases| == |jobs|
  {
    forall i, j :: 0 <= i < j < |jobs| && Active(phases[i]) && Active(phases[j]) ==>
      jobs[i].Temp() != jobs[j].Temp()
  }

  lemma OwnProgress(before: Files, files: Files, job: Job, phase: Phase, turn: Turn)
    requires Kept(before, files) && Progress(before, files, job, phase)
    ensures var (after, next) := Advance(job, files, phase, turn);
            Kept(before, after) && Progress(before, after, job, next)
  {}

  /** What one step may do to the files: touch its own temporary, or link a new blob. */
  ghost predicate Touches(files: Files, after: Files, job: Job) {
    forall n: Name :: n != job.Temp() ==>
      && (n in files ==> n in after && after[n] == files[n])
      && (n in after && n !in files ==> n == Blob(job.name) && job.Temp() in files && after[n] == files[job.Temp()])
  }

  lemma StepTouches(files: Files, job: Job, phase: Phase, turn: Turn)
    ensures Touches(files, Advance(job, files, phase, turn).0, job)
  {}

  lemma OtherProgress(before: Files, files: Files, after: Files, job: Job, other: Job, phase: Phase)
    requires Progress(before, files, other, phase) && Touches(files, after, job)
    requires Active(phase) ==> other.Temp() != job.Temp()
    ensures Progress(before, after, other, phase)
  {}

  /** An installer that changes anything holds its own temporary. */
  lemma OthersApart(jobs: seq<Job>, before: Files, w: World, turn: Turn, k: nat)
    requires |w.phases| == |jobs| && k < |jobs| && turn.installer < |jobs| && k != turn.installer
    requires Exclusive(jobs, w.phases) && Active(w.phases[k])
    requires Progress(before, w.files, jobs[k], w.phases[k])
    ensures var i := turn.installer;
            jobs[k].Temp() != jobs[i].Temp()
            || (Advance(jobs[i], w.files, w.phases[i], turn).0 == w.files
                && !Active(Advance(jobs[i], w.files, w.phases[i], turn).1))
  {}

  lemma OthersProgress(jobs: seq<Job>, before: Files, w: World, turn: Turn, k: nat)
    requires |w.phases| == |jobs| && k < |jobs| && turn.installer < |jobs| && k != turn.installer
    requires Exclusive(jobs, w.phases) && Progress(before, w.files, jobs[k], w.phases[k])
    ensures Progress(before, Step(jobs, w, turn).files, jobs[k], w.phases[k])
  {
    var i := turn.installer;
    var after := Step(jobs, w, turn).files;
    StepTouches(w.files, jobs[i], w.phases[i], turn);
    if Active(w.phases[k]) { OthersApart(jobs, before, w, turn, k); }
    if after != w.files { OtherProgress(before, w.files, after, jobs[i], jobs[k], w.phases[k]); }
  }

  lemma StaysExclusive(jobs: seq<Job>, before: Files, w: World, turn: Turn)
    requires |w.phases| == |jobs| && turn.installer < |jobs| && Exclusive(jobs, w.phases)
    requires forall k :: 0 <= k < |jobs| ==> Progress(before, w.files, jobs[k], w.phases[k])
    ensures Exclusive(jobs, Step(jobs, w, turn).phases)
  {
    var next := Step(jobs, w, turn);
    forall i, j | 0 <= i < j < |jobs| && Active(next.phases[i]) && Active(next.phases[j])
      ensures jobs[i].Temp() != jobs[j].Temp()
    {
      if i == turn.installer { OthersApart(jobs, before, w, turn, j); }
      if j == turn.installer { OthersApart(jobs, before, w, turn, i); }
    }
  }

  lemma NewFilesStay(sha: Sha, format: Format, jobs: seq<Job>, before: Files, w: World, turn: Turn, n: Name)
    requires Addressed(sha, format, jobs) && Invariant(sha, format, jobs, before, w)
    requires turn.installer < |jobs| && n in Step(jobs, w, turn).files && n !in before
    ensures NewFile(sha, format, jobs, Step(jobs, w, turn), n)
  {
    var i, next := turn.installer, Step(jobs, w, turn);
    var job := jobs[i];
    StepTouches(w.files, job, w.phases[i], turn);
    assert Progress(before, w.files, job, w.phases[i]);
    if n.Blob? {
      if n in w.files {
        assert NewFile(sha, format, jobs, w, n);
        var k :| 0 <= k < |jobs| && StoredBy(jobs[k], n.name, w.files[n]);
        assert StoredBy(jobs[k], n.name, next.files[n]);
      } else {
        assert StoredBy(job, n.name, next.files[n]);
      }
    } else if n in w.files {
      assert NewFile(sha, format, jobs, w, n);
      var k :| 0 <= k < |jobs| && jobs[k].Temp() == n && Active(w.phases[k]);
      if k != i { OthersApart(jobs, before, w, turn, k); }
      assert Active(next.phases[k]);
    } else {
      assert n == job.Temp() && Active(next.phases[i]);
    }
  }

  /** Every step of every installer keeps the invariant. */
  lemma StepKeeps(sha: Sha, format: Format, jobs: seq<Job>, before: Files, w: World, turn: Turn)
    requires Addressed(sha, format, jobs) && Invariant(sha, format, jobs, before, w)
    ensures Invariant(sha, format, jobs, before, Step(jobs, w, turn))
  {
    var i := turn.installer;
    if i < |jobs| {
      var next := Step(jobs, w, turn);
      OwnProgress(before, w.files, jobs[i], w.phases[i], turn);
      forall k | 0 <= k < |jobs| ensures Progress(before, next.files, jobs[k], next.phases[k]) {
        if k != i { OthersProgress(jobs, before, w, turn, k); }
      }
      forall n: Name | n in next.files && n !in before ensures NewFile(sha, format, jobs, next, n) {
        NewFilesStay(sha, format, jobs, before, w, turn, n);
      }
      StaysExclusive(jobs, before, w, turn);
    }
  }

  lemma {:induction false} RunKeeps(sha: Sha, format: Format, jobs: seq<Job>, before: Files, turns: seq<Turn>)
    requires Addressed(sha, format, jobs)
    ensures Invariant(sha, format, jobs, before, Run(jobs, Begin(jobs, before), turns))
    decreases |turns|
  {
    if turns != [] {
      RunKeeps(sha, format, jobs, before, turns[..|turns| - 1]);
      StepKeeps(sha, format, jobs, before, Run(jobs, Begin(jobs, before), turns[..|turns| - 1]), turns[|turns| - 1]);
    }
  }

  /** A destination once linked never changes, whatever any installer does later. */
  lemma {:induction false} OnceLinkedNeverChanges(jobs: seq<Job>, w: World, turns: seq<Turn>, name: Text)
    requires |w.phases| == |jobs| && Blob(name) in w.files
    ensures var last := Run(jobs, w, turns);
            Blob(name) in last.files && last.files[Blob(name)] == w.files[Blob(name)]
    decreases |turns|
  {
    if turns != [] {
      OnceLinkedNeverChanges(jobs, w, turns[..|turns| - 1], name);
      var earlier, turn := Run(jobs, w, turns[..|turns| - 1]), turns[|turns| - 1];
      if turn.installer < |jobs| {
        StepTouches(earlier.files, jobs[turn.installer], earlier.phases[turn.installer], turn);
      }
    }
  }

  /** In every interleaving: nothing that was there is lost or overwritten, every new blob
      holds some installer's bytes under the name its bytes hash to, an installer that reports success finds
      its own bytes at its destination, and one that reports a conflict finds others. */
  lemma InstallIsRaceSafe(sha: Sha, format: Format, jobs: seq<Job>, before: Files, turns: seq<Turn>)
    requires Addressed(sha, format, jobs)
    ensures var last := Run(jobs, Begin(jobs, before), turns);
            && Kept(before, last.files)
            && (forall name :: Blob(name) in last.files && Blob(name) !in before ==>
                  name == Destination(sha, format, last.files[Blob(name)]))
            && (forall i :: 0 <= i < |jobs| && last.phases[i].Done? ==>
                  Truthful(last.files, jobs[i], last.phases[i].result))
  {
    RunKeeps(sha, format, jobs, before, turns);
    var last := Run(jobs, Begin(jobs, before), turns);
    forall name | Blob(name) in last.files && Blob(name) !in before
      ensures name == Destination(sha, format, last.files[Blob(name)])
    {
      assert NewFile(sha, format, jobs, last, Blob(name));
      var k :| 0 <= k < |jobs| && StoredBy(jobs[k], name, last.files[Blob(name)]);
    }
  }

  /** Each installer has a temporary of its own, that no file has taken. */
  predicate OwnTokens(jobs: seq<Job>, before: Files) {
    && (forall i :: 0 <= i < |jobs| ==> jobs[i].Temp() !in before)
    && (forall i, j :: 0 <= i < j < |jobs| ==> jobs[i].Temp() != jobs[j].Temp())
  }

  predicate NoneErrored(w: World) {
    forall i :: 0 <= i < |w.phases| && (w.phases[i].Unlinking? || w.phases[i].Done?) ==> w.phases[i].result != Errored
  }

  lemma OwnTokenIsFree(sha: Sha, format: Format, jobs: seq<Job>, before: Files, w: World, i: nat)
    requires Invariant(sha, format, jobs, before, w) && OwnTokens(jobs, before)
    requires i < |jobs| && w.phases[i].Waiting?
    ensures jobs[i].Temp() !in w.files
  {
    assert forall k :: 0 <= k < |jobs| && Active(w.phases[k]) ==> jobs[k].Temp() != jobs[i].Temp();
  }

  /** When the operating system fails no step, no installer errs: in every interleaving each
      one that has finished found its own bytes at its destination, or others. */
  lemma {:induction false} NoFailureNoError(sha: Sha, format: Format, jobs: seq<Job>, before: Files, turns: seq<Turn>)
    requires Addressed(sha, format, jobs) && OwnTokens(jobs, before)
    requires forall k :: 0 <= k < |turns| ==> !turns[k].fails
    ensures var last := Run(jobs, Begin(jobs, before), turns);
            && NoneErrored(last)
            && forall i :: 0 <= i < |jobs| && last.phases[i].Done? ==>
                 && Blob(jobs[i].name) in last.files
                 && last.phases[i].result
                    == if last.files[Blob(jobs[i].name)] == jobs[i].content then Installed else Conflicting
    decreases |turns|
  {
    RunKeeps(sha, format, jobs, before, turns);
    if turns != [] {
      var earlier, turn := turns[..|turns| - 1], turns[|turns| - 1];
      NoFailureNoError(sha, format, jobs, before, earlier);
      RunKeeps(sha, format, jobs, before, earlier);
      var w, i := Run(jobs, Begin(jobs, before), earlier), turn.installer;
      if i < |jobs| {
        assert Progress(before, w.files, jobs[i], w.phases[i]);
        if w.phases[i].Waiting? { OwnTokenIsFree(sha, format, jobs, before, w, i); }
      }
    }
    var last := Run(jobs, Begin(jobs, before), turns);
    forall i | 0 <= i < |jobs| && last.phases[i].Done? ensures Truthful(last.files, jobs[i], last.phases[i].result) {
      assert Progress(before, last.files, jobs[i], last.phases[i]);
    }
  }

  /** The files and the result of an install that nothing disturbs. */
  function Settled(before: Files, job: Job): (Files, Result) {
    if Blob(job.name) !in before then (before[Blob(job.name) := job.content], Installed)
    else (before, if before[Blob(job.name)] == job.content then Installed else Conflicting)
  }

  predicate Alone(before: Files, job: Job, files: Files, phase: Phase) {
    match phase
    case Waiting => files == before
    case Writing(offset) => offset <= |job.content| && files == before[job.Temp() := job.content[..offset]]
    case Linking => files == before[job.Temp() := job.content]
    case Comparing => files == before[job.Temp() := job.content] && Blob(job.name) in before
    case Unlinking(result) => files == Settled(before, job).0[job.Temp() := job.content] && result == Settled(before, job).1
    case Done(result) => (files, result) == Settled(before, job)
  }

  /** The steps of one installer, alone and unfailing, come to what `Install` does. */
  lemma {:induction false} AloneIsInstall(job: Job, before: Files, turns: seq<Turn>)
    requires job.Temp() !in before && forall k :: 0 <= k < |turns| ==> !turns[k].fails
    ensures var last := Run([job], Begin([job], before), turns);
            Alone(before, job, last.files, last.phases[0])
    decreases |turns|
  {
    if turns != [] {
      AloneIsInstall(job, before, turns[..|turns| - 1]);
      var w := Run([job], Begin([job], before), turns[..|turns| - 1]);
      AloneAdvances(before, job, w.files, w.phases[0], turns[|turns| - 1]);
    }
  }

  lemma AloneAdvances(before: Files, job: Job, files: Files, phase: Phase, turn: Turn)
    requires job.Temp() !in before && Alone(before, job, files, phase) && !turn.fails
    ensures var (after, next) := Advance(job, files, phase, turn); Alone(before, job, after, next)
  {
    match phase {
      case Linking => assert job.content == files[job.Temp()];
      case Unlinking(result) =>
        assert Settled(before, job).0[job.Temp() := job.content] - {job.Temp()} == Settled(before, job).0;
      case Writing(offset) => assert job.content[..|job.content|] == job.content;
      case _ =>
    }
  }

  /** Once every installer has finished, the temporaries are those that were there before. */
  lemma NoTemporaryRemains(sha: Sha, format: Format, jobs: seq<Job>, before: Files, turns: seq<Turn>, n: Name)
    requires Addressed(sha, format, jobs) && n.Temporary?
    requires forall i :: 0 <= i < |jobs| ==> Run(jobs, Begin(jobs, before), turns).phases[i].Done?
    ensures n in Run(jobs, Begin(jobs, before), turns).files <==> n in before
  {
    RunKeeps(sha, format, jobs, before, turns);
    var last := Run(jobs, Begin(jobs, before), turns);
    assert n in last.files && n !in before ==> NewFile(sha, format, jobs, last, n);
  }

  /** An installer only conflicts with a file that was there before the run, or with another
      installer of the run whose different bytes have the same name: one digest and suffix. */
  lemma ConflictIsForeignOrCollision(sha: Sha, format: Format, jobs: seq<Job>, before: Files,
                                     turns: seq<Turn>, i: nat)
    requires Addressed(sha, format, jobs) && i < |jobs|
    requires Run(jobs, Begin(jobs, before), turns).phases[i] == Done(Conflicting)
    ensures Blob(jobs[i].name) in before
            || exists k :: 0 <= k < |jobs| && jobs[k].name == jobs[i].name && jobs[k].content != jobs[i].content
  {
    RunKeeps(sha, format, jobs, before, turns);
    var last := Run(jobs, Begin(jobs, before), turns);
    assert Progress(before, last.files, jobs[i], last.phases[i]);
    var n := Blob(jobs[i].name);
    if n !in before {
      assert NewFile(sha, format, jobs, last, n);
      var k :| 0 <= k < |jobs| && StoredBy(jobs[k], jobs[i].name, last.files[n]);
    }
  }
}
