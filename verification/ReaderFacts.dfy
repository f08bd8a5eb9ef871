/** What the strict reader's accumulators hold after one entry more. */
module ReaderFacts {
  import opened Wrappers
  import opened Utf8
  import opened Citations
  import opened Findings
  import opened Verdicts
  import opened Caps
  import opened Events
  import opened Occurrences
  import opened Transactions
  import opened Script
  import opened Lifecycle

  /* ---- Tool events by call id ---- */

  type Index = map<Text, nat>

  lemma {:induction false} StartIs(log: Log, id: Text)
    ensures match StartOf(log, id)
            case Some(p) => p < |log| && log[p].ToolStarted? && log[p].id == id
            case None => forall p :: 0 <= p < |log| && log[p].ToolStarted? ==> log[p].id != id
  {
    if log != [] { StartIs(log[..|log| - 1], id); }
  }

  lemma {:induction false} EndIs(log: Log, id: Text)
    ensures match EndOf(log, id)
            case Some(p) => p < |log| && log[p].ToolCompleted? && log[p].receipt.id == id
            case None => forall p :: 0 <= p < |log| && log[p].ToolCompleted? ==> log[p].receipt.id != id
  {
    if log != [] { EndIs(log[..|log| - 1], id); }
  }

  /** Each call id maps to its first start, or completion. */
  ghost predicate Starts(log: Log, started: Index) {
    forall id :: StartOf(log, id) == if id in started then Some(started[id]) else None
  }

  ghost predicate Ends(log: Log, completed: Index) {
    forall id :: EndOf(log, id) == if id in completed then Some(completed[id]) else None
  }

  /** Every tool event of the log names its call. */
  predicate ToolsNamed(log: Log) {
    forall p :: 0 <= p < |log| ==> (log[p].ToolStarted? ==> log[p].id != []) && (log[p].ToolCompleted? ==> log[p].receipt.id != [])
  }

  /** The entry at `i` repeats no id and names its call. */
  predicate ToolFresh(e: Event, started: Index, completed: Index) {
    && (e.ToolStarted? ==> e.id != [] && e.id !in started)
    && (e.ToolCompleted? ==> e.receipt.id != [] && e.receipt.id !in completed)
  }

  lemma ToolsOneMore(log: Log, i: nat, started: Index, completed: Index)
    requires i < |log| && Starts(log[..i], started) && Ends(log[..i], completed)
    ensures ToolIdsOnce(log[..i + 1]) && ToolsNamed(log[..i + 1])
       <==> ToolIdsOnce(log[..i]) && ToolsNamed(log[..i]) && ToolFresh(log[i], started, completed)
  {
    hide StartOf, EndOf;
    var now, e := log[..i], log[i];
    assert log[..i + 1] == now + [e];
    if e.ToolStarted? { StartIs(now, e.id); }
    if e.ToolCompleted? { EndIs(now, e.receipt.id); }
    OnceOneMore(now, e);
  }

  lemma OnceOneMore(now: Log, e: Event)
    ensures ToolIdsOnce(now + [e]) <==>
      && ToolIdsOnce(now)
      && (e.ToolStarted? ==> forall p :: 0 <= p < |now| && now[p].ToolStarted? ==> now[p].id != e.id)
      && (e.ToolCompleted? ==> forall p :: 0 <= p < |now| && now[p].ToolCompleted? ==> now[p].receipt.id != e.receipt.id)
    ensures ToolsNamed(now + [e]) <==>
      ToolsNamed(now) && (e.ToolStarted? ==> e.id != []) && (e.ToolCompleted? ==> e.receipt.id != [])
  {
    var longer := now + [e];
    assert forall p :: 0 <= p < |now| ==> longer[p] == now[p];
    assert longer[|now|] == e;
    if ToolIdsOnce(longer) {
      assert forall p :: 0 <= p < |now| ==>
        && (longer[p].ToolStarted? && longer[|now|].ToolStarted? ==> longer[p].id != longer[|now|].id)
        && (longer[p].ToolCompleted? && longer[|now|].ToolCompleted? ==> longer[p].receipt.id != longer[|now|].receipt.id);
    }
  }

  lemma StartsOneMore(log: Log, i: nat, started: Index)
    requires i < |log| && Starts(log[..i], started)
    ensures Starts(log[..i + 1],
              if log[i].ToolStarted? && log[i].id !in started then started[log[i].id := i] else started)
  {
    assert log[..i + 1][..i] == log[..i];
  }

  lemma EndsOneMore(log: Log, i: nat, completed: Index)
    requires i < |log| && Ends(log[..i], completed)
    ensures Ends(log[..i + 1],
              if log[i].ToolCompleted? && log[i].receipt.id !in completed then completed[log[i].receipt.id := i] else completed)
  {
    assert log[..i + 1][..i] == log[..i];
  }

  /** What the reader asks of the events that carry one call id. */
  predicate CallMatched(log: Log, started: Index, completed: Index, id: Text) {
    && id in started && id in completed
    && started[id] < completed[id] < |log|
    && log[started[id]].ToolStarted? && log[completed[id]].ToolCompleted?
    && var r := log[completed[id]].receipt;
       && r.name == log[started[id]].name && r.arguments == log[started[id]].arguments
       && r.status != Rejected && r.status != Capped && Encodable(r.output)
  }

  lemma EndFound(log: Log, p: nat)
    requires ToolIdsOnce(log) && p < |log| && log[p].ToolCompleted?
    ensures EndOf(log, log[p].receipt.id) == Some(p)
  {
    EndIs(log, log[p].receipt.id);
  }

  lemma StartFound(log: Log, p: nat)
    requires ToolIdsOnce(log) && p < |log| && log[p].ToolStarted?
    ensures StartOf(log, log[p].id) == Some(p)
  {
    StartIs(log, log[p].id);
  }

  /** Matching every call id is pairing every tool event. */
  predicate AllMatched(log: Log, started: Index, completed: Index) {
    forall id :: id in started.Keys + completed.Keys ==> CallMatched(log, started, completed, id)
  }

  lemma MatchedStart(log: Log, started: Index, completed: Index, p: nat)
    requires Starts(log, started) && Ends(log, completed) && ToolIdsOnce(log) && ToolsNamed(log)
    requires AllMatched(log, started, completed) && p < |log| && log[p].ToolStarted?
    ensures log[p].id != [] && EndOf(log, log[p].id).Some? && p < EndOf(log, log[p].id).value
  {
    hide StartOf, EndOf;
    StartFound(log, p);
    assert CallMatched(log, started, completed, log[p].id);
  }

  lemma MatchedEnd(log: Log, started: Index, completed: Index, p: nat)
    requires Starts(log, started) && Ends(log, completed) && ToolIdsOnce(log) && ToolsNamed(log)
    requires AllMatched(log, started, completed) && p < |log| && log[p].ToolCompleted?
    ensures CompletionOk(log, log[p].receipt, p)
  {
    hide StartOf, EndOf;
    EndFound(log, p);
    assert CallMatched(log, started, completed, log[p].receipt.id);
  }

  lemma MatchedIsPaired(log: Log, started: Index, completed: Index)
    requires Starts(log, started) && Ends(log, completed) && ToolIdsOnce(log) && ToolsNamed(log)
    ensures ToolsPaired(log) <==> AllMatched(log, started, completed)
  {
    hide StartOf, EndOf, CallMatched, CompletionOk, Starts, Ends, ToolIdsOnce, ToolsNamed;
    if ToolsPaired(log) {
      forall id | id in started.Keys + completed.Keys ensures CallMatched(log, started, completed, id) {
        PairedMatches(log, started, completed, id);
      }
    }
    if AllMatched(log, started, completed) {
      forall p | 0 <= p < |log| && log[p].ToolStarted?
        ensures log[p].id != [] && EndOf(log, log[p].id).Some? && p < EndOf(log, log[p].id).value
      {
        MatchedStart(log, started, completed, p);
      }
      forall p | 0 <= p < |log| && log[p].ToolCompleted? ensures CompletionOk(log, log[p].receipt, p) {
        MatchedEnd(log, started, completed, p);
      }
    }
  }

  lemma PairedMatches(log: Log, started: Index, completed: Index, id: Text)
    requires Starts(log, started) && Ends(log, completed) && ToolsPaired(log) && id in started.Keys + completed.Keys
    ensures CallMatched(log, started, completed, id)
  {
    hide StartOf, EndOf;
    StartIs(log, id);
    EndIs(log, id);
    if id in started {
      assert log[started[id]].ToolStarted?;
    }
    assert CompletionOk(log, log[completed[id]].receipt, completed[id]);
  }

  /* ---- Milestones ---- */

  predicate Ascending(ps: seq<nat>) {
    forall k :: 0 < k < |ps| ==> ps[k - 1] < ps[k]
  }

  lemma {:induction false} AscendingApart(ps: seq<nat>, i: nat, j: nat)
    requires Ascending(ps) && i < j < |ps|
    ensures ps[i] < ps[j]
    decreases j
  {
    if i < j - 1 { AscendingApart(ps, i, j - 1); }
  }

  predicate FoundOnce(log: Log, n: nat)
    requires n <= |REQUIRED|
  {
    forall k :: 0 <= k < n ==> |Places(log, REQUIRED[k])| == 1
  }

  lemma RequiredIs(log: Log, ps: seq<nat>)
    requires |ps| == |REQUIRED| && FoundOnce(log, |REQUIRED|)
    requires forall k :: 0 <= k < |ps| ==> ps[k] == PlaceOf(log, REQUIRED[k])
    ensures RequiredOk(log) <==> Ascending(ps)
  {
    hide Places, REQUIRED;
    if Ascending(ps) {
      forall i, j | 0 <= i < j < |REQUIRED| ensures Places(log, REQUIRED[i])[0] < Places(log, REQUIRED[j])[0] {
        AscendingApart(ps, i, j);
      }
    }
  }

  /* ---- Sums and lists over a prefix ---- */

  lemma AccountOneMore(log: Log, i: nat)
    requires i < |log|
    ensures Accounting(log[..i + 1]) == Account(Accounting(log[..i]), [log[i]])
    ensures Receipts(log[..i + 1]) == Receipts(log[..i]) + (if log[i].ToolCompleted? then [log[i].receipt] else [])
  {
    assert log[..i + 1] == log[..i] + [log[i]] && log[..i + 1][..i] == log[..i];
    AccountConcat(FRESH, log[..i], [log[i]]);
  }

  /** The meter after one entry more. */
  function Metered(m: Meter, e: Event): Meter {
    if e.Response? && e.reply.usage.Valid() then Charged(m, e.reply.usage, e.callCost)
    else if e.ToolCompleted? then m.(toolCalls := m.toolCalls + 1)
    else m
  }

  lemma OneEvent(m: Meter, e: Event)
    ensures Account(m, [e]) == Metered(m, e)
  {
    assert [e][..0] == [];
  }

  lemma OneIdMore(ids: seq<Text>, id: Text)
    ensures SetOf(ids + [id]) == SetOf(ids) + {id}
    ensures Distinct(ids + [id]) <==> Distinct(ids) && id !in ids
  {
    var longer := ids + [id];
    assert forall k :: 0 <= k < |ids| ==> longer[k] == ids[k];
    assert longer[|ids|] == id;
    if Distinct(longer) {
      assert forall k :: 0 <= k < |ids| ==> longer[k] != longer[|ids|];
    }
  }

  /** As many elements as entries exactly when no entry repeats. */
  lemma {:induction false} SetSize(ids: seq<Text>)
    ensures |SetOf(ids)| <= |ids|
    ensures |SetOf(ids)| == |ids| <==> Distinct(ids)
  {
    if ids != [] {
      var n := |ids| - 1;
      SetSize(ids[..n]);
      assert ids == ids[..n] + [ids[n]];
      OneIdMore(ids[..n], ids[n]);
    }
  }
}
