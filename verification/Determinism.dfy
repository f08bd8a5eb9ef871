/** In accepted logs the entries before a turn's request determine what that request sent. */
module Determinism {
  import opened Wrappers
  import opened Utf8
  import opened Caps
  import opened Events
  import opened Occurrences
  import opened Transactions
  import opened Script
  import opened Lifecycle
  import opened ReaderFacts
  import opened ReaderSteps
  import opened Soundness

  lemma WhereInPrefix<T>(s: seq<T>, p: T -> bool, cut: nat, k: nat)
    requires cut <= |s| && k < |Where(s, p)| && Where(s, p)[k] < cut
    ensures k < |Where(s[..cut], p)| && Where(s[..cut], p)[k] == Where(s, p)[k]
  {
    assert s == s[..cut] + s[cut..];
    WhereConcat(s[..cut], s[cut..], p);
  }

  lemma WhereAt<T>(s: seq<T>, p: T -> bool, cut: nat)
    requires cut < |s| && p(s[cut])
    ensures |Where(s[..cut], p)| < |Where(s, p)| && Where(s, p)[|Where(s[..cut], p)|] == cut
  {
    assert s == s[..cut] + ([s[cut]] + s[cut + 1..]);
    WhereSingle(s[cut], p);
    WhereMiddle(s[..cut], [s[cut]], s[cut + 1..], p);
  }

  lemma {:induction false} EndInPrefix(log: Log, id: Text, cut: nat)
    requires cut <= |log| && EndOf(log, id).Some? && EndOf(log, id).value < cut
    ensures EndOf(log[..cut], id) == EndOf(log, id)
  {
    if cut < |log| {
      var last := |log| - 1;
      EndInPrefix(log[..last], id, cut);
      assert log[..last][..cut] == log[..cut];
    } else {
      assert log[..cut] == log;
    }
  }

  lemma ReceiptInPrefix(a: Log, b: Log, id: Text, cut: nat)
    requires cut <= |a| && cut <= |b| && a[..cut] == b[..cut]
    requires EndOf(a, id).Some? && EndOf(a, id).value < cut && EndOf(b, id).Some? && EndOf(b, id).value < cut
    ensures ReceiptFor(a, id) == ReceiptFor(b, id)
  {
    hide EndOf;
    EndInPrefix(a, id, cut);
    EndInPrefix(b, id, cut);
    var p := EndOf(a, id).value;
    assert a[p] == a[..cut][p] == b[..cut][p] == b[p];
  }

  /* ---- Responses and receipts before a request ---- */

  /** The reader's view of an accepted log. */
  predicate Bindings(cfg: Config, log: Log, t: Txns) {
    && t == TxnsOf(log) && Paired(log, t) && |t.q| == |t.r| >= 5
    && OpeningBound(cfg, log, t) && TurnsBound(cfg, log, t) && PhaseWindowOk(log, t, 1)
    && (forall i :: 1 <= i <= Turns(t) ==> InvestigateInputOk(cfg, log, t, i) && CatalogOk(log, t, i))
  }

  lemma AcceptedBinds(cfg: Config, log: Log)
    requires Accepted(cfg, log)
    ensures Bindings(cfg, log, TxnsOf(log))
  {
    hide Accepted, Paired, TxnsOf, Receipts, ToolIdsOnce, ToolsPaired, OpeningBound, TurnsBound, DoneBound, IdsBound,
         FinalizerBound, JudgmentBound, ReportBound, NoOrphans, RequiredOk, SourcesOf, Concluded, Judgments, TotalsOk,
         ResponseOk, PhaseWindowOk, InvestigateInputOk, CatalogOk, OpeningInput, FinalizeInput, JudgeInput,
         ReportInput, WindowOk, OptionsAccepted, Exposed;
    AcceptedParts(cfg, log);
    var t := TxnsOf(log);
    forall i | 1 <= i <= Turns(t) ensures CatalogOk(log, t, i) { assert TransactionOk(cfg, log, t, i); }
  }

  /** What response `k` ran ended before the next request. */
  lemma TurnEnds(cfg: Config, log: Log, t: Txns, k: nat, a: nat)
    requires Bindings(cfg, log, t) && k < Turns(t) && a < |ReplyAt(log, t, k).calls|
    ensures var id := ReplyAt(log, t, k).calls[a].id;
            t.r[k] < t.q[k + 1] && EndOf(log, id).Some? && EndOf(log, id).value < t.q[k + 1]
  {
    hide Paired, TxnsOf, PlaceOf, StartOf, EndOf, Where, UpdateOk, LedgerAt, ReceiptFor, InvestigateInputOk,
         CatalogOk;
    if k == 0 {
      OpeningCallRan(cfg, log, t, a);
    } else {
      PairedCount(log, t);
      assert TurnBound(cfg, log, t, k);
    }
  }

  lemma TurnCalls(cfg: Config, log: Log, t: Txns, k: nat)
    requires Bindings(cfg, log, t) && k < Turns(t)
    ensures |ReplyAt(log, t, k).calls| >= 1 && (k > 0 ==> |ReplyAt(log, t, k).calls| == 1)
    ensures CallAt(log, t, k) == ReplyAt(log, t, k).calls[0]
  {
    hide Paired, TxnsOf, PlaceOf, StartOf, EndOf, Where, UpdateOk, LedgerAt, ReceiptFor, InvestigateInputOk, Bound,
         CatalogOk;
    if k > 0 { assert TurnBound(cfg, log, t, k); }
  }

  lemma RequestsAscend(log: Log, t: Txns, i: nat, j: nat)
    requires t == TxnsOf(log) && i <= j < |t.q|
    ensures t.q[i] <= t.q[j]
  {
    WhereComplete(log, IsRequest);
  }

  /** Two accepted logs that agree before a turn's request. */
  predicate Agree(cfg: Config, a: Log, b: Log, s: Txns, t: Txns, i: nat) {
    && Bindings(cfg, a, s) && Bindings(cfg, b, t) && 1 <= i <= Turns(s) && i <= Turns(t)
    && s.q[i] == t.q[i] && s.q[i] < |a| && s.q[i] < |b| && a[..s.q[i]] == b[..s.q[i]]
  }

  lemma SameReply(cfg: Config, a: Log, b: Log, s: Txns, t: Txns, i: nat, k: nat)
    requires Agree(cfg, a, b, s, t, i) && k < i
    ensures ReplyAt(a, s, k) == ReplyAt(b, t, k)
  {
    hide OpeningBound, TurnsBound, PhaseWindowOk, InvestigateInputOk, CatalogOk, Paired, TxnsOf, Where;
    Responded(cfg, a, s, i, k);
    Responded(cfg, b, t, i, k);
    var cut := s.q[i];
    assert a[..cut][s.r[k]] == b[..cut][s.r[k]];
    RepliesAre(cfg, a, s, k);
    RepliesAre(cfg, b, t, k);
  }

  lemma RepliesAre(cfg: Config, log: Log, t: Txns, k: nat)
    requires Bindings(cfg, log, t) && k < |t.r|
    ensures Paired(log, t) && t.r[k] < |log| && log[t.r[k]].Response? && ReplyAt(log, t, k) == log[t.r[k]].reply
  {}

  /** Where the reader finds response `k`, by the entries before request `i` alone. */
  lemma Responded(cfg: Config, log: Log, t: Txns, i: nat, k: nat)
    requires Bindings(cfg, log, t) && 1 <= i <= Turns(t) && k < i && t.q[i] < |log|
    ensures var seen := Where(log[..t.q[i]], IsResponse);
            k < |seen| && t.r[k] == seen[k] < t.q[i]
  {
    hide Paired, Where, OpeningBound, TurnsBound, PhaseWindowOk, InvestigateInputOk, CatalogOk, EndOf, IsResponse;
    TurnCalls(cfg, log, t, k);
    TurnEnds(cfg, log, t, k, 0);
    RequestsAscend(log, t, k + 1, i);
    WhereInPrefix(log, IsResponse, t.q[i], k);
  }

  lemma SameLedger(cfg: Config, a: Log, b: Log, s: Txns, t: Txns, i: nat, n: nat)
    requires Agree(cfg, a, b, s, t, i) && n < i
    ensures JoinedAt(cfg, a, s, n) == JoinedAt(cfg, b, t, n)
  {
    hide OpeningBound, TurnsBound, PhaseWindowOk, InvestigateInputOk, CatalogOk, Paired, TxnsOf, ReplyAt, Join;
    forall k | 1 <= k <= n ensures UpdateAt(cfg, a, s, k) == UpdateAt(cfg, b, t, k) {
      SameReply(cfg, a, b, s, t, i, k);
    }
    assert UpdatesTo(cfg, a, s, n) == UpdatesTo(cfg, b, t, n);
  }

  lemma SameLatest(cfg: Config, a: Log, b: Log, s: Txns, t: Txns, i: nat)
    requires Agree(cfg, a, b, s, t, i)
    ensures LatestIds(a, s, i) == LatestIds(b, t, i)
    ensures ViewsFor(cfg, a, LatestIds(a, s, i), false) == ViewsFor(cfg, b, LatestIds(b, t, i), false)
  {
    hide OpeningBound, TurnsBound, PhaseWindowOk, InvestigateInputOk, CatalogOk, Paired, TxnsOf, ReceiptFor, ReplyAt,
         EndOf;
    SameReply(cfg, a, b, s, t, i, i - 1);
    var ids := LatestIds(a, s, i);
    forall k | 0 <= k < |ids| ensures ReceiptFor(a, ids[k]) == ReceiptFor(b, ids[k]) {
      TurnCalls(cfg, a, s, i - 1);
      TurnEnds(cfg, a, s, i - 1, k);
      TurnEnds(cfg, b, t, i - 1, k);
      ReceiptInPrefix(a, b, ids[k], s.q[i]);
    }
  }

  lemma SameCatalog(cfg: Config, a: Log, b: Log, s: Txns, t: Txns, i: nat)
    requires Agree(cfg, a, b, s, t, i)
    ensures a[s.q[i]].Request? && b[t.q[i]].Request? && a[s.q[i]].catalog == b[t.q[i]].catalog
  {
    hide OpeningBound, TurnsBound, PhaseWindowOk, InvestigateInputOk, TxnsOf, Where;
    var cut := s.q[i];
    FirstRequest(a, s, i);
    FirstRequest(b, t, i);
    assert a[..cut][s.q[0]] == b[..cut][s.q[0]];
    assert CatalogOk(a, s, i) && CatalogOk(b, t, i);
  }

  /** The first request, by the entries before a later one alone. */
  lemma FirstRequest(log: Log, t: Txns, i: nat)
    requires t == TxnsOf(log) && 1 <= i < |t.q| && t.q[i] < |log|
    ensures var seen := Where(log[..t.q[i]], IsRequest); |seen| > 0 && t.q[0] == seen[0] < t.q[i]
  {
    hide Where, IsRequest;
    WhereComplete(log, IsRequest);
    WhereInPrefix(log, IsRequest, t.q[i], 0);
  }

  /** Equal but for the elapsed time of the budget snapshot. */
  predicate SamePacket(x: Event, y: Event) {
    && x.Request? && y.Request? && x.packet.InvestigatePacket? && y.packet.InvestigatePacket?
    && x.packet.(budget := y.packet.budget) == y.packet && x.packet.budget.meter == y.packet.budget.meter
    && x.observations == y.observations && x.catalog == y.catalog
  }

  lemma InputIs(cfg: Config, log: Log, t: Txns, i: nat)
    requires Paired(log, t) && 1 <= i <= Turns(t) && InvestigateInputOk(cfg, log, t, i)
    ensures t.q[i] < |log| && log[t.q[i]].Request? && log[t.q[i]].packet.InvestigatePacket?
    ensures var e := log[t.q[i]];
            && e.packet == InvestigatePacket(cfg.profile, JoinedAt(cfg, log, t, i - 1), i - 1,
                                             IndexOf(cfg, Receipts(log[..t.q[i]])), e.packet.budget, LatestIds(log, t, i))
            && e.packet.budget.meter == Accounting(log[..t.q[i]])
            && e.observations == ViewsFor(cfg, log, LatestIds(log, t, i), false)
  {
    hide JoinedAt, LatestIds, ViewsFor, Account, Receipts, IndexOf, PacketBudget;
  }

  lemma AgreeingRequests(cfg: Config, a: Log, b: Log, s: Txns, t: Txns, i: nat)
    requires Agree(cfg, a, b, s, t, i)
    ensures SamePacket(a[s.q[i]], b[t.q[i]])
  {
    hide OpeningBound, TurnsBound, PhaseWindowOk, CatalogOk, InvestigateInputOk, Paired, TxnsOf, JoinedAt, LatestIds,
         ViewsFor, Account, Receipts, IndexOf;
    SameLedger(cfg, a, b, s, t, i, i - 1);
    SameLatest(cfg, a, b, s, t, i);
    SameCatalog(cfg, a, b, s, t, i);
    InputIs(cfg, a, s, i);
    InputIs(cfg, b, t, i);
  }

  /** Of two accepted logs that agree on every entry before a turn's request, both requests
      carry one packet, but for the elapsed time: the ledger, the receipt index, the latest
      call ids, the counters, the observations and the catalog are a function of the log
      so far. */
  lemma PrefixDeterminesPacket(cfg: Config, a: Log, b: Log, q: nat)
    requires Accepted(cfg, a) && Accepted(cfg, b) && q < |a| && q < |b| && a[..q] == b[..q]
    requires a[q].Request? && a[q].phase == Investigate && b[q].Request? && b[q].phase == Investigate
    ensures SamePacket(a[q], b[q])
  {
    hide Accepted, SamePacket, OpeningBound, TurnsBound, PhaseWindowOk, InvestigateInputOk, CatalogOk, Where;
    AcceptedBinds(cfg, a);
    AcceptedBinds(cfg, b);
    var i := |Where(a[..q], IsRequest)|;
    WhereAt(a, IsRequest, q);
    WhereAt(b, IsRequest, q);
    AgreeingRequests(cfg, a, b, TxnsOf(a), TxnsOf(b), i);
  }
}
