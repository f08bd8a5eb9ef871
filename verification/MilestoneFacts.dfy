/** A complete script holds every milestone exactly once, in order. */
module MilestoneFacts {
  import opened Wrappers
  import opened Caps
  import opened Events
  import opened Occurrences
  import opened Transactions
  import opened ToolRegistry
  import opened Script
  import opened Lifecycle
  import opened Layout

  lemma {:induction false} MilestonesConcat(a: Log, b: Log)
    ensures Milestones(a + b) == Milestones(a) + Milestones(b)
    decreases |b|
  {
    hide MilestoneOf;
    if b == [] {
      assert a + b == a;
    } else {
      assert (a + b)[..|a + b| - 1] == a + b[..|b| - 1];
      MilestonesConcat(a, b[..|b| - 1]);
      var last := MilestoneOf(b[|b| - 1]);
      Joined(Milestones(a), Milestones(b[..|b| - 1]), if last.Some? then [last.value] else []);
    }
  }

  lemma {:induction false} NoMilestones(log: Log)
    requires forall k :: 0 <= k < |log| ==> MilestoneOf(log[k]) == None
    ensures Milestones(log) == []
  {
    hide MilestoneOf;
    if log != [] { NoMilestones(log[..|log| - 1]); }
  }

  lemma OneMilestone(e: Event)
    ensures Milestones([e]) == if MilestoneOf(e).Some? then [MilestoneOf(e).value] else []
  {
    hide MilestoneOf;
    assert [e][..0] == [];
  }

  predicate AllDistinct(want: seq<Milestone>) {
    forall i, j :: 0 <= i < j < |want| ==> want[i] != want[j]
  }

  /** A log whose milestones are all different holds each of them once, and in that order. */
  lemma {:induction false} EachPlacedOnce(log: Log, m: Milestone)
    requires AllDistinct(Milestones(log))
    ensures |Places(log, m)| == if m in Milestones(log) then 1 else 0
  {
    hide MilestoneOf;
    if log != [] {
      var shorter, last := log[..|log| - 1], MilestoneOf(log[|log| - 1]);
      var before := Milestones(shorter);
      assert Milestones(log)[..|before|] == before;
      assert forall i :: 0 <= i < |before| ==> Milestones(log)[i] == before[i];
      EachPlacedOnce(shorter, m);
      if last.Some? { assert Milestones(log)[|before|] == last.value; }
    }
  }

  lemma {:induction false} PlacedInOrder(log: Log, i: nat, j: nat)
    requires AllDistinct(Milestones(log)) && i < j < |Milestones(log)|
    ensures |Places(log, Milestones(log)[i])| == 1 && |Places(log, Milestones(log)[j])| == 1
    ensures Places(log, Milestones(log)[i])[0] < Places(log, Milestones(log)[j])[0]
  {
    hide MilestoneOf;
    var shorter, last := log[..|log| - 1], MilestoneOf(log[|log| - 1]);
    var before := Milestones(shorter);
    EachPlacedOnce(log, Milestones(log)[i]);
    EachPlacedOnce(log, Milestones(log)[j]);
    assert forall k :: 0 <= k < |before| ==> Milestones(log)[k] == before[k];
    EachPlacedOnce(shorter, Milestones(log)[i]);
    EachPlacedOnce(shorter, Milestones(log)[j]);
    if j < |before| { PlacedInOrder(shorter, i, j); }
  }

  function Order(m: Milestone): nat {
    match m
    case MCreated => 0
    case MCaps => 1
    case MCustody => 2
    case MProfile => 3
    case MStarted => 4
    case MOpened => 5
    case MDone => 6
    case MFinished => 7
    case MJudging => 8
    case MJudged => 9
    case MReporting => 10
    case MReported => 11
    case MCompleted => 12
    case MFinalCustody => 13
    case MEnded => 14
  }

  lemma RequiredAreDistinct()
    ensures AllDistinct(REQUIRED)
  {
    forall i | 0 <= i < |REQUIRED| ensures Order(REQUIRED[i]) == i {}
  }

  /** With exactly the required milestones, the reader finds each where it stands. */
  lemma MilestonesSuffice(log: Log)
    requires Milestones(log) == REQUIRED
    ensures RequiredOk(log)
  {
    hide MilestoneOf, Places;
    RequiredAreDistinct();
    forall m | m in REQUIRED ensures |Places(log, m)| == 1 { EachPlacedOnce(log, m); }
    forall i, j | 0 <= i < j < |REQUIRED|
      ensures Places(log, REQUIRED[i])[0] < Places(log, REQUIRED[j])[0]
    {
      PlacedInOrder(log, i, j);
    }
  }

  lemma PlaceIs(log: Log, m: Milestone, p: nat)
    requires Milestones(log) == REQUIRED && m in REQUIRED
    requires p < |log| && MilestoneOf(log[p]) == Some(m)
    ensures PlaceOf(log, m) == p
  {
    hide MilestoneOf;
    RequiredAreDistinct();
    EachPlacedOnce(log, m);
    WhereComplete(log, Is(m));
    assert p in Where(log, Is(m));
  }

  /* ---- The milestones of a script ---- */

  function StepMilestones(s: Step): seq<Milestone> {
    if s.OpeningStep? then [MCreated, MCaps, MCustody, MProfile, MStarted, MOpened]
    else if s.TurnStep? then []
    else if s.TerminalStep? then [MDone]
    else if s.FinalizeStep? then [MFinished, MJudging]
    else if s.JudgeStep? then [MJudged, MReporting]
    else [MReported, MCompleted, MFinalCustody, MEnded]
  }

  lemma TxnHasNoMilestone(t: Txn)
    ensures Milestones(TxnEvents(t)) == []
  {
    TxnAt(t);
    WindowIsRetries(t);
    var events := TxnEvents(t);
    forall k | 0 <= k < |events| ensures MilestoneOf(events[k]) == None {
      if 2 <= k < 2 + |Window(t)| { assert events[2..2 + |Window(t)|][k - 2] == events[k]; }
    }
    NoMilestones(events);
  }

  lemma {:induction false} MilestonesOfList(log: Log, n: nat)
    requires n < |log|
    ensures Milestones(log[..n + 1])
         == Milestones(log[..n]) + if MilestoneOf(log[n]).Some? then [MilestoneOf(log[n]).value] else []
  {
    hide MilestoneOf;
    assert log[..n + 1][..n] == log[..n];
  }

  lemma BeforeMilestones(s: Step)
    ensures Milestones(Before(s)) == if s.OpeningStep? then [MCreated, MCaps, MCustody, MProfile, MStarted] else []
  {
    hide Milestones;
    var b := Before(s);
    NoMilestones(b[..0]);
    if s.OpeningStep? {
      MilestonesOfList(b, 0);
      MilestonesOfList(b, 1);
      MilestonesOfList(b, 2);
      MilestonesOfList(b, 3);
      MilestonesOfList(b, 4);
      MilestonesOfList(b, 5);
      assert b[..6] == b && b[..0] == [];
    } else {
      NoMilestones(b);
    }
  }

  lemma OpeningMilestones(s: Step)
    requires s.OpeningStep? && Regular(s)
    ensures Milestones(After(s)) == [MOpened]
  {
    NoMilestones(s.tools);
    var done := After(s)[|s.tools|..];
    assert After(s) == s.tools + done && |done| == 1;
    MilestonesConcat(s.tools, done);
    OneMilestone(done[0]);
    assert done == [done[0]];
  }

  lemma PairMilestones(log: Log)
    requires |log| == 2
    ensures Milestones(log) == (if MilestoneOf(log[0]).Some? then [MilestoneOf(log[0]).value] else [])
                               + (if MilestoneOf(log[1]).Some? then [MilestoneOf(log[1]).value] else [])
  {
    hide MilestoneOf;
    MilestonesOfList(log, 0);
    MilestonesOfList(log, 1);
    assert log[..2] == log && log[..0] == [];
  }

  lemma ArtifactsAreNone()
    ensures Milestones(ARTIFACT_EVENTS) == []
  {
    hide Milestones;
    NoMilestones(ARTIFACT_EVENTS);
  }

  lemma CloseMilestones()
    ensures Milestones(CLOSE) == [MFinalCustody, MEnded]
  {
    hide Milestones, ARTIFACT_EVENTS;
    ArtifactsAreNone();
    PairMilestones([CustodyFinalStarted, CustodyFinalCompleted]);
    OneMilestone(RunCompleted(true));
    MilestonesConcat(ARTIFACT_EVENTS, [RunCompleted(true)]);
    MilestonesConcat([CustodyFinalStarted, CustodyFinalCompleted], ARTIFACT_EVENTS + [RunCompleted(true)]);
  }

  lemma ReportMilestones(s: Step)
    requires s.ReportStep?
    ensures Milestones(After(s)) == [MReported, MCompleted, MFinalCustody, MEnded]
  {
    hide CLOSE, Milestones;
    var two := [ReportCompleted(s.draft.findingIds, s.draft.spanIds, s.report),
                InvestigationCompleted(s.findingCount, s.verdictCount, s.budget)];
    CloseMilestones();
    PairMilestones(two);
    MilestonesConcat(two, CLOSE);
  }

  lemma AfterMilestones(s: Step)
    requires Regular(s)
    ensures Milestones(Before(s)) + Milestones(After(s)) == StepMilestones(s)
  {
    hide Milestones, CLOSE, IsFailure, Account, Receipts;
    BeforeMilestones(s);
    if s.OpeningStep? {
      OpeningMilestones(s);
    } else if s.TurnStep? {
      NoMilestones(After(s));
    } else if s.TerminalStep? {
      OneMilestone(After(s)[0]);
    } else if s.ReportStep? {
      ReportMilestones(s);
    } else {
      PairMilestones(After(s));
    }
  }

  lemma MilestonesOfStep(s: Step)
    requires Regular(s)
    ensures Milestones(EventsOf(s)) == StepMilestones(s)
  {
    hide Before, After, TxnEvents, Milestones, StepMilestones;
    AfterMilestones(s);
    TxnHasNoMilestone(s.txn);
    MilestonesConcat(Before(s), TxnEvents(s.txn) + After(s));
    MilestonesConcat(TxnEvents(s.txn), After(s));
  }

  lemma {:induction false} TurnsHaveNone(steps: seq<Step>, n: nat)
    requires AllRegular(steps) && 1 <= n <= |steps| && steps[0].OpeningStep?
    requires forall i :: 1 <= i < n ==> steps[i].TurnStep?
    ensures Milestones(LogOf(steps[..n])) == StepMilestones(steps[0])
    decreases n
  {
    hide Before, After, TxnEvents, Milestones, StepMilestones, EventsOf, LogOf;
    assert steps[..n] == steps[..n - 1] + [steps[n - 1]];
    LogOfMore(steps[..n - 1], steps[n - 1]);
    MilestonesConcat(LogOf(steps[..n - 1]), EventsOf(steps[n - 1]));
    MilestonesOfStep(steps[n - 1]);
    if n == 1 {
      NothingYet(steps);
    } else {
      TurnsHaveNone(steps, n - 1);
      TurnHasNone(steps[n - 1]);
    }
  }

  lemma NothingYet(steps: seq<Step>)
    ensures Milestones(LogOf(steps[..0])) == []
  {}

  lemma TurnHasNone(s: Step)
    requires s.TurnStep?
    ensures StepMilestones(s) == []
  {}

  lemma OneStepMore(steps: seq<Step>, n: nat)
    requires AllRegular(steps) && n < |steps|
    ensures Milestones(LogOf(steps[..n + 1])) == Milestones(LogOf(steps[..n])) + StepMilestones(steps[n])
  {
    hide Before, After, TxnEvents, Milestones, StepMilestones, EventsOf, LogOf;
    assert steps[..n + 1] == steps[..n] + [steps[n]];
    LogOfMore(steps[..n], steps[n]);
    MilestonesConcat(LogOf(steps[..n]), EventsOf(steps[n]));
    MilestonesOfStep(steps[n]);
  }

  /** The milestones of a complete script. */
  lemma ScriptMilestones(steps: seq<Step>)
    requires AllRegular(steps) && Complete(steps)
    ensures Milestones(LogOf(steps)) == REQUIRED
  {
    hide Milestones, LogOf, AllRegular;
    var n := |steps| - 4;
    assert forall i :: 0 <= i < n ==> steps[..n][i] == steps[i];
    TurnsHaveNone(steps, n);
    OneStepMore(steps, n);
    OneStepMore(steps, n + 1);
    OneStepMore(steps, n + 2);
    OneStepMore(steps, n + 3);
    assert steps[..n + 4] == steps;
  }
}
