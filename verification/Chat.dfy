/** Confirming chat insights into failure cases: claim, idempotent write, confirm, reconcile. */
module Chat {
  import opened Models

  type InsightId = nat
  type ProcessId = nat
  type User = string

  datatype Status = Draft | Confirming | Confirmed | Rejected

  datatype Insight = Insight(status: Status, confirmedBy: Option<User>, caseId: Option<nat>, content: string)

  /** A failure case; `source` is the insight it was recorded for, None for direct feedback. */
  datatype Case = Case(source: Option<InsightId>)

  /** The two tables; a case's place is its id. */
  datatype Tables = Tables(insights: map<InsightId, Insight>, cases: seq<Case>)

  // ---- Atomic statements on the tables -----------------------------------------

  /** The id of the failure case recorded for an insight. */
  function CaseOf(cases: seq<Case>, i: InsightId): (r: Option<nat>)
    ensures r.Some? ==> r.value < |cases| && cases[r.value].source == Some(i)
    ensures r.None? ==> forall k | 0 <= k < |cases| :: cases[k].source != Some(i)
  {
    if cases == [] then None
    else if cases[|cases| - 1].source == Some(i) then Some(|cases| - 1)
    else CaseOf(cases[..|cases| - 1], i)
  }

  function SetStatus(t: Tables, i: InsightId, status: Status, actor: Option<User>, caseId: Option<nat>): Tables {
    if i !in t.insights then t
    else
      var insight := t.insights[i].(status := status, confirmedBy := actor, caseId := caseId);
      t.(insights := t.insights[i := insight])
  }

  predicate CanClaim(t: Tables, i: InsightId) {
    i in t.insights && t.insights[i].status == Draft
  }

  /** The conditional update from draft to confirming. */
  function Claim(t: Tables, i: InsightId, user: User): Tables
    requires CanClaim(t, i)
  {
    t.(insights := t.insights[i := t.insights[i].(status := Confirming, confirmedBy := Some(user))])
  }

  function InsertCase(t: Tables, source: Option<InsightId>): Tables {
    t.(cases := t.cases + [Case(source)])
  }

  // ---- Processes -----------------------------------------------------------------

  /**
   * Where a request is.  A confirmation reads, claims, looks for the case, inserts it, does the
   * rest of the feedback, looks the case up again and writes the status; from the claim on, any
   * error leads to Releasing, which puts the insight back to draft.
   */
  datatype Phase =
    | ConfirmRead(i: InsightId, user: User)
    | Claiming(i: InsightId, user: User)
    | Recording(i: InsightId, user: User)
    | Inserting(i: InsightId, user: User)
    | Recorded(i: InsightId, user: User)
    | Finishing(i: InsightId, user: User, found: Option<nat>)
    | Reporting(i: InsightId, user: User)
    | Releasing(i: InsightId, user: User)
    | RejectRead(i: InsightId)
    | Rejecting(i: InsightId)
    | EditRead(i: InsightId, content: string)
    | Editing(i: InsightId, content: string)
    | ReconcileLook(i: InsightId, actor: Option<User>)
    | ReconcileWrite(i: InsightId, actor: Option<User>, found: Option<nat>)

  datatype State = State(tables: Tables, processes: map<ProcessId, Phase>)

  datatype Action =
    | NewInsight(i: InsightId, content: string)
    | DirectFeedback
    | Begin(p: ProcessId, phase: Phase)
    | Advance(p: ProcessId)
    | Fail(p: ProcessId)
    | Crash(p: ProcessId)

  const EMPTY := State(Tables(map[], []), map[])

  /** A confirmation that holds the claim: an error in it releases the claim. */
  predicate Holding(phase: Phase) {
    phase.Recording? || phase.Inserting? || phase.Recorded? || phase.Finishing? || phase.Reporting? || phase.Releasing?
  }

  /** Requests start by reading; reconciliation starts from an insight it listed as confirming. */
  predicate CanBegin(s: State, p: ProcessId, phase: Phase) {
    && p !in s.processes
    && (phase.ConfirmRead? || phase.RejectRead? || phase.EditRead?
        || (phase.ReconcileLook? && phase.i in s.tables.insights
            && s.tables.insights[phase.i].status == Confirming
            && s.tables.insights[phase.i].confirmedBy == phase.actor))
  }

  predicate Enabled(s: State, a: Action) {
    match a
    case NewInsight(i, _) => i !in s.tables.insights
    case DirectFeedback => true
    case Begin(p, phase) => CanBegin(s, p, phase)
    case Advance(p) => p in s.processes
    case Fail(p) => p in s.processes
    case Crash(p) => p in s.processes
  }

  function Done(s: State, p: ProcessId): State {
    s.(processes := s.processes - {p})
  }

  function Go(s: State, p: ProcessId, phase: Phase): State {
    s.(processes := s.processes[p := phase])
  }

  predicate IsDraft(s: State, i: InsightId) {
    i in s.tables.insights && s.tables.insights[i].status == Draft
  }

  /** The next atomic statement of a request. */
  function Next(s: State, p: ProcessId): State
    requires p in s.processes
  {
    match s.processes[p]
    case ConfirmRead(i, user) => if IsDraft(s, i) then Go(s, p, Claiming(i, user)) else Done(s, p)
    case Claiming(i, user) =>
      if CanClaim(s.tables, i) then Go(s.(tables := Claim(s.tables, i, user)), p, Recording(i, user)) else Done(s, p)
    case Recording(i, user) =>
      if CaseOf(s.tables.cases, i).Some? then Go(s, p, Recorded(i, user)) else Go(s, p, Inserting(i, user))
    case Inserting(i, user) =>
      // The unique index on the source key refuses a second case.
      if CaseOf(s.tables.cases, i).Some? then Go(s, p, Releasing(i, user))
      else Go(s.(tables := InsertCase(s.tables, Some(i))), p, Recorded(i, user))
    case Recorded(i, user) => Go(s, p, Finishing(i, user, CaseOf(s.tables.cases, i)))
    case Finishing(i, user, found) =>
      Go(s.(tables := SetStatus(s.tables, i, Confirmed, Some(user), found)), p, Reporting(i, user))
    case Reporting(_, _) => Done(s, p)
    case Releasing(i, _) => Done(s.(tables := SetStatus(s.tables, i, Draft, None, None)), p)
    case RejectRead(i) => if IsDraft(s, i) then Go(s, p, Rejecting(i)) else Done(s, p)
    case Rejecting(i) => Done(s.(tables := SetStatus(s.tables, i, Rejected, None, None)), p)
    case EditRead(i, content) => if IsDraft(s, i) then Go(s, p, Editing(i, content)) else Done(s, p)
    case Editing(i, content) =>
      if i in s.tables.insights then
        Done(s.(tables := s.tables.(insights := s.tables.insights[i := s.tables.insights[i].(content := content)])), p)
      else Done(s, p)
    case ReconcileLook(i, actor) => Go(s, p, ReconcileWrite(i, actor, CaseOf(s.tables.cases, i)))
    case ReconcileWrite(i, actor, found) =>
      var tables :=
        if found.Some? then SetStatus(s.tables, i, Confirmed, actor, found)
        else SetStatus(s.tables, i, Draft, None, None);
      Done(s.(tables := tables), p)
  }

  function Step(s: State, a: Action): State
    requires Enabled(s, a)
  {
    match a
    case NewInsight(i, content) =>
      s.(tables := s.tables.(insights := s.tables.insights[i := Insight(Draft, None, None, content)]))
    case DirectFeedback => s.(tables := InsertCase(s.tables, None))
    case Begin(p, phase) => Go(s, p, phase)
    case Advance(p) => Next(s, p)
    case Fail(p) =>
      var phase := s.processes[p];
      if Holding(phase) && !phase.Releasing? then Go(s, p, Releasing(phase.i, phase.user)) else Done(s, p)
    case Crash(p) => Done(s, p)
  }

  function Run(actions: seq<Action>): State {
    if actions == [] then EMPTY
    else
      var before := Run(actions[..|actions| - 1]);
      var last := actions[|actions| - 1];
      if Enabled(before, last) then Step(before, last) else before
  }

  // ---- At most one case, and confirmed names it ------------------------------------

  predicate OneCaseEach(cases: seq<Case>) {
    forall j, k | 0 <= j < k < |cases| && cases[j].source.Some? :: cases[j].source != cases[k].source
  }

  predicate Names(cases: seq<Case>, caseId: Option<nat>, i: InsightId) {
    caseId.Some? && caseId.value < |cases| && cases[caseId.value].source == Some(i)
  }

  predicate InsightOk(cases: seq<Case>, i: InsightId, insight: Insight) {
    if insight.status == Confirmed then Names(cases, insight.caseId, i) else insight.caseId.None?
  }

  predicate PhaseOk(cases: seq<Case>, phase: Phase) {
    match phase
    case Recorded(i, _) => CaseOf(cases, i).Some?
    case Finishing(i, _, found) => Names(cases, found, i)
    case ReconcileWrite(i, _, found) => found.Some? ==> Names(cases, found, i)
    case _ => true
  }

  ghost predicate Inv(s: State) {
    && OneCaseEach(s.tables.cases)
    && (forall i | i in s.tables.insights :: InsightOk(s.tables.cases, i, s.tables.insights[i]))
    && (forall p | p in s.processes :: PhaseOk(s.tables.cases, s.processes[p]))
  }

  lemma MoreCases(cases: seq<Case>, more: seq<Case>)
    requires cases <= more
    ensures forall caseId, i :: Names(cases, caseId, i) ==> Names(more, caseId, i)
    ensures forall i, insight :: InsightOk(cases, i, insight) ==> InsightOk(more, i, insight)
    ensures forall phase :: PhaseOk(cases, phase) ==> PhaseOk(more, phase)
  {
    forall i: InsightId | CaseOf(cases, i).Some?
      ensures CaseOf(more, i).Some?
    {
      var k := CaseOf(cases, i).value;
      assert more[k].source == Some(i);
    }
  }

  lemma CasesStayUnique(s: State, a: Action)
    requires Inv(s) && Enabled(s, a)
    ensures OneCaseEach(Step(s, a).tables.cases) && s.tables.cases <= Step(s, a).tables.cases
  {
    hide InsightOk, PhaseOk;
    var cases := s.tables.cases;
    if a.Advance? && s.processes[a.p].Inserting? {
      assert CaseOf(cases, s.processes[a.p].i).None? ==> forall k | 0 <= k < |cases| ::
        cases[k].source != Some(s.processes[a.p].i);
    }
  }

  lemma InsightsStayOk(s: State, a: Action, i: InsightId)
    requires Inv(s) && Enabled(s, a) && i in Step(s, a).tables.insights
    ensures InsightOk(Step(s, a).tables.cases, i, Step(s, a).tables.insights[i])
  {
    hide OneCaseEach, CaseOf, Names;
    CasesStayUnique(s, a);
    MoreCases(s.tables.cases, Step(s, a).tables.cases);
    if a.Advance? {
      assert PhaseOk(s.tables.cases, s.processes[a.p]);
    }
    assert i in s.tables.insights ==> InsightOk(s.tables.cases, i, s.tables.insights[i]);
  }

  lemma ProcessesStayOk(s: State, a: Action, p: ProcessId)
    requires Inv(s) && Enabled(s, a) && p in Step(s, a).processes
    ensures PhaseOk(Step(s, a).tables.cases, Step(s, a).processes[p])
  {
    hide OneCaseEach, InsightOk;
    var s' := Step(s, a);
    CasesStayUnique(s, a);
    MoreCases(s.tables.cases, s'.tables.cases);
    if p in s.processes {
      assert PhaseOk(s.tables.cases, s.processes[p]);
      if a == Advance(p) && s.processes[p].Inserting? && s'.processes[p].Recorded? {
        assert s'.tables.cases[|s.tables.cases|].source == Some(s.processes[p].i);
      }
    }
  }

  lemma StepKeepsInv(s: State, a: Action)
    requires Inv(s) && Enabled(s, a)
    ensures Inv(Step(s, a))
  {
    hide Step, OneCaseEach, InsightOk, PhaseOk;
    var s' := Step(s, a);
    CasesStayUnique(s, a);
    forall i | i in s'.tables.insights
      ensures InsightOk(s'.tables.cases, i, s'.tables.insights[i])
    {
      InsightsStayOk(s, a, i);
    }
    forall p | p in s'.processes
      ensures PhaseOk(s'.tables.cases, s'.processes[p])
    {
      ProcessesStayOk(s, a, p);
    }
  }

  lemma {:induction false} RunKeepsInv(actions: seq<Action>)
    ensures Inv(Run(actions))
  {
    if actions != [] {
      RunKeepsInv(actions[..|actions| - 1]);
      var before, last := Run(actions[..|actions| - 1]), actions[|actions| - 1];
      if Enabled(before, last) {
        StepKeepsInv(before, last);
      }
    }
  }

  /**
   * Whatever confirmations, edits, rejections, failures, crashes and reconciliations do, an
   * insight never has two failure cases, and a confirmed one names the case recorded for it.
   */
  lemma ExactlyOnce(actions: seq<Action>, i: InsightId)
    ensures var t := Run(actions).tables;
      && (forall j, k | 0 <= j < |t.cases| && 0 <= k < |t.cases| && t.cases[j].source == Some(i)
         && t.cases[k].source == Some(i) :: j == k)
      && (i in t.insights && t.insights[i].status == Confirmed ==>
            t.insights[i].caseId.Some? && t.insights[i].caseId == CaseOf(t.cases, i))
      && (i in t.insights && t.insights[i].status != Confirmed ==> t.insights[i].caseId.None?)
  {
    RunKeepsInv(actions);
    var t := Run(actions).tables;
    forall j, k | 0 <= j < |t.cases| && 0 <= k < |t.cases| && t.cases[j].source == Some(i)
      && t.cases[k].source == Some(i)
      ensures j == k
    {
      assert !(j < k) && !(k < j);
    }
    if i in t.insights {
      assert InsightOk(t.cases, i, t.insights[i]);
    }
  }

  // ---- The claim is exclusive, unless a reconciliation runs beside it ----------------

  predicate Holds(s: State, p: ProcessId, i: InsightId) {
    p in s.processes && Holding(s.processes[p]) && s.processes[p].i == i
  }

  ghost predicate Exclusive(s: State, i: InsightId) {
    && (forall p, q | Holds(s, p, i) && Holds(s, q, i) :: p == q)
    && (forall p | Holds(s, p, i) :: i in s.tables.insights && s.tables.insights[i].status != Draft)
  }

  /** The write of a reconciliation that found no case, while a confirmation holds the insight. */
  ghost predicate FreesClaim(s: State, a: Action, i: InsightId) {
    && a.Advance? && a.p in s.processes && s.processes[a.p].ReconcileWrite?
    && s.processes[a.p].i == i && s.processes[a.p].found.None?
    && exists q :: Holds(s, q, i)
  }

  /** A claim is won only from draft, and leaves the insight confirming. */
  lemma HoldersComeFromDraft(s: State, a: Action, i: InsightId, p: ProcessId)
    requires Enabled(s, a) && Holds(Step(s, a), p, i) && !Holds(s, p, i)
    ensures a == Advance(p) && IsDraft(s, i)
    ensures i in Step(s, a).tables.insights && Step(s, a).tables.insights[i].status == Confirming
  {
    hide CaseOf;
  }

  predicate ReconcilesToDraft(s: State, a: Action, i: InsightId) {
    a.Advance? && a.p in s.processes && s.processes[a.p].ReconcileWrite? && s.processes[a.p].i == i
      && s.processes[a.p].found.None?
  }

  /** An insight goes back to draft only when its holder releases it or a reconciliation found no case. */
  lemma DraftsComeFromHolders(s: State, a: Action, i: InsightId)
    requires Enabled(s, a) && i in s.tables.insights && s.tables.insights[i].status != Draft
    ensures i in Step(s, a).tables.insights
    ensures IsDraft(Step(s, a), i)
        ==> (a.Advance? && Holds(s, a.p, i) && !Holds(Step(s, a), a.p, i)) || ReconcilesToDraft(s, a, i)
    ensures ReconcilesToDraft(s, a, i) ==> IsDraft(Step(s, a), i)
  {
    hide CaseOf;
  }

  lemma OthersStay(s: State, a: Action, p: ProcessId)
    requires Enabled(s, a) && (a.NewInsight? || a.DirectFeedback? || a.p != p)
    ensures p in Step(s, a).processes <==> p in s.processes
    ensures p in s.processes ==> Step(s, a).processes[p] == s.processes[p]
  {
    hide CaseOf;
  }

  lemma ReconcilerHoldsNothing(s: State, a: Action, i: InsightId)
    requires Enabled(s, a) && ReconcilesToDraft(s, a, i)
    ensures !Holds(s, a.p, i)
  {
  }

  /** One step keeps the claim exclusive exactly when it does not free it under a holder. */
  lemma StepExclusive(s: State, a: Action, i: InsightId)
    requires Exclusive(s, i) && Enabled(s, a)
    ensures Exclusive(Step(s, a), i) <==> !FreesClaim(s, a, i)
  {
    hide CaseOf, Step, Enabled;
    var after := Step(s, a);
    if FreesClaim(s, a, i) {
      var q :| Holds(s, q, i);
      ReconcilerHoldsNothing(s, a, i);
      OthersStay(s, a, q);
      DraftsComeFromHolders(s, a, i);
      assert Holds(after, q, i) && IsDraft(after, i);
    } else {
      forall p | Holds(after, p, i)
        ensures i in after.tables.insights && after.tables.insights[i].status != Draft
        ensures Holds(s, p, i) || (a == Advance(p) && IsDraft(s, i))
      {
        if !Holds(s, p, i) {
          HoldersComeFromDraft(s, a, i, p);
        } else {
          DraftsComeFromHolders(s, a, i);
        }
      }
    }
  }

  ghost predicate ExclusiveThroughout(actions: seq<Action>, i: InsightId) {
    forall n: nat | n <= |actions| :: Exclusive(Run(actions[..n]), i)
  }

  ghost predicate FreesAt(actions: seq<Action>, n: nat, i: InsightId)
    requires n < |actions|
  {
    Enabled(Run(actions[..n]), actions[n]) && FreesClaim(Run(actions[..n]), actions[n], i)
  }

  ghost predicate NeverFreed(actions: seq<Action>, i: InsightId) {
    forall n: nat | n < |actions| :: !FreesAt(actions, n, i)
  }

  lemma ThroughoutOneMore(actions: seq<Action>, i: InsightId)
    requires actions != []
    ensures var front := actions[..|actions| - 1];
      && (ExclusiveThroughout(actions, i) <==> ExclusiveThroughout(front, i) && Exclusive(Run(actions), i))
      && (NeverFreed(actions, i) <==> NeverFreed(front, i) && !FreesAt(actions, |actions| - 1, i))
  {
    hide Run, Exclusive, Enabled, FreesClaim;
    var front := actions[..|actions| - 1];
    assert forall n: nat | n <= |front| :: front[..n] == actions[..n];
    assert actions[..|actions|] == actions;
    assert forall n: nat | n < |front| :: FreesAt(front, n, i) <==> FreesAt(actions, n, i);
  }

  lemma ExclusiveAtEnd(actions: seq<Action>, i: InsightId)
    requires ExclusiveThroughout(actions, i)
    ensures Exclusive(Run(actions), i)
  {
    assert actions[..|actions|] == actions;
  }

  lemma LastStep(actions: seq<Action>, i: InsightId)
    requires actions != [] && Exclusive(Run(actions[..|actions| - 1]), i)
    ensures Exclusive(Run(actions), i) <==> !FreesAt(actions, |actions| - 1, i)
  {
    hide Exclusive, Enabled, FreesClaim, Step;
    var before, last := Run(actions[..|actions| - 1]), actions[|actions| - 1];
    if Enabled(before, last) {
      StepExclusive(before, last, i);
    }
  }

  /**
   * In every interleaving, reconciliations included, at most one confirmation at a time holds an insight, and holds it
   * out of draft, exactly when no reconciliation that found no case writes while a confirmation holds it.
   */
  lemma {:induction false} ClaimIsExclusive(actions: seq<Action>, i: InsightId)
    ensures ExclusiveThroughout(actions, i) <==> NeverFreed(actions, i)
  {
    if actions == [] {
      assert forall n: nat | n <= |actions| :: actions[..n] == [];
    } else {
      var front := actions[..|actions| - 1];
      hide *;
      ClaimIsExclusive(front, i);
      ThroughoutOneMore(actions, i);
      if ExclusiveThroughout(front, i) {
        ExclusiveAtEnd(front, i);
        LastStep(actions, i);
      }
    }
  }

  // ---- Reconciling at start-up -----------------------------------------------------------

  ghost predicate NobodyConfirms(s: State, i: InsightId) {
    forall p | p in s.processes :: !s.processes[p].ConfirmRead? && !s.processes[p].Claiming? && !Holds(s, p, i)
  }

  ghost predicate NobodyReconciles(s: State) {
    forall p | p in s.processes :: !s.processes[p].ReconcileLook? && !s.processes[p].ReconcileWrite?
  }

  /** What starts at step `n`, if anything does. */
  predicate Starts(actions: seq<Action>, n: nat, reconciliation: bool)
    requires n < |actions|
  {
    actions[n].Begin? && (if reconciliation then actions[n].phase.ReconcileLook? else actions[n].phase.ConfirmRead?)
  }

  lemma ConfirmsOnlyOnceBegun(s: State, a: Action, i: InsightId)
    requires Enabled(s, a) && NobodyConfirms(s, i) && !(a.Begin? && a.phase.ConfirmRead?)
    ensures NobodyConfirms(Step(s, a), i)
  {
    hide CaseOf, Step, Enabled;
    var after := Step(s, a);
    forall p | p in after.processes
      ensures !after.processes[p].ConfirmRead? && !after.processes[p].Claiming? && !Holds(after, p, i)
    {
      if a.NewInsight? || a.DirectFeedback? || a.p != p {
        OthersStay(s, a, p);
      } else {
        ActorOutside(s, a, i);
      }
    }
  }

  lemma ActorOutside(s: State, a: Action, i: InsightId)
    requires Enabled(s, a) && !a.NewInsight? && !a.DirectFeedback? && a.p in Step(s, a).processes
    requires !(a.Begin? && a.phase.ConfirmRead?)
    requires a.p in s.processes ==> !s.processes[a.p].ConfirmRead? && !s.processes[a.p].Claiming? && !Holds(s, a.p, i)
    ensures !Step(s, a).processes[a.p].ConfirmRead? && !Step(s, a).processes[a.p].Claiming?
    ensures !Holds(Step(s, a), a.p, i)
  {
    hide CaseOf;
  }

  lemma ReconcilesOnlyOnceBegun(s: State, a: Action)
    requires Enabled(s, a) && NobodyReconciles(s) && !(a.Begin? && a.phase.ReconcileLook?)
    ensures NobodyReconciles(Step(s, a))
  {
    hide CaseOf;
  }

  lemma {:induction false} QuietBefore(actions: seq<Action>, i: InsightId, n: nat)
    requires n <= |actions| && forall k: nat | k < n :: !Starts(actions, k, false)
    ensures NobodyConfirms(Run(actions[..n]), i)
  {
    if n > 0 {
      QuietBefore(actions, i, n - 1);
      assert actions[..n][..n - 1] == actions[..n - 1];
      hide NobodyConfirms;
      assert !Starts(actions, n - 1, false);
      if Enabled(Run(actions[..n - 1]), actions[n - 1]) {
        ConfirmsOnlyOnceBegun(Run(actions[..n - 1]), actions[n - 1], i);
      }
    }
  }

  lemma {:induction false} QuietAfter(actions: seq<Action>, m: nat, n: nat)
    requires m <= n <= |actions| && NobodyReconciles(Run(actions[..m]))
    requires forall k: nat | m <= k < n :: !Starts(actions, k, true)
    ensures NobodyReconciles(Run(actions[..n]))
  {
    if n > m {
      QuietAfter(actions, m, n - 1);
      assert actions[..n][..n - 1] == actions[..n - 1];
      hide NobodyReconciles;
      assert !Starts(actions, n - 1, true);
      if Enabled(Run(actions[..n - 1]), actions[n - 1]) {
        ReconcilesOnlyOnceBegun(Run(actions[..n - 1]), actions[n - 1]);
      }
    }
  }

  /**
   * So a reconciliation at start-up does no harm: when it is over before the first confirmation begins, and none
   * begins later, the claim is exclusive throughout.
   */
  lemma StartUpReconciliation(actions: seq<Action>, m: nat, i: InsightId)
    requires m <= |actions| && NobodyReconciles(Run(actions[..m]))
    requires forall k: nat | k < m :: !Starts(actions, k, false)
    requires forall k: nat | m <= k < |actions| :: !Starts(actions, k, true)
    ensures ExclusiveThroughout(actions, i)
  {
    hide Run, Step, Enabled;
    forall n: nat | n < |actions|
      ensures !FreesAt(actions, n, i)
    {
      if n <= m {
        QuietBefore(actions, i, n);
      } else {
        QuietAfter(actions, m, n);
      }
      if n == m {
        QuietAfter(actions, m, n);
      }
    }
    ClaimIsExclusive(actions, i);
  }

  // ---- Leaving confirmed, and what a reconciliation writes ---------------------------------

  /**
   * A confirmed insight stays confirmed except under a write that does not look: a reject, a release or a
   * reconciliation.
   */
  lemma ConfirmedLeft(s: State, a: Action, i: InsightId)
    requires Enabled(s, a) && i in s.tables.insights && s.tables.insights[i].status == Confirmed
    ensures i in Step(s, a).tables.insights
    ensures Step(s, a).tables.insights[i].status != Confirmed <==>
      a.Advance? && (s.processes[a.p] == Rejecting(i) || (s.processes[a.p].Releasing? && s.processes[a.p].i == i)
        || ReconcilesToDraft(s, a, i))
  {
    hide CaseOf;
  }

  /**
   * A reconciliation decides by the case it found when it looked: what it writes is right exactly when it found one or
   * none was recorded meanwhile.
   */
  lemma ReconciledRightly(s: State, p: ProcessId, i: InsightId)
    requires Inv(s) && p in s.processes && s.processes[p].ReconcileWrite? && s.processes[p].i == i
    requires i in s.tables.insights
    ensures var t := Step(s, Advance(p)).tables;
      && i in t.insights && t.cases == s.tables.cases
      && t.insights[i].status == (if s.processes[p].found.Some? then Confirmed else Draft)
      && ((t.insights[i].status == Confirmed <==> CaseOf(t.cases, i).Some?)
          <==> s.processes[p].found.Some? || CaseOf(s.tables.cases, i).None?)
  {
    hide OneCaseEach, InsightOk;
    assert PhaseOk(s.tables.cases, s.processes[p]);
  }

  /**
   * A reject writes without looking again: it leaves a rejected insight with a failure case exactly when a case was
   * recorded by then.
   */
  lemma RejectedWithCase(s: State, p: ProcessId, i: InsightId)
    requires p in s.processes && s.processes[p] == Rejecting(i) && i in s.tables.insights
    ensures var t := Step(s, Advance(p)).tables;
      && t.insights[i].status == Rejected && t.insights[i].caseId.None?
      && (CaseOf(t.cases, i).Some? <==> CaseOf(s.tables.cases, i).Some?)
  {
    hide CaseOf;
  }

  /** A draft that process 7 has read and is about to reject. */
  lemma RejectReads() returns (actions: seq<Action>)
    ensures var drafts := Step(EMPTY, NewInsight(0, "")).tables;
      Run(actions) == State(drafts, map[7 := Rejecting(0)]) && IsDraft(Run(actions), 0) && drafts.cases == []
  {
    assert Run([]) == EMPTY;
    hide Run;
    var s1 := Step(EMPTY, NewInsight(0, ""));
    Extend([], EMPTY, NewInsight(0, ""), s1);
    var s2 := Go(s1, 7, RejectRead(0));
    Extend([] + [NewInsight(0, "")], s1, Begin(7, RejectRead(0)), s2);
    actions := [] + [NewInsight(0, "")] + [Begin(7, RejectRead(0))];
    Extend(actions, s2, Advance(7), Go(s2, 7, Rejecting(0)));
    actions := actions + [Advance(7)];
    assert Go(s2, 7, Rejecting(0)).processes == map[7 := Rejecting(0)];
  }

  /**
   * The run in which that happens to a confirmed insight: the reject reads the draft, the confirmation runs, the reject
   * writes.
   */
  lemma RejectOverConfirmed() returns (actions: seq<Action>)
    ensures var t := Run(actions).tables;
      0 in t.insights && t.insights[0].status == Rejected && CaseOf(t.cases, 0).Some?
  {
    hide Run;
    actions := RejectReads();
    actions := TakeClaim(actions, Run(actions), 1, 0, "a");
    actions := ConfirmClaimed(actions, Run(actions), 1, 0, "a");
    var late := Run(actions);
    assert late.tables.insights[0].status == Confirmed;
    Extend(actions, late, Advance(7), Step(late, Advance(7)));
    actions := actions + [Advance(7)];
    RejectedWithCase(late, 7, 0);
  }

  lemma Extend(actions: seq<Action>, s: State, a: Action, s': State)
    requires Run(actions) == s && Enabled(s, a) && Step(s, a) == s'
    ensures Run(actions + [a]) == s'
  {
    assert (actions + [a])[..|actions|] == actions;
  }

  /** Three steps take a confirmation from its start to holding the claim of a draft. */
  lemma TakeClaim(actions: seq<Action>, s: State, p: ProcessId, i: InsightId, user: User)
    returns (longer: seq<Action>)
    requires Run(actions) == s && p !in s.processes && IsDraft(s, i)
    ensures actions <= longer
    ensures var claimed := s.tables.insights[i].(status := Confirming, confirmedBy := Some(user));
      Run(longer) == State(Tables(s.tables.insights[i := claimed], s.tables.cases),
                           s.processes[p := Recording(i, user)])
  {
    hide Run;
    var s1 := Go(s, p, ConfirmRead(i, user));
    Extend(actions, s, Begin(p, ConfirmRead(i, user)), s1);
    var s2 := Go(s1, p, Claiming(i, user));
    Extend(actions + [Begin(p, ConfirmRead(i, user))], s1, Advance(p), s2);
    var s3 := Go(s2.(tables := Claim(s.tables, i, user)), p, Recording(i, user));
    Extend(actions + [Begin(p, ConfirmRead(i, user))] + [Advance(p)], s2, Advance(p), s3);
    longer := actions + [Begin(p, ConfirmRead(i, user))] + [Advance(p)] + [Advance(p)];
    assert s3.processes == s.processes[p := Recording(i, user)];
  }

  /** The cases once one is recorded for the insight. */
  function WithCase(cases: seq<Case>, i: InsightId): (r: seq<Case>)
    ensures CaseOf(r, i).Some?
  {
    if CaseOf(cases, i).Some? then cases
    else assert (cases + [Case(Some(i))])[|cases|].source == Some(i); cases + [Case(Some(i))]
  }

  /** A claimed insight gets its case, the one there is or a new one. */
  lemma RecordClaimed(actions: seq<Action>, s: State, p: ProcessId, i: InsightId, user: User)
    returns (longer: seq<Action>)
    requires Run(actions) == s && p in s.processes && s.processes[p] == Recording(i, user)
    ensures actions <= longer
    ensures Run(longer) == State(Tables(s.tables.insights, WithCase(s.tables.cases, i)),
                                 s.processes[p := Recorded(i, user)])
  {
    hide Run, CaseOf;
    if CaseOf(s.tables.cases, i).Some? {
      Extend(actions, s, Advance(p), Go(s, p, Recorded(i, user)));
      longer := actions + [Advance(p)];
    } else {
      var s1 := Go(s, p, Inserting(i, user));
      Extend(actions, s, Advance(p), s1);
      var s2 := Go(s1.(tables := InsertCase(s.tables, Some(i))), p, Recorded(i, user));
      Extend(actions + [Advance(p)], s1, Advance(p), s2);
      longer := actions + [Advance(p)] + [Advance(p)];
      assert s2.processes == s.processes[p := Recorded(i, user)];
    }
  }

  /** A recorded insight is confirmed. */
  lemma ConfirmRecorded(actions: seq<Action>, s: State, p: ProcessId, i: InsightId, user: User)
    returns (longer: seq<Action>)
    requires Run(actions) == s && p in s.processes && s.processes[p] == Recorded(i, user)
    ensures actions <= longer
    ensures Run(longer) == State(SetStatus(s.tables, i, Confirmed, Some(user), CaseOf(s.tables.cases, i)),
                                 s.processes[p := Reporting(i, user)])
  {
    hide Run, CaseOf;
    var found := CaseOf(s.tables.cases, i);
    var s3 := Go(s, p, Finishing(i, user, found));
    Extend(actions, s, Advance(p), s3);
    var s4 := Go(s3.(tables := SetStatus(s3.tables, i, Confirmed, Some(user), found)), p, Reporting(i, user));
    Extend(actions + [Advance(p)], s3, Advance(p), s4);
    longer := actions + [Advance(p)] + [Advance(p)];
    assert s4.processes == s.processes[p := Reporting(i, user)];
  }

  lemma ConfirmClaimed(actions: seq<Action>, s: State, p: ProcessId, i: InsightId, user: User)
    returns (longer: seq<Action>)
    requires Run(actions) == s && p in s.processes && s.processes[p] == Recording(i, user)
    ensures actions <= longer
    ensures var cases := WithCase(s.tables.cases, i);
      Run(longer) == State(SetStatus(Tables(s.tables.insights, cases), i, Confirmed, Some(user), CaseOf(cases, i)),
                           s.processes[p := Reporting(i, user)])
  {
    hide *;
    longer := RecordClaimed(actions, s, p, i, user);
    longer := ConfirmRecorded(longer, Run(longer), p, i, user);
  }

  /** A reconciliation confirms a confirming insight if its case is found, and otherwise puts it back to draft. */
  lemma ReconcileNow(actions: seq<Action>, s: State, p: ProcessId, i: InsightId) returns (longer: seq<Action>)
    requires Run(actions) == s && p !in s.processes
    requires i in s.tables.insights && s.tables.insights[i].status == Confirming
    ensures actions <= longer
    ensures var found := CaseOf(s.tables.cases, i);
      Run(longer) == s.(tables :=
        if found.Some? then SetStatus(s.tables, i, Confirmed, s.tables.insights[i].confirmedBy, found)
        else SetStatus(s.tables, i, Draft, None, None))
  {
    hide Run, CaseOf;
    var actor, found := s.tables.insights[i].confirmedBy, CaseOf(s.tables.cases, i);
    var s1 := Go(s, p, ReconcileLook(i, actor));
    Extend(actions, s, Begin(p, ReconcileLook(i, actor)), s1);
    var s2 := Go(s1, p, ReconcileWrite(i, actor, found));
    Extend(actions + [Begin(p, ReconcileLook(i, actor))], s1, Advance(p), s2);
    var s3 := Step(s2, Advance(p));
    Extend(actions + [Begin(p, ReconcileLook(i, actor))] + [Advance(p)], s2, Advance(p), s3);
    longer := actions + [Begin(p, ReconcileLook(i, actor))] + [Advance(p)] + [Advance(p)];
    assert s3.processes == s.processes;
  }

  // ---- What can still be done ---------------------------------------------------------------

  /** Only the insight changed, it is confirmed by `user` with its case, and at most that case was added. */
  ghost predicate ConfirmedInto(before: Tables, after: Tables, i: InsightId, user: Option<User>) {
    && i in before.insights && after.cases == WithCase(before.cases, i)
    && after.insights == before.insights[i :=
         Insight(Confirmed, user, CaseOf(after.cases, i), before.insights[i].content)]
  }

  /** From every reachable state a confirmation of a draft that nothing disturbs ends with the insight confirmed. */
  lemma ConfirmationCompletes(actions: seq<Action>, p: ProcessId, i: InsightId, user: User)
    returns (longer: seq<Action>)
    requires p !in Run(actions).processes && IsDraft(Run(actions), i)
    ensures actions <= longer
    ensures ConfirmedInto(Run(actions).tables, Run(longer).tables, i, Some(user))
  {
    hide Run, CaseOf;
    longer := TakeClaim(actions, Run(actions), p, i, user);
    longer := ConfirmClaimed(longer, Run(longer), p, i, user);
  }

  /**
   * A confirmation that dies holding its claim, wherever that is, can be finished: the claim is left
   * confirming, a reconciliation finds the case or puts the insight back, and in the end the insight
   * is confirmed with one case.
   */
  lemma CrashIsRecovered(actions: seq<Action>, p: ProcessId, i: InsightId, user: User)
    returns (longer: seq<Action>, user': User)
    requires Holds(Run(actions), p, i) && i in Run(actions).tables.insights
    requires Run(actions).tables.insights[i].status == Confirming && Run(actions).tables.insights[i].confirmedBy.Some?
    ensures actions + [Crash(p)] <= longer && p !in Run(actions + [Crash(p)]).processes
    ensures ConfirmedInto(Run(actions).tables, Run(longer).tables, i, Some(user'))
  {
    hide Run, CaseOf;
    var s := Run(actions);
    Extend(actions, s, Crash(p), Done(s, p));
    var crashed := actions + [Crash(p)];
    longer := ReconcileNow(crashed, Run(crashed), p, i);
    if CaseOf(s.tables.cases, i).Some? {
      user' := s.tables.insights[i].confirmedBy.value;
    } else {
      user' := user;
      longer := ConfirmationCompletes(longer, p, i, user);
    }
  }

  /** An error gives the claim back: the next two steps of the request leave the insight a draft without a case id. */
  lemma FailureReleases(actions: seq<Action>, p: ProcessId, i: InsightId)
    requires Holds(Run(actions), p, i) && !Run(actions).processes[p].Releasing? && i in Run(actions).tables.insights
    ensures var s, t := Run(actions), Run(actions + [Fail(p)] + [Advance(p)]);
      && t.tables.insights == s.tables.insights[i := Insight(Draft, None, None, s.tables.insights[i].content)]
      && t.tables.cases == s.tables.cases && p !in t.processes
  {
    hide Run, CaseOf;
    var s := Run(actions);
    var s1 := Step(s, Fail(p));
    Extend(actions, s, Fail(p), s1);
    Extend(actions + [Fail(p)], s1, Advance(p), Step(s1, Advance(p)));
  }

  /** A reject that nothing disturbs leaves a draft rejected; of anything else it changes nothing. */
  lemma RejectCompletes(actions: seq<Action>, p: ProcessId, i: InsightId)
    requires p !in Run(actions).processes
    ensures var s, t := Run(actions), Run(actions + [Begin(p, RejectRead(i))] + [Advance(p)] + [Advance(p)]);
      && t.processes == s.processes
      && t.tables.cases == s.tables.cases
      && t.tables.insights == if IsDraft(s, i)
         then s.tables.insights[i := Insight(Rejected, None, None, s.tables.insights[i].content)] else s.tables.insights
  {
    hide Run, CaseOf;
    var s := Run(actions);
    var s1 := Go(s, p, RejectRead(i));
    Extend(actions, s, Begin(p, RejectRead(i)), s1);
    var read := actions + [Begin(p, RejectRead(i))];
    var s2 := Step(s1, Advance(p));
    Extend(read, s1, Advance(p), s2);
    if IsDraft(s, i) {
      var s3 := Step(s2, Advance(p));
      Extend(read + [Advance(p)], s2, Advance(p), s3);
      assert s3.processes == s.processes;
    } else {
      Impossible(read + [Advance(p)], Advance(p));
      assert s2.processes == s.processes;
    }
  }

  /** An edit that nothing disturbs changes the content of a draft, and nothing else. */
  lemma EditCompletes(actions: seq<Action>, p: ProcessId, i: InsightId, content: string)
    requires p !in Run(actions).processes
    ensures var s, t := Run(actions), Run(actions + [Begin(p, EditRead(i, content))] + [Advance(p)] + [Advance(p)]);
      && t.processes == s.processes && t.tables.cases == s.tables.cases
      && t.tables.insights == if IsDraft(s, i)
         then s.tables.insights[i := s.tables.insights[i].(content := content)] else s.tables.insights
  {
    hide Run, CaseOf;
    var s := Run(actions);
    var s1 := Go(s, p, EditRead(i, content));
    Extend(actions, s, Begin(p, EditRead(i, content)), s1);
    var read := actions + [Begin(p, EditRead(i, content))];
    var s2 := Step(s1, Advance(p));
    Extend(read, s1, Advance(p), s2);
    if IsDraft(s, i) {
      var s3 := Step(s2, Advance(p));
      Extend(read + [Advance(p)], s2, Advance(p), s3);
      assert s3.processes == s.processes;
    } else {
      Impossible(read + [Advance(p)], Advance(p));
      assert s2.processes == s.processes;
    }
  }

  lemma Impossible(actions: seq<Action>, a: Action)
    requires !Enabled(Run(actions), a)
    ensures Run(actions + [a]) == Run(actions)
  {
    assert (actions + [a])[..|actions|] == actions;
  }

  /** A reconciliation beside a live confirmation frees the claim, and a second confirmation takes it. */
  lemma ReconcileFreesClaim() returns (actions: seq<Action>)
    ensures !Exclusive(Run(actions), 0)
  {
    Extend([], EMPTY, NewInsight(0, ""), Step(EMPTY, NewInsight(0, "")));
    actions := [] + [NewInsight(0, "")];
    actions := TakeClaim(actions, Run(actions), 1, 0, "a");
    actions := ReconcileNow(actions, Run(actions), 2, 0);
    actions := TakeClaim(actions, Run(actions), 3, 0, "b");
    assert Holds(Run(actions), 1, 0) && Holds(Run(actions), 3, 0);
  }

  // ---- The service, one request at a time ---------------------------------------------

  datatype Reply = Accepted(caseId: Option<nat>) | Refused

  class ChatService {
    var tables: Tables

    ghost predicate Valid()
      reads this
    {
      && OneCaseEach(tables.cases)
      && forall i | i in tables.insights :: InsightOk(tables.cases, i, tables.insights[i])
    }

    constructor ()
      ensures Valid() && tables == Tables(map[], [])
    {
      tables := Tables(map[], []);
    }

    /** Finds the case recorded under the insight's key, or records it. */
    method RecordFailureCase(i: InsightId) returns (caseId: nat)
      requires Valid()
      modifies this
      ensures Valid() && tables.insights == old(tables.insights)
      ensures Some(caseId) == CaseOf(tables.cases, i)
      ensures tables.cases == if CaseOf(old(tables.cases), i).Some? then old(tables.cases)
        else old(tables.cases) + [Case(Some(i))]
    {
      var found := CaseOf(tables.cases, i);
      if found.Some? {
        return found.value;
      }
      MoreCases(tables.cases, tables.cases + [Case(Some(i))]);
      tables := InsertCase(tables, Some(i));
      return |tables.cases| - 1;
    }

    /**
     * Confirms a draft.  Confirming again changes nothing and names the same case; a failure after
     * the claim puts the insight back to draft, and any case already recorded is found by the next try.
     */
    method ConfirmChatInsight(i: InsightId, user: User, recordFails: bool, restFails: bool) returns (r: Reply)
      requires Valid()
      modifies this
      ensures Valid() && old(tables.cases) <= tables.cases
      ensures r.Accepted? <==>
        && i in old(tables.insights)
        && var status := old(tables.insights)[i].status;
           status == Confirmed || (status == Draft && !recordFails && !restFails)
      ensures r.Accepted? ==>
        && i in tables.insights && tables.insights[i].status == Confirmed
        && tables.insights[i].caseId == r.caseId == CaseOf(tables.cases, i) && r.caseId.Some?
      ensures i in old(tables.insights) && old(tables.insights)[i].status == Confirmed ==> tables == old(tables)
      ensures r.Refused? && i in old(tables.insights)
          ==> i in tables.insights && tables.insights[i].status == old(tables.insights)[i].status
      ensures |tables.cases| <= |old(tables.cases)| + (if CaseOf(old(tables.cases), i).Some? then 0 else 1)
      ensures forall k | k in old(tables.insights) && k != i ::
        k in tables.insights && tables.insights[k] == old(tables.insights)[k]
    {
      if i !in tables.insights {
        return Refused;
      }
      var insight := tables.insights[i];
      if insight.status == Confirmed {
        SameCase(tables.cases, insight.caseId, i);
        return Accepted(insight.caseId);
      }
      if insight.status != Draft {
        return Refused;
      }
      tables := Claim(tables, i, user);
      if !recordFails {
        var caseId := RecordFailureCase(i);
        if !restFails {
          tables := SetStatus(tables, i, Confirmed, Some(user), Some(caseId));
          return Accepted(Some(caseId));
        }
      }
      tables := SetStatus(tables, i, Draft, None, None);
      return Refused;
    }

    method RejectChatInsight(i: InsightId) returns (r: Reply)
      requires Valid()
      modifies this
      ensures Valid() && tables.cases == old(tables.cases)
      ensures r.Accepted? <==> i in old(tables.insights) && old(tables.insights)[i].status == Draft
      ensures tables == if r.Accepted? then SetStatus(old(tables), i, Rejected, None, None) else old(tables)
    {
      if i !in tables.insights || tables.insights[i].status != Draft {
        return Refused;
      }
      tables := SetStatus(tables, i, Rejected, None, None);
      return Accepted(None);
    }

    /**
     * Recovery at start-up over the listed insights (at most 100 are listed): each one listed as confirming leaves
     * that state, for confirmed exactly when its case was recorded, and everything else stays.
     */
    method ReconcileChatState(listed: seq<InsightId>)
      requires Valid()
      requires forall k | 0 <= k < |listed| ::
        listed[k] in tables.insights && tables.insights[listed[k]].status == Confirming
      requires forall j, k | 0 <= j < k < |listed| :: listed[j] != listed[k]
      modifies this
      ensures Valid() && tables.cases == old(tables.cases) && tables.insights.Keys == old(tables.insights).Keys
      ensures forall k | 0 <= k < |listed| :: Reconciled(old(tables), tables, listed[k])
      ensures forall i | i in tables.insights && i !in listed :: tables.insights[i] == old(tables.insights)[i]
    {
      hide CaseOf;
      for n := 0 to |listed|
        invariant Valid() && tables.cases == old(tables.cases) && tables.insights.Keys == old(tables.insights).Keys
        invariant forall k | 0 <= k < n :: Reconciled(old(tables), tables, listed[k])
        invariant forall i | i in tables.insights && i !in listed[..n] :: tables.insights[i] == old(tables.insights)[i]
      {
        var i := listed[n];
        assert listed[..n + 1] == listed[..n] + [i];
        assert i !in listed[..n];
        var caseId := CaseOf(tables.cases, i);
        if caseId.Some? {
          tables := SetStatus(tables, i, Confirmed, tables.insights[i].confirmedBy, caseId);
        } else {
          tables := SetStatus(tables, i, Draft, None, None);
        }
      }
    }
  }

  /** Confirmed with its case if there is one, otherwise back to draft; the content is kept. */
  predicate Reconciled(before: Tables, after: Tables, i: InsightId) {
    && i in before.insights && i in after.insights
    && after.insights[i].content == before.insights[i].content
    && after.insights[i].caseId == CaseOf(before.cases, i)
    && after.insights[i].status == if CaseOf(before.cases, i).Some? then Confirmed else Draft
  }

  lemma SameCase(cases: seq<Case>, caseId: Option<nat>, i: InsightId)
    requires OneCaseEach(cases) && Names(cases, caseId, i)
    ensures caseId == CaseOf(cases, i)
  {
    var found := CaseOf(cases, i);
    assert !(found.value < caseId.value) && !(caseId.value < found.value);
  }
}
