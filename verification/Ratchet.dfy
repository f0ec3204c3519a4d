/** Prompt evolution: the activation gates, and what they guarantee over any number of proposals. */
module Ratchet {
  import opened Models
  import opened Replay

  datatype Settings = Settings(
    minCases: nat, minHoldoutCases: nat, minImprovement: real, maxRegression: real, qualityGates: bool,
      production: bool)

  /**
   * The fixed datasets with a deterministic evaluator: the metrics of every prompt on the validation and the holdout
   * cases, the safety check and the quality gates of a candidate against a baseline.
   */
  datatype Bench = Bench(
    configured: bool, cases: nat, holdoutCases: nat, validation: string -> Metrics, holdout: string -> Metrics,
    safe: string -> bool, quality: (string, string) -> bool)

  const EMPTY := Metrics(0.0, 0.0, 0.0, 0.0, 0.0, 0.0, 0.0, 0.0, 0.0, 0, 0, 0)

  datatype Decision = Deferred | Rejected | Validated | Activated

  /** No protected metric of the candidate is more than `slack` below the baseline's. */
  predicate NonRegressing(candidate: Metrics, baseline: Metrics, slack: real) {
    && candidate.score + slack >= baseline.score
    && candidate.precision + slack >= baseline.precision
    && candidate.recall + slack >= baseline.recall
    && candidate.highSeverityRecall + slack >= baseline.highSeverityRecall
    && (baseline.positiveCases > 0 ==> candidate.severityAccuracy + slack >= baseline.severityAccuracy)
    && (baseline.cleanCases > 0 ==> candidate.cleanAccuracy + slack >= baseline.cleanAccuracy)
  }

  datatype Version = Version(prompt: string, score: real)

  /** The saved versions and which one is active. */
  datatype Store = Store(versions: seq<Version>, active: Option<nat>) {
    ghost predicate Valid() {
      active.Some? ==> active.value < |versions|
    }

    /** The prompt new candidates are measured against. */
    function Baseline(standard: string): string
      requires Valid()
    {
      if active.Some? then versions[active.value].prompt else standard
    }
  }

  /** The gates, for a candidate that is evaluated. */
  predicate Improves(bench: Bench, settings: Settings, candidate: string, baseline: string) {
    var c, b := bench.validation(candidate), bench.validation(baseline);
    var ch, bh := Holdout(bench, candidate), Holdout(bench, baseline);
    && c.errors == 0 && b.errors == 0 && ch.errors == 0 && bh.errors == 0
    && c.score >= b.score + settings.minImprovement
    && NonRegressing(c, b, settings.maxRegression)
    && NonRegressing(ch, bh, settings.maxRegression)
    && (settings.qualityGates ==> bench.quality(candidate, baseline))
  }

  function Holdout(bench: Bench, prompt: string): Metrics {
    if bench.holdoutCases > 0 then bench.holdout(prompt) else EMPTY
  }

  /** Whether the candidate gets as far as being evaluated. */
  predicate Evaluated(bench: Bench, settings: Settings, candidate: string) {
    bench.safe(candidate) && bench.configured && bench.cases >= settings.minCases
      && bench.holdoutCases >= settings.minHoldoutCases
  }

  class EvolutionEngine {
    const bench: Bench
    const settings: Settings
    const standard: string
    var store: Store

    constructor (bench: Bench, settings: Settings, standard: string)
      ensures this.bench == bench && this.settings == settings && this.standard == standard && store == Store([], None)
    {
      this.bench, this.settings, this.standard, store := bench, settings, standard, Store([], None);
    }

    method Propose(prompt: string) returns (decision: Decision)
      requires store.Valid()
      modifies this`store
      ensures store.Valid() && decision == DecisionOn(bench, settings, old(store), standard, prompt)
      ensures store == Proposed(bench, settings, old(store), standard, prompt)
    {
      if store.active.Some? && Strip(prompt) == Strip(store.versions[store.active.value].prompt) {
        return Deferred;
      }
      var baseline := store.Baseline(standard);
      var candidateScore := 0.0;
      decision := Deferred;
      if !bench.safe(prompt) {
        decision := Rejected;
      } else if bench.configured && bench.cases >= settings.minCases && bench.holdoutCases >= settings.minHoldoutCases {
        var baselineMetrics, candidateMetrics := bench.validation(baseline), bench.validation(prompt);
        var baselineHoldout, candidateHoldout := EMPTY, EMPTY;
        if bench.holdoutCases > 0 {
          baselineHoldout, candidateHoldout := bench.holdout(baseline), bench.holdout(prompt);
        }
        candidateScore := candidateMetrics.score;
        var noErrors := !(baselineMetrics.errors > 0 || candidateMetrics.errors > 0 || baselineHoldout.errors > 0
          || candidateHoldout.errors > 0);
        var improved := candidateMetrics.score >= baselineMetrics.score + settings.minImprovement;
        var validationSafe := NonRegressing(candidateMetrics, baselineMetrics, settings.maxRegression);
        var holdoutSafe := NonRegressing(candidateHoldout, baselineHoldout, settings.maxRegression);
        var qualityEnforced := settings.qualityGates && !bench.quality(prompt, baseline);
        decision := if noErrors && improved && validationSafe && holdoutSafe && !qualityEnforced then Activated
          else Rejected;
      }
      if settings.production && decision == Activated {
        decision := Validated;
      }
      var versions := store.versions + [Version(Strip(prompt), candidateScore)];
      store := Store(versions, if decision == Activated then Some(|versions| - 1) else store.active);
    }

    /** Any sequence of proposals. */
    method ProposeAll(prompts: seq<string>) returns (activations: nat)
      requires store.Valid()
      modifies this`store
      ensures store.Valid() && (store, activations) == After(bench, settings, old(store), standard, prompts)
    {
      activations := 0;
      for i := 0 to |prompts|
        invariant store.Valid() && (store, activations) == After(bench, settings, old(store), standard, prompts[..i])
      {
        assert prompts[..i + 1][..i] == prompts[..i];
        var decision := Propose(prompts[i]);
        if decision == Activated {
          activations := activations + 1;
        }
      }
      assert prompts[..|prompts|] == prompts;
    }
  }

  // ---- One proposal and many ------------------------------------------------------------

  function DecisionOn(bench: Bench, settings: Settings, store: Store, standard: string, prompt: string): Decision
    requires store.Valid()
  {
    if store.active.Some? && Strip(prompt) == Strip(store.Baseline(standard)) then Deferred
    else if !bench.safe(prompt) then Rejected
    else if !Evaluated(bench, settings, prompt) then Deferred
    else if !Improves(bench, settings, prompt, store.Baseline(standard)) then Rejected
    else if settings.production then Validated
    else Activated
  }

  function Proposed(bench: Bench, settings: Settings, store: Store, standard: string, prompt: string): (after: Store)
    requires store.Valid()
    ensures after.Valid()
  {
    if store.active.Some? && Strip(prompt) == Strip(store.Baseline(standard)) then store
    else
      var score := if Evaluated(bench, settings, prompt) then bench.validation(prompt).score else 0.0;
      var versions := store.versions + [Version(Strip(prompt), score)];
      Store(versions, if DecisionOn(bench, settings, store, standard, prompt) == Activated then Some(|store.versions|)
        else store.active)
  }

  /** The store after a sequence of proposals, and how many of them were activated. */
  function After(bench: Bench, settings: Settings, store: Store, standard: string,
                 prompts: seq<string>): (r: (Store, nat))
    requires store.Valid()
    ensures r.0.Valid()
  {
    if prompts == [] then (store, 0)
    else
      var before := After(bench, settings, store, standard, prompts[..|prompts| - 1]);
      var prompt := prompts[|prompts| - 1];
      (Proposed(bench, settings, before.0, standard, prompt),
       before.1 + (if DecisionOn(bench, settings, before.0, standard, prompt) == Activated then 1 else 0))
  }

  // ---- The ratchet ----------------------------------------------------------------------------

  ghost predicate SameCounts(metrics: string -> Metrics) {
    forall p, q :: Counts(metrics(p)) == Counts(metrics(q))
  }

  function Counts(m: Metrics): (nat, nat) {
    (m.positiveCases, m.cleanCases)
  }

  ghost predicate Scored(metrics: string -> Metrics) {
    forall p :: InUnit(metrics(p).score)
  }

  /** Proposals without white space around them, which are stored just as they are evaluated. */
  predicate Trimmed(prompts: seq<string>) {
    forall p | p in prompts :: Strip(p) == p
  }

  lemma LossesAdd(a: Metrics, b: Metrics, c: Metrics, x: real, y: real)
    requires NonRegressing(a, b, x) && NonRegressing(b, c, y) && Counts(b) == Counts(c)
    ensures NonRegressing(a, c, x + y)
  {
  }

  function Times(k: nat, x: real): real {
    k as real * x
  }

  /** After `k` activations the active prompt's validation score is up by `k` times the least improvement. */
  ghost predicate Raised(bench: Bench, settings: Settings, before: string, after: string, k: nat) {
    && bench.validation(after).score >= bench.validation(before).score + Times(k, settings.minImprovement)
    && NonRegressing(bench.validation(after), bench.validation(before), Times(k, settings.maxRegression))
    && NonRegressing(Holdout(bench, after), Holdout(bench, before), Times(k, settings.maxRegression))
  }

  lemma OneMoreTime(k: nat, x: real)
    ensures Times(k + 1, x) == Times(k, x) + x
  {
  }

  /** What the gates check of a candidate, against the baseline and so against where it all started. */
  lemma CandidateRaises(bench: Bench, settings: Settings, start: string, baseline: string, prompt: string, k: nat)
    requires SameCounts(bench.validation) && SameCounts(bench.holdout)
    requires Raised(bench, settings, start, baseline, k) && Improves(bench, settings, prompt, baseline)
    ensures Raised(bench, settings, start, prompt, k + 1)
  {
    OneMoreTime(k, settings.minImprovement);
    OneMoreTime(k, settings.maxRegression);
    assert Counts(bench.validation(baseline)) == Counts(bench.validation(start));
    assert Counts(Holdout(bench, baseline)) == Counts(Holdout(bench, start));
    hide NonRegressing, Holdout, Counts, Times;
    var slack := Times(k, settings.maxRegression);
    LossesAdd(bench.validation(prompt), bench.validation(baseline), bench.validation(start), settings.maxRegression,
      slack);
    LossesAdd(Holdout(bench, prompt), Holdout(bench, baseline), Holdout(bench, start), settings.maxRegression, slack);
  }

  lemma ProposalRaises(bench: Bench, settings: Settings, start: string, store: Store, standard: string, prompt: string,
                       k: nat)
    requires store.Valid() && SameCounts(bench.validation) && SameCounts(bench.holdout) && Strip(prompt) == prompt
    requires Raised(bench, settings, start, store.Baseline(standard), k)
    ensures var more := if DecisionOn(bench, settings, store, standard, prompt) == Activated then 1 else 0;
      Raised(bench, settings, start, Proposed(bench, settings, store, standard, prompt).Baseline(standard), k + more)
  {
    var activated := DecisionOn(bench, settings, store, standard, prompt) == Activated;
    if activated {
      CandidateRaises(bench, settings, start, store.Baseline(standard), prompt, k);
    }
    hide Raised, SameCounts, Strip, Improves, Evaluated;
    assert !activated ==>
      Proposed(bench, settings, store, standard, prompt).Baseline(standard) == store.Baseline(standard);
  }

  lemma {:induction false} RunRaises(bench: Bench, settings: Settings, store: Store, standard: string,
                                     prompts: seq<string>)
    requires store.Valid() && SameCounts(bench.validation) && SameCounts(bench.holdout) && Trimmed(prompts)
    ensures var r := After(bench, settings, store, standard, prompts);
      Raised(bench, settings, store.Baseline(standard), r.0.Baseline(standard), r.1)
  {
    if prompts == [] {
      NothingRaised(bench, settings, store.Baseline(standard));
    } else {
      var before := After(bench, settings, store, standard, prompts[..|prompts| - 1]);
      var prompt := prompts[|prompts| - 1];
      TrimmedParts(prompts);
      hide Raised, SameCounts, Strip, Trimmed, DecisionOn, Proposed, Store.Baseline;
      RunRaises(bench, settings, store, standard, prompts[..|prompts| - 1]);
      ProposalRaises(bench, settings, store.Baseline(standard), before.0, standard, prompt, before.1);
    }
  }

  /**
   * Over any sequence of proposals, every activation puts the validation score up by the least
   * improvement, and takes at most the tolerated loss from each protected metric of the validation
   * and of the holdout cases.
   */
  lemma EachActivationRaises(bench: Bench, settings: Settings, store: Store, standard: string, prompts: seq<string>)
    requires store.Valid() && SameCounts(bench.validation) && SameCounts(bench.holdout) && Trimmed(prompts)
    ensures
      var r := After(bench, settings, store, standard, prompts);
      var first, last := store.Baseline(standard), r.0.Baseline(standard);
      var before, after := bench.validation(first), bench.validation(last);
      var before', after' := Holdout(bench, first), Holdout(bench, last);
      var gain, loss := Times(r.1, settings.minImprovement), Times(r.1, settings.maxRegression);
      && after.score >= before.score + gain
      && after.score >= before.score - loss && after'.score >= before'.score - loss
      && after.precision >= before.precision - loss && after'.precision >= before'.precision - loss
      && after.recall >= before.recall - loss && after'.recall >= before'.recall - loss
      && after.highSeverityRecall >= before.highSeverityRecall - loss
      && after'.highSeverityRecall >= before'.highSeverityRecall - loss
      && (before.positiveCases > 0 ==> after.severityAccuracy >= before.severityAccuracy - loss)
      && (before'.positiveCases > 0 ==> after'.severityAccuracy >= before'.severityAccuracy - loss)
      && (before.cleanCases > 0 ==> after.cleanAccuracy >= before.cleanAccuracy - loss)
      && (before'.cleanCases > 0 ==> after'.cleanAccuracy >= before'.cleanAccuracy - loss)
  {
    var r := After(bench, settings, store, standard, prompts);
    RunRaises(bench, settings, store, standard, prompts);
    hide SameCounts, Trimmed, After, Holdout, Store.Baseline, Times, Strip;
    assert Raised(bench, settings, store.Baseline(standard), r.0.Baseline(standard), r.1);
  }

  /**
   * The gates of one proposal, both ways: it is activated exactly if it is new, safe, measured on
   * datasets that are ready and without errors, better by the least improvement, within the
   * tolerance on each protected metric of both datasets, and passed by the quality gates if they
   * are on; in production it is only validated.
   */
  lemma ActivatedExactly(bench: Bench, settings: Settings, store: Store, standard: string, prompt: string)
    requires store.Valid()
    ensures
      var b := store.Baseline(standard);
      var before, after := bench.validation(b), bench.validation(prompt);
      var before', after' := Holdout(bench, b), Holdout(bench, prompt);
      var loss := settings.maxRegression;
      DecisionOn(bench, settings, store, standard, prompt) in {Validated, Activated} <==>
        && (store.active.None? || Strip(prompt) != Strip(b))
        && bench.safe(prompt) && bench.configured
        && bench.cases >= settings.minCases && bench.holdoutCases >= settings.minHoldoutCases
        && before.errors == after.errors == before'.errors == after'.errors == 0
        && after.score >= before.score + settings.minImprovement
        && after.score >= before.score - loss && after'.score >= before'.score - loss
        && after.precision >= before.precision - loss && after'.precision >= before'.precision - loss
        && after.recall >= before.recall - loss && after'.recall >= before'.recall - loss
        && after.highSeverityRecall >= before.highSeverityRecall - loss
        && after'.highSeverityRecall >= before'.highSeverityRecall - loss
        && (before.positiveCases > 0 ==> after.severityAccuracy >= before.severityAccuracy - loss)
        && (before'.positiveCases > 0 ==> after'.severityAccuracy >= before'.severityAccuracy - loss)
        && (before.cleanCases > 0 ==> after.cleanAccuracy >= before.cleanAccuracy - loss)
        && (before'.cleanCases > 0 ==> after'.cleanAccuracy >= before'.cleanAccuracy - loss)
        && (settings.qualityGates ==> bench.quality(prompt, b))
    ensures DecisionOn(bench, settings, store, standard, prompt) == Validated ==> settings.production
    ensures DecisionOn(bench, settings, store, standard, prompt) == Activated ==> !settings.production
  {
    hide Strip, Store.Baseline, Holdout;
  }

  /** After a proposal the proposed prompt without its white space is active if it was activated, else what was. */
  lemma ActiveAfter(bench: Bench, settings: Settings, store: Store, standard: string, prompt: string)
    requires store.Valid()
    ensures Proposed(bench, settings, store, standard, prompt).Baseline(standard)
         == if DecisionOn(bench, settings, store, standard, prompt) == Activated then Strip(prompt)
            else store.Baseline(standard)
  {
    hide Strip, Improves, Evaluated;
  }

  lemma TrimmedParts(prompts: seq<string>)
    requires Trimmed(prompts) && prompts != []
    ensures Trimmed(prompts[..|prompts| - 1]) && Strip(prompts[|prompts| - 1]) == prompts[|prompts| - 1]
  {
    hide Strip;
    assert prompts[|prompts| - 1] in prompts;
  }

  lemma NothingRaised(bench: Bench, settings: Settings, prompt: string)
    ensures Raised(bench, settings, prompt, prompt, 0)
  {
  }

  /** So with a positive least improvement there are only so many activations, however many proposals are made. */
  lemma ActivationsBounded(bench: Bench, settings: Settings, store: Store, standard: string, prompts: seq<string>)
    requires store.Valid() && SameCounts(bench.validation) && SameCounts(bench.holdout) && Trimmed(prompts)
    requires Scored(bench.validation) && settings.minImprovement > 0.0
    ensures After(bench, settings, store, standard, prompts).1 as real <= 1.0 / settings.minImprovement
  {
    var start, r := store.Baseline(standard), After(bench, settings, store, standard, prompts);
    var end := r.0.Baseline(standard);
    RunRaises(bench, settings, store, standard, prompts);
    ScoresInUnit(bench, start, end);
    hide *;
    RaisedScore(bench, settings, start, end, r.1);
    Quotient(r.1, settings.minImprovement);
  }

  lemma ScoresInUnit(bench: Bench, p: string, q: string)
    requires Scored(bench.validation)
    ensures 0.0 <= bench.validation(p).score <= 1.0 && 0.0 <= bench.validation(q).score <= 1.0
  {
    assert InUnit(bench.validation(p).score) && InUnit(bench.validation(q).score);
  }

  lemma RaisedScore(bench: Bench, settings: Settings, before: string, after: string, k: nat)
    requires Raised(bench, settings, before, after, k)
    ensures bench.validation(after).score >= bench.validation(before).score + Times(k, settings.minImprovement)
  {
  }

  lemma Quotient(k: nat, x: real)
    requires x > 0.0 && Times(k, x) <= 1.0
    ensures k as real <= 1.0 / x
  {
    if k as real > 1.0 / x {
      LargerProduct(k as real, 1.0 / x, x);
    }
  }

  /** Stored prompts are trimmed, and so is the baseline once the standard prompt is. */
  lemma {:induction false} BaselineTrimmed(bench: Bench, settings: Settings, store: Store, standard: string,
                                           prompts: seq<string>)
    requires store.Valid() && Strip(store.Baseline(standard)) == store.Baseline(standard)
    ensures var b := After(bench, settings, store, standard, prompts).0.Baseline(standard); Strip(b) == b
  {
    hide Strip, DecisionOn;
    if prompts != [] {
      BaselineTrimmed(bench, settings, store, standard, prompts[..|prompts| - 1]);
      StripTwice(prompts[|prompts| - 1]);
    }
  }

  // ---- Proposals with white space around them -------------------------------------------------

  /** Settings under which something can be activated at all. */
  predicate Passable(settings: Settings) {
    0.0 < settings.minImprovement < 1.0 && settings.maxRegression >= 0.0 && !settings.production
  }

  predicate IsActivePrompt(store: Store, standard: string, prompt: string)
    requires store.Valid()
  {
    store.active.Some? && Strip(prompt) == Strip(store.Baseline(standard))
  }

  /** An activation of this prompt leaves the active validation score up by the least improvement. */
  ghost predicate Raises(bench: Bench, settings: Settings, store: Store, standard: string, prompt: string)
    requires store.Valid()
  {
    var after := Proposed(bench, settings, store, standard, prompt).Baseline(standard);
    DecisionOn(bench, settings, store, standard, prompt) == Activated ==>
      bench.validation(after).score >= bench.validation(store.Baseline(standard)).score + settings.minImprovement
  }

  /** Datasets and an evaluator beside a given safety check, which the code fixes. */
  ghost predicate FairBench(bench: Bench, safe: string -> bool) {
    bench.safe == safe && SameCounts(bench.validation) && SameCounts(bench.holdout) && Scored(bench.validation)
  }

  /**
   * Activation is decided on the prompt as proposed and leaves its stripped form active.  So for every prompt with
   * white space around it that the safety check lets through, some evaluator lets its activation lower the active
   * score.
   */
  lemma UntrimmedLowers(settings: Settings, store: Store, standard: string, prompt: string, safe: string -> bool)
    returns (bench: Bench)
    requires Passable(settings) && store.Valid() && Strip(store.Baseline(standard)) == store.Baseline(standard)
    requires Strip(prompt) != prompt && !IsActivePrompt(store, standard, prompt) && safe(prompt)
    ensures FairBench(bench, safe) && DecisionOn(bench, settings, store, standard, prompt) == Activated
    ensures !Raises(bench, settings, store, standard, prompt)
    ensures var after := Proposed(bench, settings, store, standard, prompt).Baseline(standard);
      Strip(prompt) != store.Baseline(standard) ==>
        bench.validation(after).score < bench.validation(store.Baseline(standard)).score
  {
    hide Strip;
    var baseline := store.Baseline(standard);
    var high, middle, low := EMPTY.(score := 1.0), EMPTY.(score := 1.0 - settings.minImprovement), EMPTY;
    bench := Bench(
      true, settings.minCases, settings.minHoldoutCases,
      p => if p == prompt then high else if p == baseline then middle else low, p => EMPTY,
      safe, (p, q) => true);
    assert Proposed(bench, settings, store, standard, prompt).Baseline(standard) == Strip(prompt);
  }

  /**
   * Whatever the evaluator, a prompt raises the active score when activated exactly if it is trimmed, already active,
   * or refused by the safety check.
   */
  lemma RaisesExactly(settings: Settings, store: Store, standard: string, prompt: string, safe: string -> bool)
    requires Passable(settings) && store.Valid() && Strip(store.Baseline(standard)) == store.Baseline(standard)
    ensures (forall bench | FairBench(bench, safe) :: Raises(bench, settings, store, standard, prompt))
         == (Strip(prompt) == prompt || IsActivePrompt(store, standard, prompt) || !safe(prompt))
  {
    hide Strip;
    if Strip(prompt) == prompt || IsActivePrompt(store, standard, prompt) || !safe(prompt) {
      forall bench | FairBench(bench, safe)
        ensures Raises(bench, settings, store, standard, prompt)
      {
        if safe(prompt) {
          TrimmedRaises(bench, settings, store, standard, prompt);
        } else {
          UnsafeRaises(bench, settings, store, standard, prompt);
        }
      }
    } else {
      hide DecisionOn;
      var bench := UntrimmedLowers(settings, store, standard, prompt, safe);
      hide Raises, Passable, IsActivePrompt;
      assert !Raises(bench, settings, store, standard, prompt);
    }
  }

  /** What the safety check refuses is never activated. */
  lemma UnsafeRaises(bench: Bench, settings: Settings, store: Store, standard: string, prompt: string)
    requires store.Valid() && !bench.safe(prompt)
    ensures Raises(bench, settings, store, standard, prompt)
  {
    hide Strip;
  }

  lemma TrimmedRaises(bench: Bench, settings: Settings, store: Store, standard: string, prompt: string)
    requires store.Valid() && (Strip(prompt) == prompt || IsActivePrompt(store, standard, prompt))
    ensures Raises(bench, settings, store, standard, prompt)
  {
    hide Strip;
  }
}
