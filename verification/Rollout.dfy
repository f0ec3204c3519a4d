/** Canary and shadow deployments: traffic, error budget, promotion and rollback. */
module Rollout {
  import opened Models

  datatype Status = Running | Active | RolledBack | Promoted

  datatype Deployment = Deployment(
    stableVersion: int, candidateVersion: int, canaryPercent: int, shadowPercent: int,
    maxErrorRate: real, minSamples: int, maxDisagreementRate: real, autoPromote: bool, status: Status, paused: bool,
    samples: nat, errors: nat, shadowSamples: nat, disagreements: nat)

  // ---- Stages -------------------------------------------------------------------------

  datatype Stage = Stage(percent: int, minTasks: Option<nat>)

  const STAGES := [Stage(5, Some(50)), Stage(20, Some(200)), Stage(50, Some(500)), Stage(100, None)]

  /** The first stage above the current percentage. */
  method NextStage(current: int) returns (stage: Option<Stage>)
    ensures stage == StageAbove(current)
  {
    for i := 0 to |STAGES|
      invariant forall k | 0 <= k < i :: current >= STAGES[k].percent
    {
      if current < STAGES[i].percent {
        return Some(STAGES[i]);
      }
    }
    return None;
  }

  function StageAbove(current: int): Option<Stage> {
    if current < 5 then Some(STAGES[0])
    else if current < 20 then Some(STAGES[1])
    else if current < 50 then Some(STAGES[2])
    else if current < 100 then Some(STAGES[3])
    else None
  }

  /** The stages are 5, 20, 50 and 100 per cent, for 50, 200, 500 and no tasks; the next is the least one above. */
  lemma StageExactly(current: int)
    ensures var stage := StageAbove(current);
      && (stage.Some? <==> current < 100)
      && (stage.Some? ==>
            var percent := stage.value.percent;
            && IsStage(percent) && current < percent
            && (forall other | IsStage(other) && current < other :: percent <= other)
            && (percent < 100 ==> stage.value.minTasks == Some(10 * percent))
            && (percent == 100 ==> stage.value.minTasks == None))
  {
  }

  predicate ShouldAdvance(current: int, tasks: int, gatesPassed: bool) {
    var stage := StageAbove(current);
    stage.Some? && (stage.value.minTasks.Some? ==> tasks >= stage.value.minTasks.value) && gatesPassed
  }

  /** The last step, to full traffic, asks for the gates only, however few tasks have been seen. */
  lemma LastStageNeedsNoTasks(current: int, tasks: int)
    ensures (forall t: int :: ShouldAdvance(current, t, true)) <==> 50 <= current < 100
  {
    assert ShouldAdvance(current, -1, true) <==> 50 <= current < 100;
  }

  // ---- Requests, as functions on one deployment --------------------------------------------

  datatype Config = Config(
    stableVersion: int, candidateVersion: Option<int>, canaryPercent: int, shadowPercent: int,
    maxErrorRate: real, minSamples: int, maxDisagreementRate: real, autoPromote: bool, status: Status)

  /** The requests that are one statement of the store; advancing is not. */
  datatype Request =
    | Configure(config: Config)
    | Pause
    | Resume
    | Rollback
    | Observe(failed: bool, canaryLane: bool)
    | ObserveShadow(disagreement: real, candidateFailed: bool)

  predicate Accepted(c: Config) {
    0 <= c.canaryPercent <= 100 && 0 <= c.shadowPercent <= 100 && c.candidateVersion.Some?
  }

  /** Saving a configuration resets the counters but not the pause. */
  function Configured(c: Config, paused: bool): Deployment
    requires Accepted(c)
  {
    Deployment(
      c.stableVersion, c.candidateVersion.value, c.canaryPercent, c.shadowPercent, c.maxErrorRate, c.minSamples,
      c.maxDisagreementRate, c.autoPromote, c.status, paused, 0, 0, 0, 0)
  }

  function Rate(part: nat, whole: nat): real {
    if whole == 0 then 0.0 else part as real / whole as real
  }

  predicate OverBudget(d: Deployment) {
    d.samples >= d.minSamples && Rate(d.errors, d.samples) > d.maxErrorRate
  }

  function Stopped(d: Deployment, status: Status): Deployment {
    d.(status := status, canaryPercent := 0, shadowPercent := 0)
  }

  predicate MayAdvance(d: Deployment, tasks: int, gatesPassed: bool) {
    d.status == Running && !d.paused && ShouldAdvance(d.canaryPercent, tasks, gatesPassed)
  }

  /** The write of an advance, which does not look at the deployment again. */
  function Put(d: Deployment, percent: int): Deployment {
    d.(canaryPercent := percent, status := if percent >= 100 then Active else d.status)
  }

  /** An advance with nothing between its read and its write. */
  function Advanced(d: Deployment, tasks: int, gatesPassed: bool): Deployment {
    if MayAdvance(d, tasks, gatesPassed) then Put(d, StageAbove(d.canaryPercent).value.percent) else d
  }

  function Observed(d: Deployment, failed: bool): Deployment {
    var counted := d.(samples := d.samples + 1, errors := d.errors + (if failed then 1 else 0));
    if counted.status == Running && OverBudget(counted) then Stopped(counted, RolledBack) else counted
  }

  predicate Promotable(d: Deployment, candidateFailed: bool) {
    && d.status == Running && d.autoPromote && d.shadowSamples >= d.minSamples
    && Rate(d.disagreements, d.shadowSamples) <= d.maxDisagreementRate
    && Rate(d.errors, d.samples) <= d.maxErrorRate
    && !candidateFailed
  }

  function ShadowObserved(d: Deployment, disagreement: real, candidateFailed: bool): Deployment {
    var counted := d.(
      shadowSamples := d.shadowSamples + 1, disagreements := d.disagreements + (if disagreement > 0.0 then 1 else 0));
    if Promotable(counted, candidateFailed) then Stopped(counted, Promoted).(stableVersion := counted.candidateVersion)
      else counted
  }

  function Served(d: Deployment, r: Request): Deployment {
    match r
    case Configure(c) => if Accepted(c) then Configured(c, d.paused) else d
    case Pause => d.(paused := true)
    case Resume => d.(paused := false)
    case Rollback => Stopped(d, RolledBack)
    case Observe(failed, canaryLane) => if canaryLane then Observed(d, failed) else d
    case ObserveShadow(disagreement, candidateFailed) => ShadowObserved(d, disagreement, candidateFailed)
  }

  // ---- The release manager -------------------------------------------------------------------

  class ReleaseManager {
    var table: map<string, Deployment>

    constructor ()
      ensures table == map[]
    {
      table := map[];
    }

    ghost predicate Valid()
      reads this
    {
      forall k | k in table :: Sound(table[k])
    }

    method ConfigureDeployment(key: string, c: Config) returns (ok: bool)
      requires Valid()
      modifies this`table
      ensures Valid() && (ok <==> Accepted(c))
      ensures ok ==> table == old(table)[key := Configured(c, key in old(table) && old(table)[key].paused)]
      ensures !ok ==> table == old(table)
    {
      if !(0 <= c.canaryPercent <= 100) || !(0 <= c.shadowPercent <= 100) || c.candidateVersion.None? {
        return false;
      }
      hide Rate;
      var paused := key in table && table[key].paused;
      table := table[key := Configured(c, paused)];
      return true;
    }

    /** The read of an advance: the stage to go to, if the canary may go on. */
    method ReadStage(key: string, tasks: int, gatesPassed: bool) returns (percent: Option<int>)
      ensures percent == if key in table && MayAdvance(table[key], tasks, gatesPassed)
                         then Some(StageAbove(table[key].canaryPercent).value.percent) else None
    {
      if key !in table || table[key].status != Running || table[key].paused {
        return None;
      }
      var stage := NextStage(table[key].canaryPercent);
      if stage.None? || (stage.value.minTasks.Some? && tasks < stage.value.minTasks.value) || !gatesPassed {
        return None;
      }
      return Some(stage.value.percent);
    }

    /** Its unguarded write. */
    method WriteStage(key: string, percent: int)
      requires Valid() && IsStage(percent)
      modifies this`table
      ensures Valid()
      ensures table == if key in old(table) then old(table)[key := Put(old(table)[key], percent)] else old(table)
    {
      if key in table {
        PutKeepsSound(table[key], percent);
        var d := table[key].(canaryPercent := percent);
        if percent >= 100 {
          d := d.(status := Active);
        }
        table := table[key := d];
      }
    }

    /** An advance that nothing comes in between of. */
    method AdvanceCanary(key: string, tasks: int, gatesPassed: bool) returns (advanced: bool)
      requires Valid()
      modifies this`table
      ensures Valid() && (advanced <==> table != old(table))
      ensures table == if key in old(table) then old(table)[key := Advanced(old(table)[key], tasks, gatesPassed)]
                       else old(table)
    {
      var percent := ReadStage(key, tasks, gatesPassed);
      if percent.None? {
        return false;
      }
      WriteStage(key, percent.value);
      assert table[key].canaryPercent != old(table)[key].canaryPercent;
      return true;
    }

    method SetPaused(key: string, paused: bool) returns (ok: bool)
      requires Valid()
      modifies this`table
      ensures Valid() && Serves(old(table), table, key, if paused then Pause else Resume) && (ok <==> key in old(table))
    {
      if key !in table {
        return false;
      }
      RequestKeepsSound(table[key], if paused then Pause else Resume);
      table := table[key := table[key].(paused := paused)];
      return true;
    }

    method RollBack(key: string) returns (ok: bool)
      requires Valid()
      modifies this`table
      ensures Valid() && Serves(old(table), table, key, Rollback) && (ok <==> key in old(table))
    {
      if key !in table {
        return false;
      }
      RequestKeepsSound(table[key], Rollback);
      table := table[key := table[key].(status := RolledBack, canaryPercent := 0, shadowPercent := 0)];
      return true;
    }

    method RecordResult(key: string, failed: bool, canaryLane: bool) returns (alert: bool)
      requires Valid()
      modifies this`table
      ensures Valid() && Serves(old(table), table, key, Observe(failed, canaryLane))
      ensures alert <==> canaryLane && key in table && table[key].status == RolledBack
    {
      if !canaryLane || key !in table {
        return false;
      }
      RequestKeepsSound(table[key], Observe(failed, canaryLane));
      var d := table[key].(samples := table[key].samples + 1, errors := table[key].errors + (if failed then 1 else 0));
      if d.status == Running && d.samples >= d.minSamples && d.errors as real / d.samples as real > d.maxErrorRate {
        d := d.(status := RolledBack, canaryPercent := 0, shadowPercent := 0);
      }
      table := table[key := d];
      return d.status == RolledBack;
    }

    method RecordShadow(key: string, disagreement: real, candidateFailed: bool)
      requires Valid()
      modifies this`table
      ensures Valid() && Serves(old(table), table, key, ObserveShadow(disagreement, candidateFailed))
    {
      if key !in table {
        return;
      }
      RequestKeepsSound(table[key], ObserveShadow(disagreement, candidateFailed));
      var d := table[key];
      d := d.(
        shadowSamples := d.shadowSamples + 1, disagreements := d.disagreements + (if disagreement > 0.0 then 1 else 0));
      if && d.status == Running && d.autoPromote && d.shadowSamples >= d.minSamples
         && d.disagreements as real / d.shadowSamples as real <= d.maxDisagreementRate
         && (if d.samples == 0 then 0.0 else d.errors as real / d.samples as real) <= d.maxErrorRate
         && !candidateFailed {
        d := d.(status := Promoted, stableVersion := d.candidateVersion, canaryPercent := 0, shadowPercent := 0);
      }
      table := table[key := d];
    }
  }

  /** One request changes its own deployment as specified, and nothing without a deployment. */
  ghost predicate Serves(before: map<string, Deployment>, after: map<string, Deployment>, key: string, r: Request) {
    after == if key in before then before[key := Served(before[key], r)] else before
  }

  // ---- What every request keeps -----------------------------------------------------------------

  ghost predicate Sound(d: Deployment) {
    && d.errors <= d.samples && d.disagreements <= d.shadowSamples
    && 0 <= d.canaryPercent <= 100 && 0 <= d.shadowPercent <= 100
    && (d.status == Running ==> d.samples < d.minSamples || WithinRate(d.errors, d.samples, d.maxErrorRate))
  }

  predicate WithinRate(part: nat, whole: nat, most: real) {
    part as real <= most * whole as real
  }

  lemma RateWithin(part: nat, whole: nat, most: real)
    requires whole > 0
    ensures Rate(part, whole) <= most <==> WithinRate(part, whole, most)
  {
    var q := Rate(part, whole);
    assert q * whole as real == part as real;
    if q > most {
      LargerProduct(q, most, whole as real);
    } else if q < most {
      LargerProduct(most, q, whole as real);
    }
  }

  lemma NoneWithin()
    ensures forall most :: WithinRate(0, 0, most)
  {
  }

  predicate IsStage(percent: int) {
    percent in {5, 20, 50, 100}
  }

  lemma PutKeepsSound(d: Deployment, percent: int)
    requires Sound(d) && IsStage(percent)
    ensures Sound(Put(d, percent))
  {
    hide WithinRate;
  }

  /** In particular a running deployment is within its error budget, or has not seen enough samples. */
  lemma RequestKeepsSound(d: Deployment, r: Request)
    requires Sound(d)
    ensures Sound(Served(d, r))
  {
    NoneWithin();
    if r.Observe? && r.canaryLane {
      RateWithin(d.errors + (if r.failed then 1 else 0), d.samples + 1, d.maxErrorRate);
    }
    hide Rate, WithinRate;
  }

  /**
   * A canary result counts one sample and one error if it failed.  Then a running deployment with
   * enough samples and more errors than its rate allows for them is rolled back, and nothing else changes.
   */
  lemma ObservedExactly(d: Deployment, failed: bool)
    ensures
      var after, samples, errors := Observed(d, failed), d.samples + 1, d.errors + if failed then 1 else 0;
      var spent := d.status == Running && samples >= d.minSamples && errors as real > d.maxErrorRate * samples as real;
      after == d.(samples := samples, errors := errors, status := if spent then RolledBack else d.status,
                  canaryPercent := if spent then 0 else d.canaryPercent,
                  shadowPercent := if spent then 0 else d.shadowPercent)
  {
    RateWithin(d.errors + (if failed then 1 else 0), d.samples + 1, d.maxErrorRate);
  }

  /**
   * A shadow observation counts one sample and one disagreement if there was any.  Then a running
   * deployment that may be promoted on its own, with enough samples, few enough disagreements and
   * errors, and no failure of the candidate, serves the candidate, and nothing else changes.
   */
  lemma ShadowObservedExactly(d: Deployment, disagreement: real, candidateFailed: bool)
    requires d.samples == 0 ==> d.maxErrorRate >= 0.0
    ensures
      var after, samples := ShadowObserved(d, disagreement, candidateFailed), d.shadowSamples + 1;
      var disagreements := d.disagreements + if disagreement > 0.0 then 1 else 0;
      var best :=
        && d.status == Running && d.autoPromote && samples >= d.minSamples && !candidateFailed
        && disagreements as real <= d.maxDisagreementRate * samples as real
        && (d.samples > 0 ==> d.errors as real <= d.maxErrorRate * d.samples as real);
      after == d.(shadowSamples := samples, disagreements := disagreements,
                  status := if best then Promoted else d.status,
                  stableVersion := if best then d.candidateVersion else d.stableVersion,
                  canaryPercent := if best then 0 else d.canaryPercent,
                  shadowPercent := if best then 0 else d.shadowPercent)
  {
    RateWithin(d.disagreements + (if disagreement > 0.0 then 1 else 0), d.shadowSamples + 1, d.maxDisagreementRate);
    if d.samples > 0 {
      RateWithin(d.errors, d.samples, d.maxErrorRate);
    }
  }

  /** A configuration replaces everything but the pause, and starts counting from nothing. */
  lemma ConfiguredAfresh(d: Deployment, c: Config)
    requires Accepted(c)
    ensures var after := Served(d, Configure(c));
      && after.paused == d.paused && after.status == c.status
      && after.samples == after.errors == after.shadowSamples == after.disagreements == 0
      && after.stableVersion == c.stableVersion && Some(after.candidateVersion) == c.candidateVersion
      && after.canaryPercent == c.canaryPercent && after.shadowPercent == c.shadowPercent
      && after.maxErrorRate == c.maxErrorRate && after.minSamples == c.minSamples
      && after.maxDisagreementRate == c.maxDisagreementRate && after.autoPromote == c.autoPromote
  {
  }

  // ---- Runs: requests and advances that interleave ----------------------------------------------

  /** A deployment and the advances that have read it and are still to write, by the percentage they will write. */
  datatype Shared = Shared(d: Deployment, pending: multiset<int>)

  /** Die is an advance that never gets to write. */
  datatype Step =
    | Ask(request: Request)
    | Read(tasks: int, gatesPassed: bool)
    | Commit(percent: int)
    | Die(percent: int)

  function Next(s: Shared, step: Step): Shared {
    match step
    case Ask(r) => s.(d := Served(s.d, r))
    case Read(tasks, gatesPassed) =>
      if MayAdvance(s.d, tasks, gatesPassed)
      then s.(pending := s.pending + multiset{StageAbove(s.d.canaryPercent).value.percent}) else s
    case Commit(percent) =>
      if percent in s.pending then Shared(Put(s.d, percent), s.pending - multiset{percent}) else s
    case Die(percent) => s.(pending := s.pending - multiset{percent})
  }

  function After(s: Shared, steps: seq<Step>): Shared {
    if steps == [] then s else Next(After(s, steps[..|steps| - 1]), steps[|steps| - 1])
  }

  lemma AfterOneMore(s: Shared, steps: seq<Step>, step: Step)
    ensures After(s, steps + [step]) == Next(After(s, steps), step)
  {
    assert (steps + [step])[..|steps|] == steps;
  }

  /** A read with its write right behind it is the undivided advance. */
  lemma ReadThenCommit(s: Shared, tasks: int, gatesPassed: bool, percent: int)
    requires MayAdvance(s.d, tasks, gatesPassed) && percent == StageAbove(s.d.canaryPercent).value.percent
    ensures Next(Next(s, Read(tasks, gatesPassed)), Commit(percent))
      == Shared(Advanced(s.d, tasks, gatesPassed), s.pending)
  {
    assert s.pending + multiset{percent} - multiset{percent} == s.pending;
  }

  /** What is kept, however stale the writes: the counters, and the error budget of a running deployment. */
  ghost predicate AllSound(s: Shared) {
    Sound(s.d) && forall percent | percent in s.pending :: IsStage(percent)
  }

  lemma StagesAre(current: int)
    ensures StageAbove(current).Some? ==> IsStage(StageAbove(current).value.percent)
  {
  }

  lemma StepKeepsSound(s: Shared, step: Step)
    requires AllSound(s)
    ensures AllSound(Next(s, step))
  {
    hide Sound, Served, StageAbove, Put;
    match step
    case Read(tasks, gatesPassed) => StagesAre(s.d.canaryPercent);
    case Ask(r) => RequestKeepsSound(s.d, r);
    case Commit(percent) =>
      if percent in s.pending {
        PutKeepsSound(s.d, percent);
      }
    case _ =>
  }

  lemma {:induction false} RunKeepsSound(s: Shared, steps: seq<Step>)
    requires AllSound(s)
    ensures AllSound(After(s, steps))
  {
    if steps != [] {
      RunKeepsSound(s, steps[..|steps| - 1]);
      StepKeepsSound(After(s, steps[..|steps| - 1]), steps[|steps| - 1]);
      hide AllSound, Next;
    }
  }

  // ---- What is counted over a run ---------------------------------------------------------------

  /** What one step adds to the samples, errors, shadow samples and disagreements. */
  function Counts(step: Step): (nat, nat, nat, nat) {
    match step
    case Ask(Observe(failed, true)) => (1, if failed then 1 else 0, 0, 0)
    case Ask(ObserveShadow(disagreement, _)) => (0, 0, 1, if disagreement > 0.0 then 1 else 0)
    case _ => (0, 0, 0, 0)
  }

  function CountsOf(steps: seq<Step>): (nat, nat, nat, nat) {
    if steps == [] then (0, 0, 0, 0)
    else
      var before, last := CountsOf(steps[..|steps| - 1]), Counts(steps[|steps| - 1]);
      (before.0 + last.0, before.1 + last.1, before.2 + last.2, before.3 + last.3)
  }

  predicate Unconfigured(steps: seq<Step>) {
    forall step | step in steps :: !(step.Ask? && step.request.Configure?)
  }

  /** While it is not configured again, a deployment counts every observation once, whatever happens in between. */
  lemma {:induction false} EveryObservationCounted(s: Shared, steps: seq<Step>)
    requires Unconfigured(steps)
    ensures var d, counts := After(s, steps).d, CountsOf(steps);
      && d.samples == s.d.samples + counts.0 && d.errors == s.d.errors + counts.1
      && d.shadowSamples == s.d.shadowSamples + counts.2 && d.disagreements == s.d.disagreements + counts.3
  {
    hide Next, Counts;
    if steps != [] {
      EveryObservationCounted(s, steps[..|steps| - 1]);
      assert steps[|steps| - 1] in steps;
      StepCounts(After(s, steps[..|steps| - 1]), steps[|steps| - 1]);
    }
  }

  lemma StepCounts(s: Shared, step: Step)
    requires !(step.Ask? && step.request.Configure?)
    ensures var d, counts := Next(s, step).d, Counts(step);
      && d.samples == s.d.samples + counts.0 && d.errors == s.d.errors + counts.1
      && d.shadowSamples == s.d.shadowSamples + counts.2 && d.disagreements == s.d.disagreements + counts.3
  {
    hide Rate, StageAbove;
  }

  // ---- When a run only goes on --------------------------------------------------------------------

  predicate NoConfigure(steps: seq<Step>) {
    forall step | step in steps && step.Ask? :: !step.request.Configure?
  }

  predicate IsStopped(d: Deployment) {
    d.status in {RolledBack, Promoted}
  }

  predicate NoTraffic(d: Deployment) {
    d.canaryPercent == 0 && d.shadowPercent == 0
  }

  /**
   * Later on, a deployment that is not running has the same status or is rolled back, running traffic has not shrunk,
   * and a stopped deployment without traffic still has none.
   */
  predicate GoesOn(d: Deployment, later: Deployment) {
    && (d.status == Running || later.status == d.status || later.status == RolledBack)
    && (later.status == Running ==> later.canaryPercent >= d.canaryPercent && later.shadowPercent == d.shadowPercent)
    && (IsStopped(d) && NoTraffic(d) ==> NoTraffic(later))
  }

  /**
   * The write of an advance does harm: it shrinks running traffic, activates a stopped deployment, or puts traffic on
   * one that had none.
   */
  predicate Harmful(d: Deployment, percent: int) {
    || Shrinks(d, percent)
    || (IsStopped(d) && (percent >= 100 || NoTraffic(d)))
  }

  predicate Shrinks(d: Deployment, percent: int) {
    d.status == Running && percent < 100 && percent < d.canaryPercent
  }

  /** One step goes on exactly unless it is a harmful write. */
  lemma StepGoesOn(s: Shared, step: Step)
    requires AllSound(s) && NoConfigure([step])
    ensures GoesOn(s.d, Next(s, step).d) <==> !(step.Commit? && step.percent in s.pending && Harmful(s.d, step.percent))
  {
    hide Rate;
    assert step in [step];
    match step
    case Ask(r) => RequestGoesOn(s.d, r);
    case _ =>
  }

  lemma RequestGoesOn(d: Deployment, r: Request)
    requires !r.Configure?
    ensures GoesOn(d, Served(d, r))
  {
    hide Rate;
  }

  /** From any earlier point of a run to any later one. */
  ghost predicate RunGoesOn(s: Shared, steps: seq<Step>) {
    forall m: nat, n: nat | m <= n <= |steps| :: GoesOn(After(s, steps[..m]).d, After(s, steps[..n]).d)
  }

  predicate HarmfulAt(s: Shared, steps: seq<Step>, n: nat)
    requires n < |steps|
  {
    var before := After(s, steps[..n]);
    steps[n].Commit? && steps[n].percent in before.pending && Harmful(before.d, steps[n].percent)
  }

  ghost predicate NoneHarmful(s: Shared, steps: seq<Step>) {
    forall n: nat | n < |steps| :: !HarmfulAt(s, steps, n)
  }

  lemma AfterNext(s: Shared, steps: seq<Step>, n: nat)
    requires n < |steps|
    ensures After(s, steps[..n + 1]) == Next(After(s, steps[..n]), steps[n])
  {
    assert steps[..n + 1] == steps[..n] + [steps[n]];
    AfterOneMore(s, steps[..n], steps[n]);
  }

  lemma AtGoesOn(s: Shared, steps: seq<Step>, n: nat)
    requires AllSound(s) && NoConfigure(steps) && n < |steps|
    ensures GoesOn(After(s, steps[..n]).d, After(s, steps[..n + 1]).d) <==> !HarmfulAt(s, steps, n)
  {
    hide AllSound, GoesOn, Harmful, Next;
    RunKeepsSound(s, steps[..n]);
    assert steps[n] in steps;
    StepGoesOn(After(s, steps[..n]), steps[n]);
    AfterNext(s, steps, n);
  }

  lemma Unmoved(d: Deployment)
    ensures GoesOn(d, d)
  {
  }

  lemma GoesFurther(a: Deployment, b: Deployment, c: Deployment)
    requires GoesOn(a, b) && GoesOn(b, c)
    ensures GoesOn(a, c)
  {
  }

  lemma {:induction false} HarmlessGoesOn(s: Shared, steps: seq<Step>, m: nat, n: nat)
    requires AllSound(s) && NoConfigure(steps) && NoneHarmful(s, steps) && m <= n <= |steps|
    ensures GoesOn(After(s, steps[..m]).d, After(s, steps[..n]).d)
  {
    hide AllSound, GoesOn, HarmfulAt, NoConfigure, After;
    if m == n {
      Unmoved(After(s, steps[..m]).d);
    } else {
      HarmlessGoesOn(s, steps, m, n - 1);
      AtGoesOn(s, steps, n - 1);
      GoesFurther(After(s, steps[..m]).d, After(s, steps[..n - 1]).d, After(s, steps[..n]).d);
    }
  }

  /**
   * Until it is configured again, a deployment only goes on, whatever advances were under way at the start, exactly
   * when no advance writes a smaller percentage to a running deployment, 100 per cent to a stopped one, or any to a
   * stopped one without traffic.
   */
  lemma RunGoesOnExactly(s: Shared, steps: seq<Step>)
    requires AllSound(s) && NoConfigure(steps)
    ensures RunGoesOn(s, steps) <==> NoneHarmful(s, steps)
  {
    hide AllSound, GoesOn, HarmfulAt, NoConfigure, After;
    if NoneHarmful(s, steps) {
      forall m: nat, n: nat | m <= n <= |steps|
        ensures GoesOn(After(s, steps[..m]).d, After(s, steps[..n]).d)
      {
        HarmlessGoesOn(s, steps, m, n);
      }
    } else {
      var n: nat :| n < |steps| && HarmfulAt(s, steps, n);
      AtGoesOn(s, steps, n);
    }
  }

  // ---- The canary lane --------------------------------------------------------------------------------

  datatype Assignment = Assignment(canaryLane: bool, shadow: bool)

  /** Where a key goes; its bucket is a hash below one hundred. */
  function Assign(d: Deployment, bucket: nat): Assignment
    requires bucket < 100
  {
    if d.status != Running then Assignment(false, false)
    else Assignment(bucket < d.canaryPercent, bucket < d.shadowPercent)
  }

  ghost function Below(n: int): (r: set<nat>)
    ensures forall b: nat :: b in r <==> b < n
    ensures |r| == if n < 0 then 0 else n
  {
    if n <= 0 then {} else Below(n - 1) + {n - 1}
  }

  /** The configured share of the hundred buckets is in the canary lane, and shadowed, while the deployment runs. */
  lemma SharesServed(d: Deployment)
    requires Sound(d)
    ensures
      var lane := set b: nat | b < 100 && Assign(d, b).canaryLane;
      var shadowed := set b: nat | b < 100 && Assign(d, b).shadow;
      && |lane| == (if d.status == Running then d.canaryPercent else 0)
      && |shadowed| == (if d.status == Running then d.shadowPercent else 0)
  {
    var lane, shadowed := set b: nat | b < 100 && Assign(d, b).canaryLane, set b: nat | b < 100 && Assign(d, b).shadow;
    if d.status == Running {
      assert lane == Below(d.canaryPercent) && shadowed == Below(d.shadowPercent);
    } else {
      assert lane == Below(0) && shadowed == Below(0);
    }
  }

  /** While the deployment runs, every key that is in the canary lane stays there. */
  ghost predicate LaneHolds(d: Deployment, later: Deployment) {
    later.status == Running ==> forall bucket: nat | bucket < 100 && Assign(d, bucket).canaryLane ::
      Assign(later, bucket).canaryLane
  }

  ghost predicate LaneIsSticky(s: Shared, steps: seq<Step>) {
    forall m: nat, n: nat | m <= n <= |steps| :: LaneHolds(After(s, steps[..m]).d, After(s, steps[..n]).d)
  }

  predicate ShrinksAt(s: Shared, steps: seq<Step>, n: nat)
    requires n < |steps|
  {
    var before := After(s, steps[..n]);
    steps[n].Commit? && steps[n].percent in before.pending && Shrinks(before.d, steps[n].percent)
  }

  ghost predicate NoneShrinks(s: Shared, steps: seq<Step>) {
    forall n: nat | n < |steps| :: !ShrinksAt(s, steps, n)
  }

  /** Nothing but a configuration makes a deployment run again. */
  predicate StillRuns(d: Deployment, later: Deployment) {
    later.status == Running ==> d.status == Running && later.canaryPercent >= d.canaryPercent
  }

  lemma StepStillRuns(s: Shared, step: Step)
    requires AllSound(s) && NoConfigure([step])
    ensures StillRuns(s.d, Next(s, step).d)
        <==> !(step.Commit? && step.percent in s.pending && Shrinks(s.d, step.percent))
    ensures Next(s, step).d.status == Running ==> s.d.status == Running
  {
    hide Rate;
    assert step in [step];
  }

  lemma AtStillRuns(s: Shared, steps: seq<Step>, n: nat)
    requires AllSound(s) && NoConfigure(steps) && n < |steps|
    ensures StillRuns(After(s, steps[..n]).d, After(s, steps[..n + 1]).d) <==> !ShrinksAt(s, steps, n)
    ensures ShrinksAt(s, steps, n) ==> !LaneHolds(After(s, steps[..n]).d, After(s, steps[..n + 1]).d)
  {
    RunKeepsSound(s, steps[..n]);
    assert steps[n] in steps;
    AfterNext(s, steps, n);
    hide After, Sound;
    var before := After(s, steps[..n]);
    StepStillRuns(before, steps[n]);
    if ShrinksAt(s, steps, n) {
      SoundPercent(before.d);
      assert Assign(before.d, steps[n].percent).canaryLane
        && !Assign(Put(before.d, steps[n].percent), steps[n].percent).canaryLane;
    }
  }

  lemma SoundPercent(d: Deployment)
    requires Sound(d)
    ensures 0 <= d.canaryPercent <= 100
  {
  }

  lemma {:induction false} UnshrunkStillRuns(s: Shared, steps: seq<Step>, m: nat, n: nat)
    requires AllSound(s) && NoConfigure(steps) && NoneShrinks(s, steps) && m <= n <= |steps|
    ensures StillRuns(After(s, steps[..m]).d, After(s, steps[..n]).d)
  {
    if m < n {
      hide AllSound, ShrinksAt, NoConfigure, LaneHolds, After;
      UnshrunkStillRuns(s, steps, m, n - 1);
      AtStillRuns(s, steps, n - 1);
    }
  }

  /**
   * The canary lane is sticky until the deployment is configured again exactly when no advance shrinks running traffic.
   */
  lemma CanaryLaneIsSticky(s: Shared, steps: seq<Step>)
    requires AllSound(s) && NoConfigure(steps)
    ensures LaneIsSticky(s, steps) <==> NoneShrinks(s, steps)
  {
    hide AllSound, ShrinksAt, NoConfigure, After;
    if NoneShrinks(s, steps) {
      forall m: nat, n: nat | m <= n <= |steps|
        ensures LaneHolds(After(s, steps[..m]).d, After(s, steps[..n]).d)
      {
        UnshrunkStillRuns(s, steps, m, n);
      }
    } else {
      var n: nat :| n < |steps| && ShrinksAt(s, steps, n);
      AtStillRuns(s, steps, n);
    }
  }

  // ---- Advances that are overtaken ----------------------------------------------------------------------

  /**
   * An advance that has read the deployment before it is rolled back revives it: at full traffic it becomes active, and
   * before that it is rolled back with traffic.
   */
  lemma StaleAdvanceRevives(d: Deployment, tasks: int, r: Request) returns (steps: seq<Step>)
    requires MayAdvance(d, tasks, true) && Served(d, r).status == RolledBack
    ensures |steps| == 3 && (NoConfigure(steps) || r.Configure?)
    ensures After(Shared(d, multiset{}), steps[..2]).d == Served(d, r)
    ensures var late := After(Shared(d, multiset{}), steps).d;
      && late.canaryPercent == StageAbove(d.canaryPercent).value.percent > 0
      && late.status == if d.canaryPercent < 50 then RolledBack else Active
  {
    var s, percent := Shared(d, multiset{}), StageAbove(d.canaryPercent).value.percent;
    hide Served;
    var read := [Read(tasks, true)];
    assert After(s, []) == s;
    AfterOneMore(s, [], Read(tasks, true));
    assert [] + read == read;
    AfterOneMore(s, read, Ask(r));
    AfterOneMore(s, read + [Ask(r)], Commit(percent));
    steps := read + [Ask(r)] + [Commit(percent)];
    assert steps[..2] == read + [Ask(r)];
  }

  /** Two advances read 5 per cent; one goes on and a third follows it to 50; then the other takes it back to 20. */
  lemma StaleAdvanceShrinks(d: Deployment) returns (steps: seq<Step>)
    requires d.status == Running && !d.paused && d.canaryPercent == 5
    ensures NoConfigure(steps) && |steps| == 6
    ensures var before, late := After(Shared(d, multiset{}), steps[..5]).d, After(Shared(d, multiset{}), steps).d;
      && before.status == late.status == Running && before.canaryPercent == 50 && late.canaryPercent == 20
      && Assign(before, 30).canaryLane && !Assign(late, 30).canaryLane
  {
    var s, read := Shared(d, multiset{}), Read(500, true);
    var once, twice := Shared(d, multiset{20}), Shared(d, multiset{20, 20});
    var ahead, third := Shared(Put(d, 20), multiset{20}), Shared(Put(d, 20), multiset{20, 50});
    var full := Shared(Put(Put(d, 20), 50), multiset{20});
    ShrinkStates(d);
    var first := [] + [read] + [read] + [Commit(20)] + [read] + [Commit(50)];
    assert After(s, []) == s;
    hide After, Next, ShouldAdvance, StageAbove, Put;
    Onward(s, [], s, read, once);
    Onward(s, [] + [read], once, read, twice);
    Onward(s, [] + [read] + [read], twice, Commit(20), ahead);
    Onward(s, [] + [read] + [read] + [Commit(20)], ahead, read, third);
    Onward(s, [] + [read] + [read] + [Commit(20)] + [read], third, Commit(50), full);
    Onward(s, first, full, Commit(20), Next(full, Commit(20)));
    steps := first + [Commit(20)];
    assert steps[..5] == first;
  }

  lemma Onward(s: Shared, steps: seq<Step>, before: Shared, step: Step, after: Shared)
    requires After(s, steps) == before && Next(before, step) == after
    ensures After(s, steps + [step]) == after
  {
    AfterOneMore(s, steps, step);
  }

  lemma ShrinkStates(d: Deployment)
    requires d.status == Running && !d.paused && d.canaryPercent == 5
    ensures var read, one, two := Read(500, true), Put(d, 20), Put(Put(d, 20), 50);
      && Next(Shared(d, multiset{}), read) == Shared(d, multiset{20})
      && Next(Shared(d, multiset{20}), read) == Shared(d, multiset{20, 20})
      && Next(Shared(d, multiset{20, 20}), Commit(20)) == Shared(one, multiset{20})
      && Next(Shared(one, multiset{20}), read) == Shared(one, multiset{20, 50})
      && Next(Shared(one, multiset{20, 50}), Commit(50)) == Shared(two, multiset{20})
      && Next(Shared(two, multiset{20}), Commit(20)).d == d.(canaryPercent := 20)
      && two == d.(canaryPercent := 50)
  {
    ReadAdds(Shared(d, multiset{}), 500, 20);
    ReadAdds(Shared(d, multiset{20}), 500, 20);
    CommitPuts(Shared(d, multiset{20, 20}), 20);
    ReadAdds(Shared(Put(d, 20), multiset{20}), 500, 50);
    CommitPuts(Shared(Put(d, 20), multiset{20, 50}), 50);
    CommitPuts(Shared(Put(Put(d, 20), 50), multiset{20}), 20);
    hide Next;
  }

  lemma ReadAdds(s: Shared, tasks: int, percent: int)
    requires s.d.status == Running && !s.d.paused && tasks >= 500
    requires (0 <= s.d.canaryPercent < 20 && percent == if s.d.canaryPercent < 5 then 5 else 20)
          || (20 <= s.d.canaryPercent < 50 && percent == 50)
    ensures Next(s, Read(tasks, true)) == Shared(s.d, s.pending + multiset{percent})
  {
  }

  lemma CommitPuts(s: Shared, percent: int)
    requires percent in s.pending
    ensures Next(s, Commit(percent)) == Shared(Put(s.d, percent), s.pending - multiset{percent})
  {
  }

  /** A pause does not stop an advance that has read the deployment before. */
  lemma PauseOvertaken(d: Deployment, tasks: int)
    requires MayAdvance(d, tasks, true)
    ensures var percent := StageAbove(d.canaryPercent).value.percent;
      var late := Next(Next(Next(Shared(d, multiset{}), Read(tasks, true)), Ask(Pause)), Commit(percent)).d;
      late.paused && late.canaryPercent == percent > d.canaryPercent
  {
  }
}
