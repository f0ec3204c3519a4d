/** Durable evolution jobs: leases, recovery, retry budget and the status table. */
module EvolutionJobs {
  import opened Models

  type JobId = nat
  type Owner = string
  type Time = int

  datatype Status = Pending | Running | Completed | Failed | Paused | Cancelled

  datatype Job = Job(
    status: Status, retryCount: nat, maxRetries: int, leaseOwner: Option<Owner>, leaseUntil: Option<Time>)

  /** The status changes the shared table allows. */
  predicate InTable(source: Status, target: Status) {
    match source
    case Pending => target in {Running, Cancelled}
    case Running => target in {Completed, Failed, Paused, Cancelled}
    case Failed => target in {Pending, Cancelled}
    case Paused => target in {Pending, Cancelled}
    case Completed => false
    case Cancelled => false
  }

  // ---- One job -----------------------------------------------------------------

  /**
   * What can happen to a job.  Acquire and Release are single guarded statements; Finish is a worker writing its
   * result, whether or not it still holds the lease.  The others are the control operations, which read the job, check
   * it and then write without a guard; Recover is the expiry scan at time `now`.
   */
  datatype Action =
    | Acquire(owner: Owner, until: Time)
    | Finish(ok: bool)
    | Release(owner: Owner)
    | Pause
    | Resume
    | Cancel
    | Retry
    | Recover(now: Time)

  predicate Unguarded(a: Action) {
    !a.Acquire? && !a.Finish? && !a.Release?
  }

  predicate Accepted(j: Job, a: Action) {
    match a
    case Acquire(_, _) => j.status == Pending
    case Finish(_) => true
    case Release(owner) => j.leaseOwner == Some(owner)
    case Pause => j.status in {Pending, Running}
    case Resume => j.status == Paused
    case Cancel => j.status !in {Completed, Cancelled}
    case Retry => j.status == Failed && j.retryCount < j.maxRetries
    case Recover(now) => j.status == Running && j.leaseUntil.Some? && j.leaseUntil.value < now
  }

  /** What can be done to a job in each status; workers and the release of a lease aside. */
  lemma AcceptedIn(j: Job, a: Action)
    requires !a.Finish? && !a.Release?
    ensures Accepted(j, a) <==>
      match j.status
      case Pending => a.Acquire? || a.Pause? || a.Cancel?
      case Running =>
        a.Pause? || a.Cancel? || (a.Recover? && exists until :: j.leaseUntil == Some(until) && until < a.now)
      case Failed => a.Cancel? || (a.Retry? && j.retryCount + 1 <= j.maxRetries)
      case Paused => a.Resume? || a.Cancel?
      case Completed => false
      case Cancelled => false
  {
  }

  /** Whatever puts a job back in the queue takes its lease away, so that it can be acquired afresh. */
  lemma RequeuedWithoutLease(j: Job, a: Action)
    requires j.status != Pending && After(j, a).status == Pending
    ensures After(j, a).leaseOwner.None? && After(j, a).leaseUntil.None?
    ensures After(j, a).retryCount == j.retryCount + if a.Resume? then 0 else 1
  {
  }

  /** What a control operation writes: a status, maybe a retry count, and maybe that there is no lease. */
  datatype Write = Write(status: Status, retries: Option<nat>, unlease: bool)

  /** What a control operation that has read `j` is going to write. */
  function Decided(j: Job, a: Action): Write
    requires Unguarded(a)
  {
    match a
    case Pause => Write(Paused, None, false)
    case Resume => Write(Pending, None, true)
    case Cancel => Write(Cancelled, None, false)
    case Retry => Write(Pending, Some(j.retryCount + 1), true)
    case Recover(_) =>
      if j.retryCount < j.maxRetries then Write(Pending, Some(j.retryCount + 1), true) else Write(Failed, None, false)
  }

  function Written(j: Job, w: Write): Job {
    j.(status := w.status,
       retryCount := if w.retries.Some? then w.retries.value else j.retryCount,
       leaseOwner := if w.unlease then None else j.leaseOwner,
       leaseUntil := if w.unlease then None else j.leaseUntil)
  }

  /** The job after an action with nothing in between its read and its write. */
  function After(j: Job, a: Action): Job {
    if !Accepted(j, a) then j
    else match a
      case Acquire(owner, until) => j.(status := Running, leaseOwner := Some(owner), leaseUntil := Some(until))
      case Finish(ok) => j.(status := if ok then Completed else Failed)
      case Release(_) => j.(leaseOwner := None, leaseUntil := None)
      case _ => Written(j, Decided(j, a))
  }

  function NewJob(maxRetries: int): Job {
    Job(Pending, 0, maxRetries, None, None)
  }

  function Run(maxRetries: int, actions: seq<Action>): Job {
    if actions == [] then NewJob(maxRetries)
    else After(Run(maxRetries, actions[..|actions| - 1]), actions[|actions| - 1])
  }

  /** How often the job was given to a worker. */
  function Executions(maxRetries: int, actions: seq<Action>): nat {
    if actions == [] then 0
    else
      var earlier, last := actions[..|actions| - 1], actions[|actions| - 1];
      Executions(maxRetries, earlier) + if last.Acquire? && Accepted(Run(maxRetries, earlier), last) then 1 else 0
  }

  function Resumes(maxRetries: int, actions: seq<Action>): nat {
    if actions == [] then 0
    else
      var earlier, last := actions[..|actions| - 1], actions[|actions| - 1];
      Resumes(maxRetries, earlier) + if last.Resume? && Accepted(Run(maxRetries, earlier), last) then 1 else 0
  }

  /**
   * The retry budget is never overdrawn, and every execution beyond the first is paid for by a retry, a recovery or a
   * resume.
   */
  lemma {:induction false} ExecutionsPaidFor(maxRetries: int, actions: seq<Action>)
    ensures var j := Run(maxRetries, actions);
      && j.maxRetries == maxRetries
      && (j.retryCount == 0 || j.retryCount <= maxRetries)
      && Executions(maxRetries, actions) + (if j.status == Pending then 1 else 0)
         <= 1 + j.retryCount + Resumes(maxRetries, actions)
  {
    if actions != [] {
      ExecutionsPaidFor(maxRetries, actions[..|actions| - 1]);
    }
  }

  /**
   * A job that is never resumed is executed at most once more than its retry budget, whatever crashes and late workers
   * do.
   */
  lemma BoundedExecution(maxRetries: nat, actions: seq<Action>)
    requires Resume !in actions
    ensures Executions(maxRetries, actions) <= maxRetries + 1
  {
    ExecutionsPaidFor(maxRetries, actions);
    NoResumes(maxRetries, actions);
  }

  lemma {:induction false} NoResumes(maxRetries: int, actions: seq<Action>)
    requires Resume !in actions
    ensures Resumes(maxRetries, actions) == 0
  {
    if actions != [] {
      NoResumes(maxRetries, actions[..|actions| - 1]);
    }
  }

  /** Every lease expires: the job is taken, times out and is recovered, again and again. */
  function Expiring(n: nat): seq<Action> {
    if n == 0 then [] else Expiring(n - 1) + [Acquire("worker", 0), Recover(1)]
  }

  lemma AppendTwo(maxRetries: int, actions: seq<Action>, a: Action, b: Action)
    ensures Run(maxRetries, actions + [a, b]) == After(After(Run(maxRetries, actions), a), b)
    ensures a.Acquire? && b.Recover? ==>
      Executions(maxRetries, actions + [a, b])
        == Executions(maxRetries, actions) + if Accepted(Run(maxRetries, actions), a) then 1 else 0
  {
    var all := actions + [a, b];
    assert all[..|all| - 1] == actions + [a];
    assert (actions + [a])[..|actions|] == actions;
  }

  lemma {:induction false} ExpiringState(maxRetries: nat, n: nat)
    requires n <= maxRetries
    ensures Run(maxRetries, Expiring(n)) == Job(Pending, n, maxRetries, None, None)
    ensures Executions(maxRetries, Expiring(n)) == n
  {
    if n > 0 {
      ExpiringState(maxRetries, n - 1);
      AppendTwo(maxRetries, Expiring(n - 1), Acquire("worker", 0), Recover(1));
    }
  }

  /**
   * The bound is reached: with every lease expiring, a job runs exactly one more time than its budget and then fails.
   */
  lemma BoundReached(maxRetries: nat)
    ensures Executions(maxRetries, Expiring(maxRetries + 1)) == maxRetries + 1
    ensures Run(maxRetries, Expiring(maxRetries + 1)).status == Failed
    ensures Resume !in Expiring(maxRetries + 1)
  {
    ExpiringState(maxRetries, maxRetries);
    AppendTwo(maxRetries, Expiring(maxRetries), Acquire("worker", 0), Recover(1));
    ExpiringNeverResumes(maxRetries + 1);
  }

  lemma {:induction false} ExpiringNeverResumes(n: nat)
    ensures Resume !in Expiring(n)
  {
    if n > 0 {
      ExpiringNeverResumes(n - 1);
    }
  }

  // ---- The status table ----------------------------------------------------------

  /** The writes that follow the table: exactly these conditions, which the store itself does not check. */
  lemma TableFollowed(j: Job, a: Action)
    requires Accepted(j, a) && After(j, a).status != j.status
    ensures InTable(j.status, After(j, a).status) <==>
      match a
      case Finish(_) => j.status == Running
      case Pause => j.status == Running
      case Recover(_) => j.retryCount >= j.maxRetries
      case _ => true
  {
  }

  // ---- Reads and writes apart --------------------------------------------------------

  /** A control operation between its read and its write. */
  datatype Pend = Pend(op: Action, write: Write)

  /**
   * A job, the control operations under way for it, the workers executing it, and the workers that have written
   * their completion but not returned: an error then still makes them write a failure.
   */
  datatype Shared = Shared(job: Job, pending: multiset<Pend>, working: nat, reported: nat)

  /** Die and Abandon are crashes: of a worker before it writes, and of a control operation before its write. */
  datatype Step =
    | Claim(owner: Owner, until: Time)
    | Report(ok: bool)
    | Relapse
    | Leave
    | Die
    | Drop(owner: Owner)
    | Read(op: Action)
    | Commit(write: Pend)
    | Abandon(write: Pend)

  function Next(s: Shared, step: Step): Shared {
    match step
    case Claim(owner, until) =>
      if Accepted(s.job, Acquire(owner, until))
      then s.(job := After(s.job, Acquire(owner, until)), working := s.working + 1) else s
    case Report(ok) =>
      if s.working > 0
      then Shared(After(s.job, Finish(ok)), s.pending, s.working - 1, s.reported + if ok then 1 else 0) else s
    case Relapse =>
      if s.reported > 0 then s.(job := After(s.job, Finish(false)), reported := s.reported - 1) else s
    case Leave =>
      if s.reported > 0 then s.(reported := s.reported - 1) else s
    case Die =>
      if s.working > 0 then s.(working := s.working - 1) else s
    case Drop(owner) =>
      s.(job := After(s.job, Release(owner)))
    case Read(op) =>
      if Unguarded(op) && Accepted(s.job, op)
      then s.(pending := s.pending + multiset{Pend(op, Decided(s.job, op))}) else s
    case Commit(p) =>
      if p in s.pending then s.(job := Written(s.job, p.write), pending := s.pending - multiset{p}) else s
    case Abandon(p) =>
      s.(pending := s.pending - multiset{p})
  }

  function From(s: Shared, steps: seq<Step>): Shared {
    if steps == [] then s else Next(From(s, steps[..|steps| - 1]), steps[|steps| - 1])
  }

  function NewShared(maxRetries: int): Shared {
    Shared(NewJob(maxRetries), multiset{}, 0, 0)
  }

  function Claimed(s: Shared, step: Step): nat {
    if step.Claim? && s.job.status == Pending then 1 else 0
  }

  /** How often the job was claimed. */
  function Claims(s: Shared, steps: seq<Step>): nat {
    if steps == [] then 0
    else
      var earlier := steps[..|steps| - 1];
      Claims(s, earlier) + Claimed(From(s, earlier), steps[|steps| - 1])
  }

  predicate Terminal(s: Status) {
    s in {Completed, Cancelled}
  }

  /** Exactly what changes a terminal status: a worker's report or a write decided before. */
  lemma TerminalChanges(s: Shared, step: Step)
    requires Terminal(s.job.status)
    ensures Next(s, step).job.status != s.job.status <==>
      match step
      case Report(ok) => s.working > 0 && s.job.status != if ok then Completed else Failed
      case Relapse => s.reported > 0
      case Commit(p) => p in s.pending && p.write.status != s.job.status
      case _ => false
  {
  }

  /** No worker is left alive that could report, and no write still under way would change the status. */
  ghost predicate Settled(s: Shared) {
    s.working == 0 && s.reported == 0 && AllWrite(s.pending, s.job.status)
  }

  ghost predicate AllWrite(pending: multiset<Pend>, status: Status) {
    forall p | p in pending :: p.write.status == status
  }

  lemma FewerWrite(pending: multiset<Pend>, p: Pend, status: Status)
    requires AllWrite(pending, status)
    ensures AllWrite(pending - multiset{p}, status) && (p in pending ==> p.write.status == status)
  {
  }

  /** The status stays as it is whatever happens next. */
  ghost predicate Final(s: Shared) {
    forall steps :: From(s, steps).job.status == s.job.status
  }

  lemma SettledStep(s: Shared, step: Step)
    requires Terminal(s.job.status) && Settled(s)
    ensures Settled(Next(s, step)) && Next(s, step).job.status == s.job.status
  {
    hide AllWrite, Decided;
    match step
    case Read(op) =>
      if Unguarded(op) {
        NoneAccepted(s.job, op);
      }
    case Commit(p) => FewerWrite(s.pending, p, s.job.status);
    case Abandon(p) => FewerWrite(s.pending, p, s.job.status);
    case _ =>
  }

  /** No control operation is accepted by a completed or cancelled job. */
  lemma NoneAccepted(j: Job, op: Action)
    requires Terminal(j.status) && Unguarded(op)
    ensures !Accepted(j, op)
  {
  }

  lemma {:induction false} SettledStays(s: Shared, steps: seq<Step>)
    requires Terminal(s.job.status) && Settled(s)
    ensures Settled(From(s, steps)) && From(s, steps).job.status == s.job.status
  {
    if steps != [] {
      var earlier, last := steps[..|steps| - 1], steps[|steps| - 1];
      SettledStays(s, earlier);
      SettledStep(From(s, earlier), last);
      hide Settled, Next;
    }
  }

  /** A step that changes the status, unless the job is settled. */
  lemma UnsettledChanges(s: Shared) returns (step: Step)
    requires Terminal(s.job.status) && !Settled(s)
    ensures Next(s, step).job.status != s.job.status
  {
    if s.working > 0 {
      step := Report(false);
    } else if s.reported > 0 {
      step := Relapse;
    } else {
      var p :| p in s.pending && p.write.status != s.job.status;
      step := Commit(p);
    }
  }

  /** A completed or cancelled job stays so for good exactly when it is settled. */
  lemma TerminalIsFinal(s: Shared)
    requires Terminal(s.job.status)
    ensures Final(s) <==> Settled(s)
  {
    hide Settled, Next;
    if Settled(s) {
      forall steps
        ensures From(s, steps).job.status == s.job.status
      {
        SettledStays(s, steps);
      }
    } else {
      var step := UnsettledChanges(s);
      FromOne(s, step);
      assert From(s, [step]).job.status != s.job.status;
    }
  }

  /** From every state the workers can return or die and the writes under way be lost, which leaves the job as it is. */
  lemma {:induction false} CanSettle(s: Shared) returns (steps: seq<Step>)
    ensures From(s, steps).job == s.job && Settled(From(s, steps))
    decreases s.working + s.reported + |s.pending|
  {
    if s.working == 0 && s.reported == 0 && s.pending == multiset{} {
      return [];
    }
    var step := if s.working > 0 then Die else if s.reported > 0 then Leave else var p :| p in s.pending; Abandon(p);
    if s.working == 0 && s.reported == 0 {
      assert |s.pending - multiset{step.write}| < |s.pending|;
    }
    FromOne(s, step);
    var more := CanSettle(Next(s, step));
    FromConcat(s, [step], more);
    steps := [step] + more;
  }

  lemma FromLast(s: Shared, steps: seq<Step>, last: Step)
    ensures From(s, steps + [last]) == Next(From(s, steps), last)
    ensures Claims(s, steps + [last]) == Claims(s, steps) + Claimed(From(s, steps), last)
  {
    hide Next, Claimed;
    assert (steps + [last])[..|steps|] == steps;
  }

  lemma FromOne(s: Shared, step: Step)
    ensures From(s, [step]) == Next(s, step)
    ensures Claims(s, [step]) == Claimed(s, step)
  {
    assert From(s, []) == s && Claims(s, []) == 0;
    hide *;
    FromLast(s, [], step);
    assert [] + [step] == [step];
  }

  lemma FromTwo(s: Shared, a: Step, b: Step)
    ensures From(s, [a, b]) == Next(Next(s, a), b)
    ensures Claims(s, [a, b]) == Claimed(s, a) + Claimed(Next(s, a), b)
  {
    hide *;
    FromOne(s, a);
    FromLast(s, [a], b);
    assert [a] + [b] == [a, b];
  }

  lemma FromThree(s: Shared, a: Step, b: Step, c: Step)
    ensures From(s, [a, b, c]) == Next(Next(Next(s, a), b), c)
    ensures Claims(s, [a, b, c]) == Claimed(s, a) + Claimed(Next(s, a), b) + Claimed(Next(Next(s, a), b), c)
  {
    hide *;
    FromTwo(s, a, b);
    FromLast(s, [a, b], c);
    assert [a, b] + [c] == [a, b, c];
  }

  lemma {:induction false} FromConcat(s: Shared, first: seq<Step>, more: seq<Step>)
    ensures From(s, first + more) == From(From(s, first), more)
  {
    if more == [] {
      assert first + more == first;
    } else {
      hide Next;
      assert (first + more)[..|first + more| - 1] == first + more[..|more| - 1];
      FromConcat(s, first, more[..|more| - 1]);
    }
  }

  /** A pause that has read a running job undoes its completion. */
  lemma PauseReopens(maxRetries: int)
    ensures var s := From(NewShared(maxRetries), [Claim("a", 9), Read(Pause), Report(true)] + [Leave]);
      && s.job.status == Completed && s.working == 0 && s.reported == 0
      && Next(s, Commit(Pend(Pause, Write(Paused, None, false)))).job.status == Paused
  {
    var start, steps := NewShared(maxRetries), [Claim("a", 9), Read(Pause), Report(true)];
    hide From;
    FromThree(start, steps[0], steps[1], steps[2]);
    FromConcat(start, steps, [Leave]);
    FromOne(From(start, steps), Leave);
  }

  lemma FailsLate(s: Shared)
    requires s.working > 0
    ensures var failed := Next(s, Report(false));
      failed.job == s.job.(status := Failed) && failed.pending == s.pending
  {
  }

  /** A failed job is retried and claimed, exactly if it has retries left. */
  lemma RetryRuns(s: Shared, owner: Owner, until: Time)
    requires s.job.status == Failed
    ensures var write := Pend(Retry, Write(Pending, Some(s.job.retryCount + 1), true));
      var retried := Next(Next(s, Read(Retry)), Commit(write));
      && (s.job.retryCount < s.job.maxRetries ==> Next(retried, Claim(owner, until)).job.status == Running)
      && (s.job.retryCount >= s.job.maxRetries ==> Next(s, Read(Retry)) == s)
  {
    if s.job.retryCount < s.job.maxRetries {
      var write := Pend(Retry, Write(Pending, Some(s.job.retryCount + 1), true));
      var read := Next(s, Read(Retry));
      assert read == s.(pending := s.pending + multiset{write}) && write in read.pending;
      assert Next(read, Commit(write)).job.status == Pending;
    }
  }

  /**
   * Any completed job whose worker lost it earlier may still fail, and then runs again exactly if it has retries left.
   */
  lemma LateReportReopens(s: Shared, owner: Owner, until: Time)
    requires s.job.status == Completed && s.working > 0
    ensures var failed := Next(s, Report(false));
      var write := Pend(Retry, Write(Pending, Some(s.job.retryCount + 1), true));
      var retried := Next(Next(failed, Read(Retry)), Commit(write));
      && failed.job.status == Failed
      && (s.job.retryCount < s.job.maxRetries ==> Next(retried, Claim(owner, until)).job.status == Running)
      && (s.job.retryCount >= s.job.maxRetries ==> Next(failed, Read(Retry)) == failed)
  {
    hide *;
    FailsLate(s);
    RetryRuns(Next(s, Report(false)), owner, until);
  }

  // ---- Writes that find what was read -----------------------------------------------------

  /** The job is still as the operation read it, so far as its check and its write depend on it. */
  predicate Fresh(j: Job, p: Pend) {
    Unguarded(p.op) && Accepted(j, p.op) && Decided(j, p.op) == p.write
  }

  /** Every write finds the job as it was read. */
  ghost predicate AllFresh(s: Shared, steps: seq<Step>) {
    forall n: nat | n < |steps| && steps[n].Commit? && steps[n].write in From(s, steps[..n]).pending ::
      Fresh(From(s, steps[..n]).job, steps[n].write)
  }

  /** What a step does to the job, as an undivided action. */
  function Effect(s: Shared, step: Step): seq<Action> {
    match step
    case Claim(owner, until) => [Acquire(owner, until)]
    case Report(ok) => if s.working > 0 then [Finish(ok)] else []
    case Relapse => if s.reported > 0 then [Finish(false)] else []
    case Drop(owner) => [Release(owner)]
    case Commit(p) => if p in s.pending then [p.op] else []
    case _ => []
  }

  function Effects(s: Shared, steps: seq<Step>): seq<Action> {
    if steps == [] then []
    else
      var earlier := steps[..|steps| - 1];
      Effects(s, earlier) + Effect(From(s, earlier), steps[|steps| - 1])
  }

  lemma RunLast(maxRetries: int, actions: seq<Action>, a: Action)
    ensures Run(maxRetries, actions + [a]) == After(Run(maxRetries, actions), a)
    ensures Executions(maxRetries, actions + [a])
         == Executions(maxRetries, actions) + if a.Acquire? && Accepted(Run(maxRetries, actions), a) then 1 else 0
  {
    assert (actions + [a])[..|actions|] == actions;
  }

  lemma FreshStep(s: Shared, step: Step)
    requires step.Commit? && step.write in s.pending ==> Fresh(s.job, step.write)
    ensures Effect(s, step) == [] ==> Next(s, step).job == s.job
    ensures Effect(s, step) != [] ==> |Effect(s, step)| == 1 && Next(s, step).job == After(s.job, Effect(s, step)[0])
    ensures step.Claim? <==> Effect(s, step) != [] && Effect(s, step)[0].Acquire?
  {
  }

  lemma FreshPrefix(s: Shared, steps: seq<Step>)
    requires steps != [] && AllFresh(s, steps)
    ensures var k := |steps| - 1;
      && AllFresh(s, steps[..k])
      && (steps[k].Commit? && steps[k].write in From(s, steps[..k]).pending
          ==> Fresh(From(s, steps[..k]).job, steps[k].write))
  {
    var k := |steps| - 1;
    hide From, Fresh;
    forall n: nat | n < k && steps[..k][n].Commit? && steps[..k][n].write in From(s, steps[..k][..n]).pending
      ensures Fresh(From(s, steps[..k][..n]).job, steps[..k][n].write)
    {
      assert steps[..k][..n] == steps[..n];
    }
  }

  /** With every write fresh, the interleaved run is a run of undivided actions, with as many executions. */
  lemma {:induction false} SplitIsAtomic(maxRetries: int, steps: seq<Step>)
    requires AllFresh(NewShared(maxRetries), steps)
    ensures var s := NewShared(maxRetries);
      && From(s, steps).job == Run(maxRetries, Effects(s, steps))
      && Claims(s, steps) == Executions(maxRetries, Effects(s, steps))
  {
    if steps != [] {
      var s, k := NewShared(maxRetries), |steps| - 1;
      FreshPrefix(s, steps);
      SplitIsAtomic(maxRetries, steps[..k]);
      var before := From(s, steps[..k]);
      FreshStep(before, steps[k]);
      var actions, more := Effects(s, steps[..k]), Effect(before, steps[k]);
      hide Effect, AllFresh, Run, Executions, After, NewShared;
      if more == [] {
        assert actions + more == actions;
      } else {
        assert more == [more[0]];
        RunLast(maxRetries, actions, more[0]);
      }
    }
  }

  /** So the retry budget bounds the executions of a job that is never resumed, if every write is fresh. */
  lemma FreshExecutionsBounded(maxRetries: nat, steps: seq<Step>)
    requires AllFresh(NewShared(maxRetries), steps) && Resume !in Effects(NewShared(maxRetries), steps)
    ensures Claims(NewShared(maxRetries), steps) <= maxRetries + 1
  {
    SplitIsAtomic(maxRetries, steps);
    BoundedExecution(maxRetries, Effects(NewShared(maxRetries), steps));
  }

  function Requeued(s: Shared, step: Step): nat {
    if step.Commit? && step.write in s.pending && step.write.write.status == Pending then 1 else 0
  }

  /** The writes that put the job back in the queue. */
  function Requeues(s: Shared, steps: seq<Step>): nat {
    if steps == [] then 0
    else
      var earlier := steps[..|steps| - 1];
      Requeues(s, earlier) + Requeued(From(s, earlier), steps[|steps| - 1])
  }

  predicate WithinBudget(w: Write, maxRetries: int) {
    w.retries.Some? ==> w.retries.value <= maxRetries
  }

  ghost predicate AllWithinBudget(pending: multiset<Pend>, maxRetries: int) {
    forall p | p in pending :: WithinBudget(p.write, maxRetries)
  }

  /** The retry counts written, and those about to be, are within the budget. */
  ghost predicate Affordable(s: Shared, maxRetries: int) {
    && s.job.maxRetries == maxRetries
    && (s.job.retryCount == 0 || s.job.retryCount <= maxRetries)
    && AllWithinBudget(s.pending, maxRetries)
  }

  function Waiting(s: Shared): nat {
    if s.job.status == Pending then 1 else 0
  }

  lemma OneMorePending(pending: multiset<Pend>, p: Pend, maxRetries: int)
    requires AllWithinBudget(pending, maxRetries)
    ensures WithinBudget(p.write, maxRetries) ==> AllWithinBudget(pending + multiset{p}, maxRetries)
    ensures AllWithinBudget(pending - multiset{p}, maxRetries)
    ensures p in pending ==> WithinBudget(p.write, maxRetries)
  {
  }

  lemma DecidedWithinBudget(j: Job, op: Action)
    requires Unguarded(op) && Accepted(j, op)
    ensures WithinBudget(Decided(j, op), j.maxRetries)
  {
  }

  lemma StepAffordable(s: Shared, step: Step, maxRetries: int)
    requires Affordable(s, maxRetries)
    ensures Affordable(Next(s, step), maxRetries)
  {
    hide AllWithinBudget, Decided;
    match step
    case Read(op) =>
      if Unguarded(op) && Accepted(s.job, op) {
        DecidedWithinBudget(s.job, op);
        OneMorePending(s.pending, Pend(op, Decided(s.job, op)), maxRetries);
      }
    case Commit(p) => OneMorePending(s.pending, p, maxRetries);
    case Abandon(p) => OneMorePending(s.pending, p, maxRetries);
    case _ =>
  }

  lemma StepPaidFor(s: Shared, step: Step)
    ensures Claimed(s, step) + Waiting(Next(s, step)) <= Waiting(s) + Requeued(s, step)
  {
    hide Decided;
  }

  /** In every interleaving the count keeps to the budget, and a requeue pays for each execution but the first. */
  lemma {:induction false} ClaimsPaidFor(maxRetries: int, steps: seq<Step>)
    ensures var s := NewShared(maxRetries);
      && Affordable(From(s, steps), maxRetries)
      && Claims(s, steps) + Waiting(From(s, steps)) <= 1 + Requeues(s, steps)
  {
    if steps != [] {
      var earlier := steps[..|steps| - 1];
      ClaimsPaidFor(maxRetries, earlier);
      StepAffordable(From(NewShared(maxRetries), earlier), steps[|steps| - 1], maxRetries);
      StepPaidFor(From(NewShared(maxRetries), earlier), steps[|steps| - 1]);
      hide Affordable, Claimed, Waiting, Requeued, Next;
    }
  }

  // ---- Stale writes overdraw the budget ------------------------------------------------------

  const STALE := Pend(Retry, Write(Pending, Some(1), true))

  /** That many retries that have all read the job before any of them writes. */
  function Readers(n: nat): seq<Step> {
    if n == 0 then [] else Readers(n - 1) + [Read(Retry)]
  }

  /** One after the other they write, and each time the job is claimed and fails. */
  function Writers(n: nat): seq<Step> {
    if n == 0 then [] else Writers(n - 1) + [Commit(STALE), Claim("a", 9), Report(false)]
  }

  function FailedOnce(maxRetries: int): Shared {
    Shared(Job(Failed, 0, maxRetries, Some("a"), Some(9)), multiset{}, 0, 0)
  }

  lemma ReadOnce(maxRetries: int, n: nat)
    requires maxRetries >= 1
    ensures var s := FailedOnce(maxRetries).(pending := multiset{}[STALE := n]);
      && Next(s, Read(Retry)) == s.(pending := multiset{}[STALE := n + 1])
      && Claimed(s, Read(Retry)) == 0
  {
    assert multiset{}[STALE := n] + multiset{STALE} == multiset{}[STALE := n + 1];
  }

  lemma {:induction false} ReadersRead(maxRetries: int, n: nat)
    requires maxRetries >= 1
    ensures From(FailedOnce(maxRetries), Readers(n)) == FailedOnce(maxRetries).(pending := multiset{}[STALE := n])
    ensures Claims(FailedOnce(maxRetries), Readers(n)) == 0
  {
    ReadersUnfold(maxRetries, n);
    hide *;
    if n > 0 {
      ReadersRead(maxRetries, n - 1);
      var s := FailedOnce(maxRetries);
      ReadOnce(maxRetries, n - 1);
      FromConcat(s, Readers(n - 1), [Read(Retry)]);
      ClaimsConcat(s, Readers(n - 1), [Read(Retry)]);
      FromOne(From(s, Readers(n - 1)), Read(Retry));
    }
  }

  lemma ReadersUnfold(maxRetries: int, n: nat)
    ensures n > 0 ==> Readers(n) == Readers(n - 1) + [Read(Retry)]
    ensures var s := FailedOnce(maxRetries);
      n == 0 ==> From(s, Readers(n)) == s.(pending := multiset{}[STALE := 0]) && Claims(s, Readers(n)) == 0
  {
    assert multiset{}[STALE := 0] == multiset{};
  }

  lemma {:induction false} ClaimsConcat(s: Shared, first: seq<Step>, more: seq<Step>)
    ensures Claims(s, first + more) == Claims(s, first) + Claims(From(s, first), more)
  {
    if more == [] {
      assert first + more == first;
    } else {
      hide Next;
      var k := |more| - 1;
      assert (first + more)[..|first + more| - 1] == first + more[..k];
      ClaimsConcat(s, first, more[..k]);
      FromConcat(s, first, more[..k]);
    }
  }

  lemma WriteOnce(s: Shared)
    requires STALE in s.pending && s.working == 0
    ensures var t := From(s, [Commit(STALE), Claim("a", 9), Report(false)]);
      && t == Shared(s.job.(status := Failed, retryCount := 1, leaseOwner := Some("a"), leaseUntil := Some(9)),
                     s.pending - multiset{STALE}, 0, s.reported)
      && Claims(s, [Commit(STALE), Claim("a", 9), Report(false)]) == 1
  {
    hide From, Claims;
    FromThree(s, Commit(STALE), Claim("a", 9), Report(false));
  }

  lemma {:induction false} WritersWrite(maxRetries: int, n: nat, k: nat)
    requires k <= n
    ensures var s := FailedOnce(maxRetries).(pending := multiset{}[STALE := n]);
      && From(s, Writers(k))
         == s.(job := s.job.(retryCount := if k > 0 then 1 else 0), pending := multiset{}[STALE := n - k])
      && Claims(s, Writers(k)) == k
  {
    if k > 0 {
      var s := FailedOnce(maxRetries).(pending := multiset{}[STALE := n]);
      WritersWrite(maxRetries, n, k - 1);
      var t, steps := From(s, Writers(k - 1)), [Commit(STALE), Claim("a", 9), Report(false)];
      hide From, Claims;
      WriteOnce(t);
      FromConcat(s, Writers(k - 1), steps);
      ClaimsConcat(s, Writers(k - 1), steps);
    }
  }

  ghost predicate CommitsOnlyStale(steps: seq<Step>) {
    forall step | step in steps && step.Commit? :: step.write == STALE
  }

  lemma {:induction false} ReadersOnly(n: nat)
    ensures CommitsOnlyStale(Readers(n))
  {
    if n > 0 {
      ReadersOnly(n - 1);
    }
  }

  lemma {:induction false} WritersOnly(n: nat)
    ensures CommitsOnlyStale(Writers(n))
  {
    if n > 0 {
      WritersOnly(n - 1);
    }
  }

  lemma OnlyStale(n: nat)
    ensures CommitsOnlyStale([Claim("a", 9), Report(false)] + (Readers(n) + Writers(n)))
  {
    hide Readers, Writers;
    ReadersOnly(n);
    WritersOnly(n);
  }

  lemma {:induction false} OnlyRetries(s: Shared, steps: seq<Step>)
    requires CommitsOnlyStale(steps)
    ensures Resume !in Effects(s, steps)
  {
    if steps != [] {
      hide From;
      OnlyRetries(s, steps[..|steps| - 1]);
    }
  }

  lemma FailsOnce(maxRetries: int)
    ensures From(NewShared(maxRetries), [Claim("a", 9), Report(false)]) == FailedOnce(maxRetries)
    ensures Claims(NewShared(maxRetries), [Claim("a", 9), Report(false)]) == 1
  {
    hide From, Claims;
    FromTwo(NewShared(maxRetries), Claim("a", 9), Report(false));
  }

  /** Any number of stale retries each buy an execution, while the count written stays at one. */
  lemma StaleRetriesOverdraw(maxRetries: int, n: nat) returns (steps: seq<Step>)
    requires maxRetries >= 1
    ensures Claims(NewShared(maxRetries), steps) == n + 1
    ensures From(NewShared(maxRetries), steps).job.retryCount <= 1
    ensures Resume !in Effects(NewShared(maxRetries), steps)
  {
    hide *;
    var start, failed, first := NewShared(maxRetries), FailedOnce(maxRetries), [Claim("a", 9), Report(false)];
    steps := first + (Readers(n) + Writers(n));
    FailsOnce(maxRetries);
    ReadersRead(maxRetries, n);
    WritersWrite(maxRetries, n, n);
    RetriedOnce(maxRetries, n);
    FromConcat(failed, Readers(n), Writers(n));
    ClaimsConcat(failed, Readers(n), Writers(n));
    FromConcat(start, first, Readers(n) + Writers(n));
    ClaimsConcat(start, first, Readers(n) + Writers(n));
    OnlyStale(n);
    OnlyRetries(start, steps);
  }

  lemma RetriedOnce(maxRetries: int, n: nat)
    ensures var s := FailedOnce(maxRetries).(pending := multiset{}[STALE := n]);
      s.(job := s.job.(retryCount := if n > 0 then 1 else 0), pending := multiset{}[STALE := 0]).job.retryCount <= 1
  {
  }

  // ---- The controller ---------------------------------------------------------------

  /** A row of the job table; `event` is the trigger it was created for. */
  datatype Row = Row(tenant: string, key: string, event: string, job: Job)

  predicate Active(s: Status) {
    s in {Pending, Running, Paused}
  }

  datatype Enqueued = Enqueued(id: JobId, created: bool) | NoUniqueKey

  ghost predicate HoldsKey(rows: map<JobId, Row>, id: JobId, tenant: string, key: string) {
    id in rows && rows[id].tenant == tenant && rows[id].key == key
  }

  /** An unfinished job created for this event, under whatever key. */
  ghost predicate ActiveFor(rows: map<JobId, Row>, id: JobId, tenant: string, event: string) {
    id in rows && rows[id].tenant == tenant && rows[id].event == event && Active(rows[id].job.status)
  }

  ghost predicate OneActiveFor(rows: map<JobId, Row>, tenant: string, event: string) {
    forall a, b | ActiveFor(rows, a, tenant, event) && ActiveFor(rows, b, tenant, event) :: a == b
  }

  /** A new active job is the only one of its event exactly if there was none. */
  lemma OneMoreActive(rows: map<JobId, Row>, newId: JobId, row: Row)
    requires newId !in rows && Active(row.job.status)
    ensures OneActiveFor(rows[newId := row], row.tenant, row.event)
        <==> !exists id :: ActiveFor(rows, id, row.tenant, row.event)
  {
    var after := rows[newId := row];
    assert ActiveFor(after, newId, row.tenant, row.event);
    forall id
      ensures ActiveFor(after, id, row.tenant, row.event) <==> id == newId || ActiveFor(rows, id, row.tenant, row.event)
      ensures ActiveFor(rows, id, row.tenant, row.event) ==> id != newId
    {
    }
    if id :| ActiveFor(rows, id, row.tenant, row.event) {
      assert ActiveFor(after, id, row.tenant, row.event);
    }
  }

  /**
   * A listed job is written by what it was when it was listed, and then is not expired; if nothing has happened to it
   * since, this is the undivided action.
   */
  ghost predicate Recovered(before: map<JobId, Row>, after: map<JobId, Row>, id: JobId, listed: Job, now: Time)
    requires id in before && id in after
  {
    && after[id] == before[id].(job := Written(before[id].job, Decided(listed, Recover(now))))
    && !Accepted(after[id].job, Recover(now))
    && (before[id].job == listed ==> after[id].job == After(listed, Recover(now)))
  }

  lemma RecoveryUnguarded(now: Time)
    ensures Unguarded(Recover(now))
  {
  }

  lemma RowRecovered(before: map<JobId, Row>, after: map<JobId, Row>, id: JobId, listed: Job, now: Time)
    requires id in before && id in after && Accepted(listed, Recover(now))
    requires after[id] == before[id].(job := Written(before[id].job, Decided(listed, Recover(now))))
    ensures Recovered(before, after, id, listed, now)
  {
  }

  lemma StillRecovered(before: map<JobId, Row>, after: map<JobId, Row>, later: map<JobId, Row>, id: JobId, listed: Job,
                       now: Time)
    requires id in before && id in after && Recovered(before, after, id, listed, now)
    requires id in later && later[id] == after[id]
    ensures Recovered(before, later, id, listed, now)
  {
  }

  class EvolutionController {
    var rows: map<JobId, Row>
    const maxRetries: int

    constructor (maxRetries: int)
      ensures Valid() && rows == map[] && this.maxRetries == maxRetries
    {
      this.maxRetries := maxRetries;
      rows := map[];
    }

    /** The unique index: no two rows of a tenant share a key. */
    ghost predicate Valid()
      reads this
    {
      forall a, b | a in rows && b in rows && rows[a].tenant == rows[b].tenant && rows[a].key == rows[b].key :: a == b
    }

    /** One atomic control operation on one row. */
    method Control(id: JobId, a: Action) returns (ok: bool)
      requires Valid()
      modifies this
      ensures Valid() && rows.Keys == old(rows).Keys
      ensures ok <==> id in old(rows) && Accepted(old(rows)[id].job, a)
      ensures id in rows ==> rows[id] == old(rows)[id].(job := After(old(rows)[id].job, a))
      ensures forall k | k in rows && k != id :: rows[k] == old(rows)[k]
    {
      if id !in rows {
        return false;
      }
      var row := rows[id];
      var j := row.job;
      match a {
        case Acquire(owner, until) =>
          if j.status != Pending {
            return false;
          }
          j := j.(status := Running, leaseOwner := Some(owner), leaseUntil := Some(until));
        case Finish(done) =>
          j := j.(status := if done then Completed else Failed);
        case Release(owner) =>
          if j.leaseOwner != Some(owner) {
            return false;
          }
          j := j.(leaseOwner := None, leaseUntil := None);
        case Pause =>
          if j.status != Pending && j.status != Running {
            return false;
          }
          j := j.(status := Paused);
        case Resume =>
          if j.status != Paused {
            return false;
          }
          j := j.(status := Pending, leaseOwner := None, leaseUntil := None);
        case Cancel =>
          if j.status == Completed || j.status == Cancelled {
            return false;
          }
          j := j.(status := Cancelled);
        case Retry =>
          if j.status != Failed || j.retryCount >= j.maxRetries {
            return false;
          }
          j := j.(status := Pending, retryCount := j.retryCount + 1, leaseOwner := None, leaseUntil := None);
        case Recover(now) =>
          if j.status != Running || j.leaseUntil.None? || j.leaseUntil.value >= now {
            return false;
          }
          if j.retryCount < j.maxRetries {
            j := j.(status := Pending, retryCount := j.retryCount + 1, leaseOwner := None, leaseUntil := None);
          } else {
            j := j.(status := Failed);
          }
      }
      rows := rows[id := row.(job := j)];
      return true;
    }

    /**
     * Creates a job for an event unless the row that holds the event's own key is active.  When that
     * row is finished, the job goes under a fresh key, and then jobs under other fresh keys
     * are not looked at: the event ends with two active jobs exactly if one of those was active.
     */
    method Enqueue(tenant: string, event: string, freshKey: string, newId: JobId) returns (r: Enqueued)
      requires Valid() && newId !in rows
      modifies this
      ensures Valid()
      ensures r.Enqueued? && !r.created
          <==> exists id :: HoldsKey(old(rows), id, tenant, event) && Active(old(rows)[id].job.status)
      ensures r.Enqueued? && !r.created ==> HoldsKey(rows, r.id, tenant, event) && Active(rows[r.id].job.status)
      ensures !(r.Enqueued? && r.created) ==> rows == old(rows)
      ensures r.Enqueued? && r.created ==> r.id == newId && newId in rows && rows == old(rows)[newId := rows[newId]]
      ensures r.Enqueued? && r.created
          ==> rows[newId].tenant == tenant && rows[newId].event == event && rows[newId].job == NewJob(maxRetries)
      ensures r.NoUniqueKey? ==> exists id :: HoldsKey(rows, id, tenant, freshKey)
      ensures r.Enqueued? && r.created ==>
        (OneActiveFor(rows, tenant, event) <==> !exists id :: ActiveFor(old(rows), id, tenant, event))
    {
      if id :| id in rows && rows[id].tenant == tenant && rows[id].key == event && Active(rows[id].job.status) {
        assert HoldsKey(rows, id, tenant, event);
        return Enqueued(id, false);
      }
      var key := event;
      if id :| id in rows && rows[id].tenant == tenant && rows[id].key == event {
        key := freshKey;
        if other :| other in rows && rows[other].tenant == tenant && rows[other].key == freshKey {
          assert HoldsKey(rows, other, tenant, freshKey);
          return NoUniqueKey;
        }
      }
      var row := Row(tenant, key, event, NewJob(maxRetries));
      rows := rows[newId := row];
      OneMoreActive(old(rows), newId, row);
      return Enqueued(newId, true);
    }

    /** One unguarded write to a row. */
    method Update(id: JobId, w: Write)
      requires Valid()
      modifies this
      ensures Valid() && rows.Keys == old(rows).Keys
      ensures id in rows ==> rows[id] == old(rows)[id].(job := Written(old(rows)[id].job, w))
      ensures forall k | k in rows && k != id :: rows[k] == old(rows)[k]
    {
      if id in rows {
        rows := rows[id := rows[id].(job := Written(rows[id].job, w))];
      }
    }

    /**
     * The expiry scan takes the listed jobs (at most 100) back one by one.  What it writes is decided by the jobs as
     * they were listed, whatever has happened to them since.
     */
    method RecoverExpired(listed: seq<(JobId, Job)>, now: Time) returns (recovered: nat)
      requires Valid() && |listed| <= 100
      requires forall k | 0 <= k < |listed| :: listed[k].0 in rows && Accepted(listed[k].1, Recover(now))
      requires forall i, j | 0 <= i < j < |listed| :: listed[i].0 != listed[j].0
      modifies this
      ensures Valid() && recovered == |listed| && rows.Keys == old(rows).Keys
      ensures forall k | 0 <= k < |listed| :: Recovered(old(rows), rows, listed[k].0, listed[k].1, now)
      ensures forall id | id in rows && (forall k | 0 <= k < |listed| :: listed[k].0 != id) :: rows[id] == old(rows)[id]
    {
      hide *;
      recovered := 0;
      RecoveryUnguarded(now);
      for n := 0 to |listed|
        invariant Valid() && recovered == n && rows.Keys == old(rows).Keys
        invariant forall k | 0 <= k < n :: Recovered(old(rows), rows, listed[k].0, listed[k].1, now)
        invariant forall id | id in rows && (forall k | 0 <= k < n :: listed[k].0 != id) :: rows[id] == old(rows)[id]
      {
        var (id, job) := listed[n];
        ghost var before := rows;
        assert forall k | 0 <= k < n :: listed[k].0 != id;
        Update(id, Decided(job, Recover(now)));
        RowRecovered(old(rows), rows, id, job, now);
        forall k | 0 <= k < n
          ensures Recovered(old(rows), rows, listed[k].0, listed[k].1, now)
        {
          StillRecovered(old(rows), before, rows, listed[k].0, listed[k].1, now);
        }
        recovered := recovered + 1;
      }
    }
  }
}
