/** The checkpointed review workflow: task states and the task trace over the life of a task. */
module Harness {
  import opened Models
  import R = Runtime

  datatype TaskState = Pending | Planning | Executing | Reviewing | Success | Failed | Cancelled

  /** The legal changes of a task's state. */
  predicate Allowed(source: TaskState, target: TaskState) {
    match source
    case Pending => target in {Planning, Failed, Cancelled}
    case Planning => target in {Executing, Failed, Cancelled}
    case Executing => target in {Reviewing, Failed, Cancelled}
    case Reviewing => target in {Success, Failed, Cancelled}
    case _ => false
  }

  /** How far along the way to success a state is. */
  function Progress(s: TaskState): int {
    match s
    case Pending => 0
    case Planning => 1
    case Executing => 2
    case Reviewing => 3
    case Success => 4
    case _ => -1
  }

  /** A task that has not ended moves one step on, or fails or is cancelled; one that has ended stays. */
  lemma AllowedExactly(source: TaskState, target: TaskState)
    ensures Allowed(source, target) <==>
      && source !in {Success, Failed, Cancelled}
      && (target in {Failed, Cancelled} || Progress(target) == Progress(source) + 1)
  {
  }

  datatype TraceEvent = TraceEvent(step: nat, state: TaskState)

  function MaxStep(trace: seq<TraceEvent>): (m: nat)
    ensures forall e | e in trace :: e.step <= m
    ensures if trace == [] then m == 0 else exists e | e in trace :: e.step == m
  {
    if trace == [] then 0
    else
      var rest := MaxStep(trace[1..]);
      assert forall e | e in trace :: e == trace[0] || e in trace[1..];
      if trace[0].step > rest then trace[0].step else rest
  }

  ghost predicate StepsIncrease(trace: seq<TraceEvent>) {
    forall i, j | 0 <= i < j < |trace| :: trace[i].step < trace[j].step
  }

  // ---- The three nodes --------------------------------------------------------

  function NodesOf(planning: R.State -> R.State, executing: R.State -> R.State,
                   reviewing: R.State -> R.State): seq<R.Node> {
    [R.Node("planning", planning, None, true), R.Node("executing", executing, None, true),
      R.Node("reviewing", reviewing, None, true)]
  }

  /** `handler` looks only at the keys in `inputs` and returns just the key `output`. */
  ghost predicate Footprint(handler: R.State -> R.State, inputs: set<string>, output: string) {
    && (forall s: R.State, t: R.State
          | (forall k | k in inputs :: (k in s <==> k in t) && (k in s ==> s[k] == t[k])) :: handler(s) == handler(t))
    && (forall s: R.State :: handler(s).Keys == {output})
  }

  /** Each review node writes a key it does not read. */
  ghost predicate ReviewFootprints(planning: R.State -> R.State, executing: R.State -> R.State,
                                   reviewing: R.State -> R.State) {
    && Footprint(planning, {"diff"}, "parsed")
    && Footprint(executing, {"task_id", "diff", "parsed", "repository", "tenant_id"}, "findings")
    && Footprint(reviewing, {"task_id", "parsed", "findings", "repository", "pull_request", "tenant_id"}, "report")
  }

  lemma FootprintRepeatable(handler: R.State -> R.State, inputs: set<string>, output: string, state: R.State)
    requires Footprint(handler, inputs, output) && output !in inputs
    ensures R.Repeatable(handler, state)
  {
    var again := state + handler(state);
    assert forall k | k in inputs :: (k in state <==> k in again) && (k in state ==> state[k] == again[k]);
  }

  /** So the review workflow meets what resuming needs. */
  lemma ReviewResumable(planning: R.State -> R.State, executing: R.State -> R.State, reviewing: R.State -> R.State,
                        initial: R.State, nodeRetries: nat)
    requires ReviewFootprints(planning, executing, reviewing)
    ensures R.Resumable(NodesOf(planning, executing, reviewing), initial, nodeRetries)
    ensures ReviewNodes(NodesOf(planning, executing, reviewing))
  {
    forall s: R.State
      ensures R.Repeatable(planning, s) && R.Repeatable(executing, s) && R.Repeatable(reviewing, s)
    {
      FootprintRepeatable(planning, {"diff"}, "parsed", s);
      FootprintRepeatable(executing, {"task_id", "diff", "parsed", "repository", "tenant_id"}, "findings", s);
      FootprintRepeatable(reviewing, {"task_id", "parsed", "findings", "repository", "pull_request", "tenant_id"},
        "report", s);
    }
  }

  /** The workflow's node list: three checkpointed nodes in this order. */
  predicate ReviewNodes(nodes: seq<R.Node>) {
    && |nodes| == 3
    && nodes[0].name == "planning" && nodes[1].name == "executing" && nodes[2].name == "reviewing"
    && nodes[0].checkpoint && nodes[1].checkpoint && nodes[2].checkpoint
  }

  // ---- Runs -------------------------------------------------------------------

  function TargetOf(index: nat): TaskState
    requires index < 3
  {
    if index == 0 then Planning else if index == 1 then Executing else Reviewing
  }

  /** The state a run starts from, read off the completed checkpoints. */
  function Seed(rows: map<string, R.Checkpoint>): TaskState {
    if R.IsCompleted(rows, "reviewing") then Reviewing
    else if R.IsCompleted(rows, "executing") then Executing
    else if R.IsCompleted(rows, "planning") then Planning
    else Pending
  }

  /** How many nodes a state has behind it. */
  function Depth(s: TaskState): nat {
    match s
    case Planning => 1
    case Executing => 2
    case Reviewing => 3
    case _ => 0
  }

  predicate Live(s: TaskState) {
    s in {Pending, Planning, Executing, Reviewing}
  }

  function States(trace: seq<TraceEvent>): seq<TaskState> {
    seq(|trace|, i requires 0 <= i < |trace| => trace[i].state)
  }

  /** One of the calls of a node got as far as announcing its state. */
  predicate AnnouncedIn(calls: seq<R.Call>, index: nat) {
    exists j :: 0 <= j < |calls| && calls[j].index == index && calls[j].progress != R.NotReached
  }

  /** The states that the calls of a run store, each at the first announcement of its node. */
  function NewStates(calls: seq<R.Call>): seq<TaskState> {
    if calls == [] then []
    else
      var before, last := calls[..|calls| - 1], calls[|calls| - 1];
      NewStates(before)
      + if last.index < 3 && last.progress == R.Reached && !AnnouncedIn(before, last.index)
        then [TargetOf(last.index)] else []
  }

  function LastOf(states: seq<TaskState>, otherwise: TaskState): TaskState {
    if states == [] then otherwise else states[|states| - 1]
  }

  /** How a run that was not cut off ends the trace. */
  function Closing(outcome: R.Outcome): seq<TaskState> {
    match outcome
    case Finished(_) => [Success]
    case Stopped(Cancelled) => [Cancelled]
    case Stopped(Crash) => []
    case Stopped(_) => [Failed]
  }

  /** The run's state after the first `k` calls: the node of the last one, once it was announced. */
  ghost predicate Following(rows: map<string, R.Checkpoint>, calls: seq<R.Call>, k: nat, state: TaskState)
    requires k <= |calls|
  {
    && Live(state) && (k == 0 ==> state == Seed(rows))
    && (forall j | 0 <= j < k :: calls[j].index <= calls[k - 1].index < 3)
    && (k > 0 ==> Depth(state) == calls[k - 1].index + if AnnouncedIn(calls[..k], calls[k - 1].index) then 1 else 0)
    && (k > 0 && calls[k - 1].returned ==> AnnouncedIn(calls[..k], calls[k - 1].index))
  }

  lemma NothingAnnounced(calls: seq<R.Call>, rows: map<string, R.Checkpoint>, trace: seq<TraceEvent>,
                         taskState: TaskState)
    ensures Following(rows, calls, 0, Seed(rows)) && NewStates(calls[..0]) == []
    ensures States(trace) == States(trace) + NewStates(calls[..0])
    ensures taskState == LastOf(NewStates(calls[..0]), taskState)
  {
  }

  /** The next announcement is legal, and changes the state exactly if it is the first of its node. */
  lemma AnnounceNext(nodes: seq<R.Node>, rows: map<string, R.Checkpoint>, calls: seq<R.Call>, k: nat,
                     state: TaskState)
    requires ReviewNodes(nodes) && k < |calls| && Following(rows, calls, k, state)
    requires R.CallsInOrder(nodes, rows, calls) && R.CompletedPrefix(nodes, rows)
    ensures calls[k].index < 3
    ensures var target := TargetOf(calls[k].index);
      && target != Success && (target == state || Allowed(state, target))
      && Following(rows, calls, k + 1, if calls[k].progress == R.NotReached then state else target)
      && NewStates(calls[..k + 1])
         == NewStates(calls[..k]) + (if calls[k].progress == R.Reached && target != state then [target] else [])
  {
    var index := calls[k].index;
    NextDepth(nodes, rows, calls, k);
    assert R.FollowsAt(nodes, rows, calls, k);
    AnnouncedNext(calls, k, index);
    if k > 0 && calls[k - 1].index < index {
      assert !AnnouncedIn(calls[..k], index);
    }
  }

  lemma AnnouncedNext(calls: seq<R.Call>, k: nat, index: nat)
    requires k < |calls|
    ensures calls[..k + 1][..k] == calls[..k] && calls[..k + 1][k] == calls[k]
    ensures AnnouncedIn(calls[..k + 1], index)
       <==> AnnouncedIn(calls[..k], index) || (calls[k].index == index && calls[k].progress != R.NotReached)
  {
    if AnnouncedIn(calls[..k], index) {
      var j :| 0 <= j < k && calls[..k][j].index == index && calls[..k][j].progress != R.NotReached;
      assert calls[..k + 1][j] == calls[..k][j];
    }
    assert calls[..k + 1][k] == calls[k];
    if AnnouncedIn(calls[..k + 1], index) {
      var j :| 0 <= j < k + 1 && calls[..k + 1][j].index == index && calls[..k + 1][j].progress != R.NotReached;
      assert j < k ==> calls[..k][j] == calls[..k + 1][j];
    }
  }

  lemma StatesGrow(trace: seq<TraceEvent>, event: TraceEvent)
    ensures States(trace + [event]) == States(trace) + [event.state]
  {
  }

  lemma LastOfGrown(states: seq<TaskState>, next: TaskState, otherwise: TaskState)
    ensures LastOf(states + [next], otherwise) == next && states + [] == states
  {
  }

  lemma {:induction false} NoSuccess(calls: seq<R.Call>)
    ensures Success !in NewStates(calls)
  {
    if calls != [] {
      NoSuccess(calls[..|calls| - 1]);
    }
  }

  lemma AllAnnounced(rows: map<string, R.Checkpoint>, calls: seq<R.Call>, state: TaskState, taskState: TaskState)
    requires Following(rows, calls, |calls|, state)
    ensures calls[..|calls|] == calls && Live(state)
    ensures calls == [] ==> state == Seed(rows)
    ensures calls != [] && calls[|calls| - 1].returned ==> Depth(state) == calls[|calls| - 1].index + 1
    ensures taskState != Success ==> LastOf(NewStates(calls), taskState) != Success
  {
    assert calls[..|calls|] == calls;
    NoSuccess(calls);
  }

  class ReviewHarness {
    const runtime: R.AgentRuntime
    const nodes: seq<R.Node>
    const store: R.CheckpointStore
    var taskState: TaskState
    var trace: seq<TraceEvent>
    // The context of the current run.
    var state: TaskState
    var step: nat

    constructor (runtime: R.AgentRuntime, nodes: seq<R.Node>, store: R.CheckpointStore)
      ensures this.runtime == runtime && this.nodes == nodes && this.store == store
      ensures taskState == Pending && trace == []
    {
      this.runtime, this.nodes, this.store := runtime, nodes, store;
      taskState, trace, state, step := Pending, [], Pending, 0;
    }

    /** Every trace step is below the context's counter, and steps go up. */
    ghost predicate TraceValid()
      reads this
    {
      StepsIncrease(trace) && forall e | e in trace :: e.step <= step
    }

    /** Moves the run to `target`; false is the "invalid state transition" error. */
    method Transition(target: TaskState, stored: bool) returns (ok: bool)
      requires TraceValid()
      modifies this`state, this`step, this`trace, this`taskState
      ensures TraceValid() && old(trace) <= trace
      ensures ok <==> target == old(state) || Allowed(old(state), target)
      ensures state == if ok then target else old(state)
      ensures taskState == if ok && target != old(state) && stored then target else old(taskState)
      ensures trace == if ok && target != old(state) && stored then old(trace) + [TraceEvent(old(step) + 1, target)]
        else old(trace)
    {
      if target == state {
        return true;
      }
      if !Allowed(state, target) {
        return false;
      }
      step := step + 1;
      state := target;
      if stored {
        trace, taskState := trace + [TraceEvent(step, target)], target;
      }
      return true;
    }

    /**
     * Replays what the handlers of one run announced, in the order they were called: each node's
     * state enters the trace once, at the first call that got as far as storing it.
     */
    method Announce(calls: seq<R.Call>, ghost rows: map<string, R.Checkpoint>) returns (legal: bool)
      requires TraceValid() && ReviewNodes(nodes)
      requires R.CallsInOrder(nodes, rows, calls) && R.CompletedPrefix(nodes, rows) && state == Seed(rows)
      modifies this`state, this`step, this`trace, this`taskState
      ensures TraceValid() && old(trace) <= trace && legal && Live(state)
      ensures old(taskState) != Success ==> taskState != Success
      ensures States(trace) == States(old(trace)) + NewStates(calls)
      ensures taskState == LastOf(NewStates(calls), old(taskState))
      ensures calls == [] ==> state == Seed(rows)
      ensures calls != [] && calls[|calls| - 1].returned ==> Depth(state) == calls[|calls| - 1].index + 1
    {
      hide R.CallsInOrder, R.CompletedPrefix, States, NewStates, LastOf, Seed, Depth, Live, Allowed, ReviewNodes;
      hide AnnouncedIn, StepsIncrease, TargetOf;
      NothingAnnounced(calls, rows, trace, taskState);
      for k := 0 to |calls|
        invariant TraceValid() && old(trace) <= trace
        invariant Following(rows, calls, k, state)
        invariant States(trace) == States(old(trace)) + NewStates(calls[..k])
        invariant taskState == LastOf(NewStates(calls[..k]), old(taskState))
      {
        AnnounceNext(nodes, rows, calls, k, state);
        StatesGrow(trace, TraceEvent(step + 1, TargetOf(calls[k].index)));
        LastOfGrown(NewStates(calls[..k]), TargetOf(calls[k].index), old(taskState));
        var target := TargetOf(calls[k].index);
        if calls[k].progress != R.NotReached {
          var ok := Transition(target, calls[k].progress == R.Reached);
          if !ok {
            return false;
          }
        }
      }
      AllAnnounced(rows, calls, state, old(taskState));
      return true;
    }

    /** What holds between runs. */
    ghost predicate Valid(initial: R.State)
      reads this, store
    {
      && ReviewNodes(nodes) && R.Resumable(nodes, initial, runtime.nodeRetries)
      && R.Consistent(nodes, initial, store.rows) && R.CompletedPrefix(nodes, store.rows)
      && R.AttemptsIncrease(store.rows, store.saves) && StepsIncrease(trace)
    }

    /** Stores the last event of a run. */
    method Close(last: TaskState)
      requires TraceValid()
      modifies this`step, this`trace, this`taskState
      ensures trace == old(trace) + [TraceEvent(old(step) + 1, last)] && StepsIncrease(trace)
      ensures taskState == last
    {
      step := step + 1;
      trace, taskState := trace + [TraceEvent(step, last)], last;
    }

    /** One delivery of the task: starts from the checkpoints, runs, and stores how it ended. */
    method Run(initial: R.State, world: R.World)
      returns (outcome: Option<R.Outcome>, legal: bool, ghost calls: seq<R.Call>)
      requires Valid(initial)
      modifies this, store
      ensures Valid(initial) && legal && old(trace) <= trace
      ensures old(taskState) == Success
          ==> outcome.None? && taskState == Success && trace == old(trace) && store.rows == old(store.rows)
      ensures old(taskState) != Success ==> outcome.Some?
      ensures outcome.Some? ==>
        R.GoodRun(nodes, initial, runtime.nodeRetries, runtime.maxSteps, world, old(store.rows), store.rows,
                  outcome.value, calls)
      ensures outcome.Some? ==> States(trace) == States(old(trace)) + NewStates(calls) + Closing(outcome.value)
      ensures outcome.Some? ==> taskState == LastOf(NewStates(calls) + Closing(outcome.value), old(taskState))
      ensures outcome.Some? && outcome.value.Finished? ==> outcome.value.state == R.StateBefore(nodes, initial, 3)
      ensures outcome.Some? && outcome.value.Finished? ==> taskState == Success && state == Reviewing
      ensures outcome.Some? && outcome.value.Stopped?
          ==> taskState != Success && (outcome.value.why != R.Crash ==> Live(state) && Allowed(state, taskState))
      ensures outcome.Some? && R.CleanFor(world, 3) && 3 <= runtime.maxSteps ==> outcome.value.Finished?
      ensures forall steps: nat | outcome.Some? && steps <= runtime.maxSteps
                                  && R.Patient(nodes, runtime.nodeRetries, steps, world) :: outcome.value.Finished?
      ensures forall n | R.IsCompleted(old(store.rows), n) :: n in store.rows && store.rows[n] == old(store.rows)[n]
    {
      hide R.Resumable, R.Consistent, R.CompletedPrefix, R.AttemptsIncrease, R.CallsInOrder, R.GoodRun, R.StateBefore;
      hide R.Patient, R.CleanFor, R.IsCompleted, R.ReachedNode, States, NewStates, LastOf, Closing, Seed, Depth, Live;
      hide Allowed, ReviewNodes;
      if taskState == Success {
        CompletedThere(store.rows);
        return None, true, [];
      }
      step := MaxStep(trace);
      state := Seed(store.rows);
      ghost var rows := store.rows;
      var result, made := runtime.Execute(initial, nodes, store, world);
      RunMeans(nodes, initial, runtime.nodeRetries, runtime.maxSteps, world, rows, store.rows, result, made);
      legal := Announce(made, rows);
      outcome, calls := Some(result), made;
      if result.Finished? {
        EndsReviewing(nodes, rows, calls, state);
      }
      ClosingMeans(result, NewStates(calls), old(taskState), state);
      StatesGrow(trace, TraceEvent(step + 1, LastOf(Closing(result), Failed)));
      if result.Finished? {
        Close(Success);
      } else if result.why == R.Cancelled {
        Close(Cancelled);
      } else if result.why != R.Crash {
        Close(Failed);
      }
    }
  }

  /** A call is for the node after the completed ones, for the same node again, or for the next one. */
  lemma NextDepth(nodes: seq<R.Node>, rows: map<string, R.Checkpoint>, calls: seq<R.Call>, k: nat)
    requires ReviewNodes(nodes)
    requires R.CallsInOrder(nodes, rows, calls) && R.CompletedPrefix(nodes, rows) && k < |calls|
    ensures k == 0 ==> calls[0].index == Depth(Seed(rows))
    ensures k > 0
        ==> calls[k].index == calls[k - 1].index || (calls[k - 1].returned && calls[k].index == calls[k - 1].index + 1)
  {
    assert R.FollowsAt(nodes, rows, calls, k);
    assert k > 0 ==> R.FollowsAt(nodes, rows, calls, k - 1);
  }

  /** A run that passed every node is in the last state. */
  lemma EndsReviewing(nodes: seq<R.Node>, rows: map<string, R.Checkpoint>, calls: seq<R.Call>, state: TaskState)
    requires ReviewNodes(nodes) && R.CallsInOrder(nodes, rows, calls) && R.CompletedPrefix(nodes, rows)
    requires R.ReachedNode(nodes, rows, calls, 3) && Live(state)
    requires calls == [] ==> state == Seed(rows)
    requires calls != [] && calls[|calls| - 1].returned ==> Depth(state) == calls[|calls| - 1].index + 1
    ensures state == Reviewing
  {
    if calls == [] {
      assert R.Restored(rows, nodes[2]);
    } else {
      assert R.FollowsAt(nodes, rows, calls, |calls| - 1);
    }
  }

  lemma CompletedThere(rows: map<string, R.Checkpoint>)
    ensures forall n | R.IsCompleted(rows, n) :: n in rows
  {
  }

  /** What a delivery needs to know about the run it made. */
  lemma RunMeans(nodes: seq<R.Node>, initial: R.State, nodeRetries: nat, maxSteps: nat, world: R.World,
                 rows: map<string, R.Checkpoint>, rows': map<string, R.Checkpoint>, outcome: R.Outcome,
                 calls: seq<R.Call>)
    requires ReviewNodes(nodes) && R.Resumable(nodes, initial, nodeRetries)
    requires R.GoodRun(nodes, initial, nodeRetries, maxSteps, world, rows, rows', outcome, calls)
    requires R.CompletedPrefix(nodes, rows)
    ensures R.CallsInOrder(nodes, rows, calls) && R.Consistent(nodes, initial, rows') && R.CompletedPrefix(nodes, rows')
    ensures outcome.Finished?
        ==> outcome.state == R.StateBefore(nodes, initial, 3) && R.ReachedNode(nodes, rows, calls, 3)
    ensures forall n | R.IsCompleted(rows, n) :: n in rows' && rows'[n] == rows[n]
    ensures forall steps: nat | steps <= maxSteps && R.Patient(nodes, nodeRetries, steps, world) :: outcome.Finished?
    ensures R.CleanFor(world, 3) && 3 <= maxSteps ==> outcome.Finished?
  {
    hide R.CallsInOrder, R.Consistent, R.CompletedPrefix, R.StateBefore, R.ReachedNode, R.IsCompleted, R.Patient;
    hide R.CleanFor, R.Resumable, R.AllGo, R.WithinRetries, R.RowsAfter, R.Restored;
    forall steps: nat | steps <= maxSteps && R.Patient(nodes, nodeRetries, steps, world)
      ensures outcome.Finished?
    {
      R.PatientRunFinishes(nodes, initial, nodeRetries, maxSteps, world, rows, rows', outcome, calls, steps);
    }
    if R.CleanFor(world, 3) {
      R.CleanIsPatient(nodes, initial, nodeRetries, world);
    }
  }

  /** The last move of a run is legal and leaves the task in the state it names. */
  lemma ClosingMeans(outcome: R.Outcome, states: seq<TaskState>, taskState: TaskState, state: TaskState)
    requires Live(state) && (outcome.Finished? ==> state == Reviewing)
    ensures states + [] == states && (Closing(outcome) == [] <==> outcome == R.Stopped(R.Crash))
    ensures Closing(outcome) != [] ==>
      var last := LastOf(Closing(outcome), Failed);
      Closing(outcome) == [last] && LastOf(states + [last], taskState) == last && Allowed(state, last)
    ensures outcome.Finished? ==> Closing(outcome) == [Success]
    ensures outcome == R.Stopped(R.Cancelled) ==> Closing(outcome) == [Cancelled]
    ensures outcome.Stopped? && outcome.why in {R.OutOfBudget, R.Error} ==> Closing(outcome) == [Failed]
    ensures LastOf(Closing(outcome), Failed) == Success ==> outcome.Finished?
  {
  }

  /**
   * A task delivered again and again, failing, dying or being cancelled anywhere: no state
   * transition is ever illegal, completed checkpoints stay a prefix of the three nodes, trace
   * steps only go up, and success is final.
   */
  method Life(harness: ReviewHarness, initial: R.State, worlds: seq<R.World>)
    returns (legal: bool, outcomes: seq<Option<R.Outcome>>)
    requires harness.Valid(initial)
    modifies harness, harness.store
    ensures legal && harness.Valid(initial) && old(harness.trace) <= harness.trace
    ensures |outcomes| == |worlds|
    ensures forall r | 0 <= r < |worlds| && outcomes[r].Some? && outcomes[r].value.Finished? ::
      outcomes[r].value.state == R.StateBefore(harness.nodes, initial, 3)
    ensures forall q, r | 0 <= q < r < |worlds| && outcomes[q].Some? && outcomes[q].value.Finished? :: outcomes[r].None?
  {
    hide R.Resumable, R.Consistent, R.CompletedPrefix, R.AttemptsIncrease, R.GoodRun, R.StateBefore, NewStates;
    hide States, LastOf, Closing, StepsIncrease, R.Patient, R.CleanFor, R.IsCompleted, Live, Allowed;
    legal, outcomes := true, [];
    for r := 0 to |worlds|
      invariant legal && harness.Valid(initial) && old(harness.trace) <= harness.trace
      invariant |outcomes| == r
      invariant forall q | 0 <= q < r && outcomes[q].Some? && outcomes[q].value.Finished? ::
        outcomes[q].value.state == R.StateBefore(harness.nodes, initial, 3)
      invariant forall q, p | 0 <= q < p < r && outcomes[q].Some? && outcomes[q].value.Finished? :: outcomes[p].None?
      invariant forall q | 0 <= q < r && outcomes[q].Some? && outcomes[q].value.Finished? ::
        harness.taskState == Success
    {
      var outcome, ok, _ := harness.Run(initial, worlds[r]);
      legal, outcomes := legal && ok, outcomes + [outcome];
    }
  }
}
