/** Several deliveries of one task at the same time: what the shared checkpoints keep, and what they lose. */
module Deliveries {
  import opened Models
  import R = Runtime

  type RunId = nat

  /** A run on the checkpoints it loaded: the node it is at, its state, and the failed tries at that node. */
  datatype Run = Run(loaded: map<string, R.Checkpoint>, i: nat, state: R.State, tries: nat)

  /** The checkpoint rows of the task, and the runs that are alive. */
  datatype Shared = Shared(rows: map<string, R.Checkpoint>, runs: map<RunId, Run>)

  /**
   * Miss is a try that ends with a failed checkpoint, `ran` whether its handler had returned.  A run that stops or
   * dies leaves; the attempts it is allowed and its step budget are not limited here.
   */
  datatype Step =
    | Load(p: RunId)
    | Restore(p: RunId)
    | Return(p: RunId)
    | Miss(p: RunId, ran: bool)
    | Leave(p: RunId)

  /** The task: its nodes and what a run starts from. */
  datatype Task = Task(nodes: seq<R.Node>, initial: R.State) {
    ghost predicate Valid() {
      R.Resumable(nodes, initial, 0)
    }
  }

  predicate AtNode(task: Task, s: Shared, p: RunId) {
    p in s.runs && s.runs[p].i < |task.nodes|
  }

  /** The run passes its node by its own checkpoints. */
  predicate Restores(task: Task, s: Shared, p: RunId)
    requires AtNode(task, s, p)
  {
    R.Restored(s.runs[p].loaded, task.nodes[s.runs[p].i])
  }

  /** Attempts are counted on from the checkpoint the run loaded. */
  function Attempt(node: R.Node, run: Run): nat {
    1 + run.tries + if node.checkpoint && node.name in run.loaded then run.loaded[node.name].attempt else 0
  }

  function Saved(rows: map<string, R.Checkpoint>, node: R.Node, c: R.Checkpoint): map<string, R.Checkpoint> {
    if node.checkpoint then rows[node.name := c] else rows
  }

  function Next(task: Task, s: Shared, step: Step): Shared {
    match step
    case Load(p) => if p in s.runs then s else s.(runs := s.runs[p := Run(s.rows, 0, task.initial, 0)])
    case Restore(p) =>
      if !AtNode(task, s, p) || !Restores(task, s, p) then s
      else
        var run := s.runs[p];
        var output := run.loaded[task.nodes[run.i].name].state;
        s.(runs := s.runs[p := Run(run.loaded, run.i + 1, run.state + output, 0)])
    case Return(p) =>
      if !AtNode(task, s, p) || Restores(task, s, p) then s
      else
        var run, node := s.runs[p], task.nodes[s.runs[p].i];
        var output := node.handler(run.state);
        Shared(
          Saved(s.rows, node, R.Checkpoint(R.Completed, Attempt(node, run), output)),
          s.runs[p := Run(run.loaded, run.i + 1, run.state + output, 0)])
    case Miss(p, ran) =>
      if !AtNode(task, s, p) || Restores(task, s, p) then s
      else
        var run, node := s.runs[p], task.nodes[s.runs[p].i];
        var state := if ran then run.state + node.handler(run.state) else run.state;
        Shared(
          Saved(s.rows, node, R.Checkpoint(R.Failed, Attempt(node, run), map[])),
          s.runs[p := Run(run.loaded, run.i, state, run.tries + 1)])
    case Leave(p) => s.(runs := s.runs - {p})
  }

  function From(task: Task, s: Shared, steps: seq<Step>): Shared {
    if steps == [] then s else Next(task, From(task, s, steps[..|steps| - 1]), steps[|steps| - 1])
  }

  lemma FromLast(task: Task, s: Shared, steps: seq<Step>, last: Step)
    ensures From(task, s, steps + [last]) == Next(task, From(task, s, steps), last)
  {
    hide Next;
    assert (steps + [last])[..|steps|] == steps;
  }

  // ---- What every interleaving keeps ------------------------------------------------------

  /** The run has the state of the uninterrupted run at its node, or has already added the output of that node to it. */
  ghost predicate RunOk(task: Task, run: Run) {
    && run.i <= |task.nodes| && R.Consistent(task.nodes, task.initial, run.loaded)
    && var before := R.StateBefore(task.nodes, task.initial, run.i);
       run.state == before || (run.i < |task.nodes| && run.state == before + task.nodes[run.i].handler(before))
  }

  ghost predicate Inv(task: Task, s: Shared) {
    R.Consistent(task.nodes, task.initial, s.rows) && forall p | p in s.runs :: RunOk(task, s.runs[p])
  }

  /** Whichever state the run has, its handler gives the right output, and that leads to the next state. */
  lemma OutputRight(task: Task, run: Run)
    requires task.Valid() && RunOk(task, run) && run.i < |task.nodes|
    ensures var output := task.nodes[run.i].handler(run.state);
      && output == R.OutputOf(task.nodes, task.initial, run.i)
      && run.state + output == R.StateBefore(task.nodes, task.initial, run.i + 1)
    ensures var before := R.StateBefore(task.nodes, task.initial, run.i);
      R.StateBefore(task.nodes, task.initial, run.i + 1) == before + task.nodes[run.i].handler(before)
  {
    var before := R.StateBefore(task.nodes, task.initial, run.i);
    var handler := task.nodes[run.i].handler;
    assert R.Repeatable(handler, before);
    assert before + handler(before) + handler(before) == before + handler(before);
  }

  lemma SavedRight(task: Task, rows: map<string, R.Checkpoint>, i: nat, c: R.Checkpoint)
    requires task.Valid() && i < |task.nodes| && R.Consistent(task.nodes, task.initial, rows)
    requires c.status == R.Completed ==> c.state == R.OutputOf(task.nodes, task.initial, i)
    ensures R.Consistent(task.nodes, task.initial, Saved(rows, task.nodes[i], c))
  {
    var after := Saved(rows, task.nodes[i], c);
    hide R.OutputOf, R.Repeatable;
    forall j | 0 <= j < |task.nodes| && R.Restored(after, task.nodes[j])
      ensures after[task.nodes[j].name].state == R.OutputOf(task.nodes, task.initial, j)
    {
      assert j != i && task.nodes[i].checkpoint ==> task.nodes[j].name != task.nodes[i].name;
    }
  }

  /** Wherever the run goes from its node, it is as it should be there. */
  lemma RunMoves(task: Task, run: Run)
    requires task.Valid() && RunOk(task, run) && run.i < |task.nodes|
    ensures var more := run.state + task.nodes[run.i].handler(run.state);
      && RunOk(task, Run(run.loaded, run.i + 1, more, 0))
      && RunOk(task, Run(run.loaded, run.i, run.state, run.tries + 1))
      && RunOk(task, Run(run.loaded, run.i, more, run.tries + 1))
    ensures R.Restored(run.loaded, task.nodes[run.i])
        ==> run.loaded[task.nodes[run.i].name].state == task.nodes[run.i].handler(run.state)
  {
    OutputRight(task, run);
    hide R.StateBefore, R.OutputOf, R.Resumable;
  }

  lemma InvUpdate(task: Task, s: Shared, p: RunId, run: Run, rows: map<string, R.Checkpoint>)
    requires Inv(task, s) && RunOk(task, run) && R.Consistent(task.nodes, task.initial, rows)
    ensures Inv(task, Shared(rows, s.runs[p := run]))
  {
    hide RunOk, R.Consistent;
  }

  lemma RunStarts(task: Task, rows: map<string, R.Checkpoint>)
    requires R.Consistent(task.nodes, task.initial, rows)
    ensures RunOk(task, Run(rows, 0, task.initial, 0))
  {
    hide R.Consistent;
  }

  lemma StepKeepsInv(task: Task, s: Shared, step: Step)
    requires task.Valid() && Inv(task, s)
    ensures Inv(task, Next(task, s, step))
  {
    hide RunOk, R.Consistent, R.StateBefore, R.OutputOf, R.Restored, Saved, Attempt, Task.Valid;
    match step
    case Load(p) =>
      RunStarts(task, s.rows);
      InvUpdate(task, s, p, Run(s.rows, 0, task.initial, 0), s.rows);
    case Leave(_) =>
    case _ =>
      if AtNode(task, s, step.p) {
        var p, run, node := step.p, s.runs[step.p], task.nodes[s.runs[step.p].i];
        var output := node.handler(run.state);
        OutputRight(task, run);
        RunMoves(task, run);
        var completed := R.Checkpoint(R.Completed, Attempt(node, run), output);
        var failed := R.Checkpoint(R.Failed, Attempt(node, run), map[]);
        SavedRight(task, s.rows, run.i, completed);
        SavedRight(task, s.rows, run.i, failed);
        InvUpdate(task, s, p, Run(run.loaded, run.i + 1, run.state + output, 0), s.rows);
        InvUpdate(task, s, p, Run(run.loaded, run.i + 1, run.state + output, 0), Saved(s.rows, node, completed));
        InvUpdate(task, s, p, Run(run.loaded, run.i, run.state, run.tries + 1), Saved(s.rows, node, failed));
        InvUpdate(task, s, p, Run(run.loaded, run.i, run.state + output, run.tries + 1), Saved(s.rows, node, failed));
        hide Inv;
      }
  }

  /**
   * Any number of deliveries of one task, in any interleaving, each failing or dying anywhere: every completed
   * checkpoint holds what the uninterrupted run would, and a run that has passed every node has its result.
   */
  lemma {:induction false} EveryInterleavingRight(task: Task, s: Shared, steps: seq<Step>)
    requires task.Valid() && Inv(task, s)
    ensures var t := From(task, s, steps);
      && Inv(task, t)
      && forall p | p in t.runs && t.runs[p].i == |task.nodes| ::
           t.runs[p].state == R.StateBefore(task.nodes, task.initial, |task.nodes|)
  {
    if steps != [] {
      EveryInterleavingRight(task, s, steps[..|steps| - 1]);
      StepKeepsInv(task, From(task, s, steps[..|steps| - 1]), steps[|steps| - 1]);
      hide Next;
    }
  }

  // ---- Whether a completed checkpoint is kept --------------------------------------------------

  ghost predicate IsDone(task: Task, s: Shared, k: nat)
    requires k < |task.nodes|
  {
    R.IsCompleted(s.rows, task.nodes[k].name)
  }

  /** Every run that is alive has passed node `k` or has loaded its completed checkpoint. */
  ghost predicate NoneBehind(task: Task, s: Shared, k: nat)
    requires k < |task.nodes|
  {
    forall p | p in s.runs :: s.runs[p].i > k || R.Restored(s.runs[p].loaded, task.nodes[k])
  }

  /** The checkpoint of node `k` stays completed whatever happens next. */
  ghost predicate KeptForGood(task: Task, s: Shared, k: nat)
    requires k < |task.nodes|
  {
    forall steps :: IsDone(task, From(task, s, steps), k)
  }

  lemma NoneBehindStep(task: Task, s: Shared, step: Step, k: nat)
    requires task.Valid() && k < |task.nodes| && task.nodes[k].checkpoint
    requires IsDone(task, s, k) && NoneBehind(task, s, k)
    ensures IsDone(task, Next(task, s, step), k) && NoneBehind(task, Next(task, s, step), k)
    ensures Next(task, s, step).rows[task.nodes[k].name] == s.rows[task.nodes[k].name]
  {
    hide R.Repeatable, R.StateBefore, Attempt;
    if !step.Load? && !step.Leave? && AtNode(task, s, step.p) {
      var i := s.runs[step.p].i;
      assert i != k && task.nodes[i].checkpoint ==> task.nodes[i].name != task.nodes[k].name;
    }
  }

  lemma {:induction false} NoneBehindStays(task: Task, s: Shared, steps: seq<Step>, k: nat)
    requires task.Valid() && k < |task.nodes| && task.nodes[k].checkpoint
    requires IsDone(task, s, k) && NoneBehind(task, s, k)
    ensures IsDone(task, From(task, s, steps), k) && NoneBehind(task, From(task, s, steps), k)
    ensures From(task, s, steps).rows[task.nodes[k].name] == s.rows[task.nodes[k].name]
  {
    if steps != [] {
      NoneBehindStays(task, s, steps[..|steps| - 1], k);
      NoneBehindStep(task, From(task, s, steps[..|steps| - 1]), steps[|steps| - 1], k);
      hide Next, IsDone, NoneBehind;
    }
  }

  lemma MovesOn(task: Task, s: Shared, p: RunId)
    requires AtNode(task, s, p)
    ensures var t := Next(task, s, if Restores(task, s, p) then Restore(p) else Return(p));
      p in t.runs && t.runs[p].i == s.runs[p].i + 1 && t.runs[p].loaded == s.runs[p].loaded
  {
    hide Attempt, Saved;
  }

  /** A run behind node `k`, or the end, gets there. */
  lemma {:induction false} GetsTo(task: Task, s: Shared, p: RunId, k: nat) returns (steps: seq<Step>)
    requires k <= |task.nodes| && p in s.runs && s.runs[p].i <= k
    ensures var t := From(task, s, steps);
      p in t.runs && t.runs[p].i == k && t.runs[p].loaded == s.runs[p].loaded
    decreases k
  {
    assert From(task, s, []) == s;
    if s.runs[p].i == k {
      return [];
    }
    var before := GetsTo(task, s, p, k - 1);
    var t := From(task, s, before);
    var step := if Restores(task, t, p) then Restore(p) else Return(p);
    hide Next, Restores, From;
    MovesOn(task, t, p);
    FromLast(task, s, before, step);
    return before + [step];
  }

  lemma LoadsAgain(task: Task, s: Shared, p: RunId)
    requires p in s.runs
    ensures From(task, s, [Leave(p), Load(p)])
         == Shared(s.rows, s.runs[p := Run(s.rows, 0, task.initial, 0)])
  {
    assert From(task, s, []) == s;
    hide From;
    FromLast(task, s, [Leave(p)], Load(p));
    FromLast(task, s, [], Leave(p));
    assert [] + [Leave(p)] == [Leave(p)] && [Leave(p)] + [Load(p)] == [Leave(p), Load(p)];
    assert (s.runs - {p})[p := Run(s.rows, 0, task.initial, 0)] == s.runs[p := Run(s.rows, 0, task.initial, 0)];
  }

  /**
   * A delivery that dies, wherever it is and whatever others do, can be made again: it starts from the checkpoints
   * stored by then, and can get to the result of the uninterrupted run.
   */
  lemma DeliveredAgain(task: Task, s: Shared, p: RunId) returns (steps: seq<Step>)
    requires task.Valid() && Inv(task, s) && p in s.runs
    ensures var again := From(task, s, [Leave(p), Load(p)]);
      && again == Shared(s.rows, s.runs[p := Run(s.rows, 0, task.initial, 0)])
      && var t := From(task, again, steps);
         && p in t.runs && t.runs[p].i == |task.nodes|
         && t.runs[p].state == R.StateBefore(task.nodes, task.initial, |task.nodes|)
  {
    hide *;
    LoadsAgain(task, s, p);
    var again := From(task, s, [Leave(p), Load(p)]);
    EveryInterleavingRight(task, s, [Leave(p), Load(p)]);
    steps := GetsTo(task, again, p, |task.nodes|);
    EveryInterleavingRight(task, again, steps);
  }

  /** And fails there, over the completed checkpoint. */
  lemma BehindLoses(task: Task, s: Shared, p: RunId, k: nat) returns (steps: seq<Step>)
    requires k < |task.nodes| && task.nodes[k].checkpoint
    requires p in s.runs && s.runs[p].i <= k && !R.Restored(s.runs[p].loaded, task.nodes[k])
    ensures !IsDone(task, From(task, s, steps), k)
  {
    var before := GetsTo(task, s, p, k);
    FromLast(task, s, before, Miss(p, false));
    return before + [Miss(p, false)];
  }

  /**
   * A completed checkpoint is kept for good, in every continuation with any number of further deliveries, if and only
   * if every run that is alive has passed its node or has loaded it as completed.
   */
  lemma KeptExactly(task: Task, s: Shared, k: nat)
    requires task.Valid() && k < |task.nodes| && task.nodes[k].checkpoint && IsDone(task, s, k)
    ensures KeptForGood(task, s, k) <==> NoneBehind(task, s, k)
  {
    hide IsDone, Next, From;
    if NoneBehind(task, s, k) {
      forall steps
        ensures IsDone(task, From(task, s, steps), k)
      {
        NoneBehindStays(task, s, steps, k);
      }
    } else {
      var p :| p in s.runs && !(s.runs[p].i > k || R.Restored(s.runs[p].loaded, task.nodes[k]));
      var steps := BehindLoses(task, s, p, k);
    }
  }

  // ---- One delivery at a time ---------------------------------------------------------------------

  /** No run is behind any completed checkpoint. */
  ghost predicate NoneBehindAny(task: Task, s: Shared) {
    forall k: nat | k < |task.nodes| && task.nodes[k].checkpoint && IsDone(task, s, k) :: NoneBehind(task, s, k)
  }

  ghost predicate Alone(s: Shared) {
    forall p, q | p in s.runs && q in s.runs :: p == q
  }

  /** A delivery begins only when no other is alive. */
  ghost predicate OneAtATime(task: Task, s: Shared, steps: seq<Step>) {
    forall n: nat | n < |steps| && steps[n].Load? :: From(task, s, steps[..n]).runs == map[]
  }

  lemma AloneStep(task: Task, s: Shared, step: Step)
    requires task.Valid() && NoneBehindAny(task, s) && Alone(s) && (step.Load? ==> s.runs == map[])
    ensures NoneBehindAny(task, Next(task, s, step)) && Alone(Next(task, s, step))
  {
    hide R.Repeatable, R.StateBefore, Attempt;
    var t := Next(task, s, step);
    forall k: nat | k < |task.nodes| && task.nodes[k].checkpoint && IsDone(task, t, k)
      ensures NoneBehind(task, t, k)
    {
      if IsDone(task, s, k) {
        NoneBehindStep(task, s, step, k);
      }
    }
  }

  /** Delivered one at a time, as any number of times, a task loses no completed checkpoint. */
  lemma {:induction false} OneAtATimeKeeps(task: Task, s: Shared, steps: seq<Step>)
    requires task.Valid() && NoneBehindAny(task, s) && Alone(s) && OneAtATime(task, s, steps)
    ensures NoneBehindAny(task, From(task, s, steps)) && Alone(From(task, s, steps))
  {
    if steps != [] {
      var n := |steps| - 1;
      forall m: nat | m < n && steps[..n][m].Load?
        ensures From(task, s, steps[..n][..m]).runs == map[]
      {
        assert steps[..n][..m] == steps[..m];
      }
      OneAtATimeKeeps(task, s, steps[..n]);
      AloneStep(task, From(task, s, steps[..n]), steps[n]);
      hide Next, NoneBehindAny, Alone;
    }
  }

  /**
   * Two deliveries that load before either saves: the first completes its first node, the second fails at it, and the
   * completed checkpoint is gone.
   */
  lemma OverlapLoses(task: Task)
    requires task.nodes != [] && task.nodes[0].checkpoint
    ensures var both := [Load(1), Load(2), Return(1)];
      && IsDone(task, From(task, Shared(map[], map[]), both), 0)
      && !IsDone(task, From(task, Shared(map[], map[]), both + [Miss(2, false)]), 0)
  {
    var s, both := Shared(map[], map[]), [Load(1), Load(2), Return(1)];
    assert From(task, s, []) == s && [] + [Load(1)] + [Load(2)] + [Return(1)] == both;
    FromLast(task, s, [], Load(1));
    FromLast(task, s, [] + [Load(1)], Load(2));
    FromLast(task, s, [] + [Load(1)] + [Load(2)], Return(1));
    FromLast(task, s, both, Miss(2, false));
  }
}
