/** The durable runtime: bounded node execution with retries, checkpoints and resume. */
module Runtime {
  import opened Models

  /** Node state and outputs: keys to serialised values. */
  type State = map<string, string>

  datatype Status = Completed | Failed

  datatype Checkpoint = Checkpoint(status: Status, attempt: nat, state: State)

  datatype Node = Node(name: string, handler: State -> State, retries: Option<int>, checkpoint: bool)

  datatype Save = Save(name: string, attempt: nat)

  /** The checkpoints of one task; one row per node name. */
  class CheckpointStore {
    var rows: map<string, Checkpoint>
    ghost var saves: seq<Save>

    constructor ()
      ensures rows == map[] && saves == []
    {
      rows, saves := map[], [];
    }

    method SaveCheckpoint(name: string, state: State, status: Status, attempt: nat)
      modifies this
      ensures rows == old(rows)[name := Checkpoint(status, attempt, state)]
      ensures saves == old(saves) + [Save(name, attempt)]
    {
      rows := rows[name := Checkpoint(status, attempt, state)];
      saves := saves + [Save(name, attempt)];
    }
  }

  /** Saved attempt numbers of a node only go up, and its row holds the last one. */
  ghost predicate AttemptsIncrease(rows: map<string, Checkpoint>, saves: seq<Save>) {
    && (forall i, j | 0 <= i < j < |saves| && saves[i].name == saves[j].name :: saves[i].attempt < saves[j].attempt)
    && (forall i | 0 <= i < |saves| :: saves[i].name in rows && saves[i].attempt <= rows[saves[i].name].attempt)
  }

  // ---- What can happen to one attempt -------------------------------------

  /** A write of a checkpoint row: it commits, it is refused, or the process dies around it. */
  datatype Write = Commits | Refused | CrashBefore | CrashAfter

  /** How far a handler got with announcing its task state: not at all, only in memory, or stored. */
  datatype Progress = NotReached | Unstored | Reached

  datatype Event =
    | CancelRequested
    | TimedOut
    | Dies(progress: Progress)
    | Raises(progress: Progress, retryable: bool, failedWrite: Write)
    | Returns(write: Write, retryable: bool, failedWrite: Write)

  /** What happens at each step of a run. */
  type World = nat -> Event

  datatype Why = Cancelled | OutOfBudget | Error | Crash

  datatype Outcome = Finished(state: State) | Stopped(why: Why)

  /** A handler call: which node, which attempt, how far it got, and whether it returned normally. */
  datatype Call = Call(index: nat, attempt: nat, progress: Progress, returned: bool)

  // ---- What an event means for an attempt at a node --------------------------

  predicate IsCall(event: Event) {
    event.Dies? || event.Raises? || event.Returns?
  }

  /** How far the handler's announcement got. */
  function ProgressOf(event: Event): Progress {
    match event
    case Dies(progress) => progress
    case Raises(progress, _, _) => progress
    case Returns(_, _, _) => Reached
    case _ => NotReached
  }

  /** The handler returned and its checkpoint, if it has one, is stored. */
  predicate Passes(node: Node, event: Event) {
    event.Returns? && (node.checkpoint ==> event.write == Commits)
  }

  /** An exception reached the loop: the handler's own, or that of a refused checkpoint. */
  predicate Fails(node: Node, event: Event) {
    event.Raises? || (event.Returns? && node.checkpoint && event.write == Refused)
  }

  /** A failure that may be retried, with its failed row stored. */
  predicate Recovers(node: Node, event: Event) {
    Fails(node, event) && event.retryable && (node.checkpoint ==> event.failedWrite == Commits)
  }

  /** A failure that ends the run: not retryable, or its failed row was refused. */
  predicate GivesUp(node: Node, event: Event) {
    Fails(node, event) && (event.retryable ==> node.checkpoint && event.failedWrite == Refused)
  }

  predicate Crashes(write: Write) {
    write in {CrashBefore, CrashAfter}
  }

  /** The process died in the handler or around a write it got to. */
  predicate Breaks(node: Node, event: Event) {
    || event.Dies?
    || (event.Returns? && node.checkpoint && Crashes(event.write))
    || (Fails(node, event) && event.retryable && node.checkpoint && Crashes(event.failedWrite))
  }

  /** A stored row: its write committed, whether or not the process saw that. */
  predicate Lands(write: Write) {
    write in {Commits, CrashAfter}
  }

  /** The rows after an attempt that would produce `output`. */
  function Written(node: Node, output: State, rows: map<string, Checkpoint>, attempt: nat, event: Event)
    : map<string, Checkpoint>
  {
    if !node.checkpoint then rows
    else if event.Returns? && Lands(event.write) then rows[node.name := Checkpoint(Completed, attempt, output)]
    else if Fails(node, event) && event.retryable && Lands(event.failedWrite)
    then rows[node.name := Checkpoint(Failed, attempt, map[])]
    else rows
  }

  // ---- The uninterrupted run ------------------------------------------------

  /** The state node `i` sees when nothing is interrupted. */
  function StateBefore(nodes: seq<Node>, initial: State, i: nat): State
    requires i <= |nodes|
  {
    if i == 0 then initial
    else
      var before := StateBefore(nodes, initial, i - 1);
      before + nodes[i - 1].handler(before)
  }

  function OutputOf(nodes: seq<Node>, initial: State, i: nat): State
    requires i < |nodes|
  {
    nodes[i].handler(StateBefore(nodes, initial, i))
  }

  /** Seeing its own output does not change what a handler returns. */
  predicate Repeatable(handler: State -> State, state: State) {
    handler(state + handler(state)) == handler(state)
  }

  function RetriesOf(node: Node, nodeRetries: nat): int {
    if node.retries.Some? then node.retries.value else nodeRetries
  }

  predicate DistinctNames(nodes: seq<Node>) {
    forall i, j | 0 <= i < j < |nodes| && nodes[i].checkpoint && nodes[j].checkpoint :: nodes[i].name != nodes[j].name
  }

  /** Checkpointed nodes have different names, and every node is tried at least once and is repeatable. */
  ghost predicate Resumable(nodes: seq<Node>, initial: State, nodeRetries: nat) {
    && DistinctNames(nodes)
    && (forall i | 0 <= i < |nodes| ::
          RetriesOf(nodes[i], nodeRetries) >= 0 && Repeatable(nodes[i].handler, StateBefore(nodes, initial, i)))
  }

  predicate IsCompleted(rows: map<string, Checkpoint>, name: string) {
    name in rows && rows[name].status == Completed
  }

  predicate Restored(rows: map<string, Checkpoint>, node: Node) {
    node.checkpoint && IsCompleted(rows, node.name)
  }

  /** Every completed checkpoint holds what the uninterrupted run would produce there. */
  ghost predicate Consistent(nodes: seq<Node>, initial: State, rows: map<string, Checkpoint>) {
    forall i | 0 <= i < |nodes| && Restored(rows, nodes[i]) :: rows[nodes[i].name].state == OutputOf(nodes, initial, i)
  }

  /** If a checkpointed node is completed, so is every checkpointed node before it. */
  ghost predicate CompletedPrefix(nodes: seq<Node>, rows: map<string, Checkpoint>) {
    forall i, j | 0 <= i < j < |nodes| && nodes[i].checkpoint && Restored(rows, nodes[j]) :: Restored(rows, nodes[i])
  }

  /** A call after node `previous`: it skips only restored nodes, and moves on only after a normal return. */
  ghost predicate Follows(nodes: seq<Node>, rows: map<string, Checkpoint>, previous: int, returned: bool, call: Call) {
    && call.index < |nodes| && !Restored(rows, nodes[call.index])
    && previous <= call.index
    && (forall m | 0 <= m < |nodes| && previous < m < call.index :: Restored(rows, nodes[m]))
    && (previous < call.index ==> returned)
    && (call.returned ==> call.progress == Reached)
  }

  ghost predicate FollowsAt(nodes: seq<Node>, rows: map<string, Checkpoint>, calls: seq<Call>, k: nat)
    requires k < |calls|
  {
    if k == 0 then Follows(nodes, rows, -1, true, calls[0])
    else Follows(nodes, rows, calls[k - 1].index, calls[k - 1].returned, calls[k])
  }

  ghost predicate CallsInOrder(nodes: seq<Node>, rows: map<string, Checkpoint>, calls: seq<Call>) {
    forall k | 0 <= k < |calls| :: FollowsAt(nodes, rows, calls, k)
  }

  /** The last attempt the checkpoints know of. */
  function LastAttempt(rows: map<string, Checkpoint>, node: Node): nat {
    if node.checkpoint && node.name in rows then rows[node.name].attempt else 0
  }

  /** Attempts at one node from step `first` on: numbered from `previous`, and all but the last were retried. */
  ghost predicate Tried(node: Node, index: nat, previous: nat, world: World, first: nat, calls: seq<Call>) {
    forall k | 0 <= k < |calls| :: TriedAt(node, index, previous, world, first, calls, k)
  }

  ghost predicate TriedAt(node: Node, index: nat, previous: nat, world: World, first: nat, calls: seq<Call>, k: nat)
    requires k < |calls|
  {
    var event := world(first + k);
    && IsCall(event) && calls[k] == Call(index, previous + 1 + k, ProgressOf(event), event.Returns?)
    && (k + 1 < |calls| ==> Recovers(node, event))
  }

  /** The rows after the first `n` of those attempts. */
  function NodeRows(node: Node, output: State, rows: map<string, Checkpoint>, previous: nat, world: World, first: nat,
                    n: nat): map<string, Checkpoint>
  {
    if n == 0 then rows
    else
      var before := NodeRows(node, output, rows, previous, world, first, n - 1);
      Written(node, output, before, previous + n, world(first + n - 1))
  }

  /** Why the attempts at one node ended after `n` calls, at step `steps`. */
  predicate NodeEnded(node: Node, retries: int, maxSteps: nat, world: World, steps: nat, n: nat, stop: Option<Why>) {
    match stop
    case None => 0 < n <= steps && Passes(node, world(steps - 1))
    case Some(Crash) => 0 < n <= steps && Breaks(node, world(steps - 1))
    case Some(Error) =>
      0 < n <= steps && (GivesUp(node, world(steps - 1)) || (Recovers(node, world(steps - 1)) && n == retries + 1))
    case Some(why) =>
      && n <= steps && n <= retries && (n > 0 ==> Recovers(node, world(steps - 1)))
      && Interrupted(maxSteps, world, steps, why)
  }

  /** What the guard before a call finds: a cancellation first, then a spent budget. */
  predicate Interrupted(maxSteps: nat, world: World, steps: nat, why: Why) {
    if world(steps).CancelRequested? then why == Cancelled
    else why == OutOfBudget && (steps >= maxSteps || world(steps).TimedOut?)
  }

  // ---- What a whole run does -------------------------------------------------

  /** The rows after the calls of a run. */
  function RowsAfter(nodes: seq<Node>, initial: State, rows: map<string, Checkpoint>, world: World, calls: seq<Call>)
    : map<string, Checkpoint>
  {
    if calls == [] then rows
    else
      var last := calls[|calls| - 1];
      var before := RowsAfter(nodes, initial, rows, world, calls[..|calls| - 1]);
      if last.index >= |nodes| then before
      else Written(nodes[last.index], OutputOf(nodes, initial, last.index), before, last.attempt,
                   world(|calls| - 1))
  }

  /** The number of an attempt: one more than that of the one before it in the run or in the checkpoint, or one. */
  predicate AttemptAfter(rows: map<string, Checkpoint>, node: Node, before: Option<nat>, attempt: nat) {
    match before
    case Some(last) => attempt == last + 1
    case None =>
      if node.checkpoint && node.name in rows then attempt == rows[node.name].attempt + 1 else attempt == 1
  }

  /** Call `k` answers to event `k`, and it is a retry exactly when the call before it failed. */
  ghost predicate Goes(nodes: seq<Node>, rows: map<string, Checkpoint>, world: World, calls: seq<Call>, k: nat)
    requires k < |calls|
  {
    var call, event := calls[k], world(k);
    var again := k > 0 && calls[k - 1].index == call.index;
    && call.index < |nodes| && (k > 0 ==> calls[k - 1].index < |nodes|)
    && IsCall(event) && call.progress == ProgressOf(event) && call.returned == event.Returns?
    && AttemptAfter(rows, nodes[call.index], if again then Some(calls[k - 1].attempt) else None, call.attempt)
    && (k > 0 ==> if again then Recovers(nodes[call.index], world(k - 1))
                  else Passes(nodes[calls[k - 1].index], world(k - 1)))
  }

  ghost predicate AllGo(nodes: seq<Node>, rows: map<string, Checkpoint>, world: World, calls: seq<Call>) {
    forall k | 0 <= k < |calls| :: Goes(nodes, rows, world, calls, k)
  }

  /** No node is called more often than its retries allow. */
  ghost predicate WithinRetries(nodes: seq<Node>, nodeRetries: nat, calls: seq<Call>) {
    forall k, m | 0 <= k < m < |calls| && calls[k].index == calls[m].index && calls[m].index < |nodes| ::
      match nodes[calls[m].index].retries
      case Some(own) => m - k <= own
      case None => m - k <= nodeRetries
  }

  /** The last calls are all of one node, as many as its retries allow. */
  predicate Exhausted(nodes: seq<Node>, nodeRetries: nat, calls: seq<Call>)
    requires calls != [] && calls[|calls| - 1].index < |nodes|
  {
    var last := calls[|calls| - 1].index;
    var retries := RetriesOf(nodes[last], nodeRetries);
    retries < |calls| && forall k | |calls| - 1 - retries <= k < |calls| && k >= 0 :: calls[k].index == last
  }

  ghost predicate LastPassed(nodes: seq<Node>, world: World, calls: seq<Call>) {
    calls != [] ==> calls[|calls| - 1].index < |nodes| && Passes(nodes[calls[|calls| - 1].index], world(|calls| - 1))
  }

  /** The run wants another call: its last failure may be retried, or there are nodes left. */
  ghost predicate WantsMore(nodes: seq<Node>, nodeRetries: nat, rows: map<string, Checkpoint>, world: World,
                            calls: seq<Call>) {
    || (LastPassed(nodes, world, calls) && !ReachedNode(nodes, rows, calls, |nodes|))
    || (calls != [] && calls[|calls| - 1].index < |nodes|
        && Recovers(nodes[calls[|calls| - 1].index], world(|calls| - 1)) && !Exhausted(nodes, nodeRetries, calls))
  }

  /** A run that made these calls had to end like this. */
  ghost predicate Ended(nodes: seq<Node>, nodeRetries: nat, maxSteps: nat, rows: map<string, Checkpoint>, world: World,
                        calls: seq<Call>, outcome: Outcome) {
    match outcome
    case Finished(_) => LastPassed(nodes, world, calls) && ReachedNode(nodes, rows, calls, |nodes|)
    case Stopped(Crash) =>
      calls != [] && calls[|calls| - 1].index < |nodes| && Breaks(nodes[calls[|calls| - 1].index], world(|calls| - 1))
    case Stopped(Error) =>
      calls != [] && calls[|calls| - 1].index < |nodes| &&
      var node := nodes[calls[|calls| - 1].index];
      || GivesUp(node, world(|calls| - 1))
      || (Recovers(node, world(|calls| - 1)) && Exhausted(nodes, nodeRetries, calls))
    case Stopped(why) =>
      WantsMore(nodes, nodeRetries, rows, world, calls) && Interrupted(maxSteps, world, |calls|, why)
  }

  class AgentRuntime {
    const maxSteps: nat
    const nodeRetries: nat

    constructor (maxSteps: nat, nodeRetries: nat)
      ensures this.maxSteps == maxSteps && this.nodeRetries == nodeRetries
    {
      this.maxSteps, this.nodeRetries := maxSteps, nodeRetries;
    }

    /** One attempt at a node: the handler call and the checkpoint write that follows it. */
    method Attempt(node: Node, index: nat, attempt: nat, before: State, seen: State, event: Event,
                   store: CheckpointStore)
      returns (state: State, call: Call, next: Next)
      requires IsCall(event)
      requires seen == before || seen == before + node.handler(before)
      requires Repeatable(node.handler, before)
      requires Unfinished(node, store.rows, attempt) && AttemptsIncrease(store.rows, store.saves)
      modifies store
      ensures state == before || state == before + node.handler(before)
      ensures call == Call(index, attempt, ProgressOf(event), event.Returns?)
      ensures (next.Stop? ==> next.why in {Error, Crash}) && (next.Done? <==> Passes(node, event))
      ensures next.Retry? <==> Recovers(node, event)
      ensures next == Stop(Error) <==> GivesUp(node, event)
      ensures next == Stop(Crash) <==> Breaks(node, event)
      ensures next.Done? ==> state == before + node.handler(before)
      ensures store.rows == Written(node, node.handler(before), old(store.rows), attempt, event)
      ensures AttemptsIncrease(store.rows, store.saves)
    {
      state := seen;
      match event {
        case Dies(progress) =>
          return state, Call(index, attempt, progress, false), Stop(Crash);
        case Raises(progress, _, _) =>
          call := Call(index, attempt, progress, false);
        case Returns(write, _, _) =>
          var output := node.handler(state);
          state := state + output;
          call := Call(index, attempt, Reached, true);
          if !node.checkpoint {
            return state, call, Done;
          }
          if write == CrashBefore {
            return state, call, Stop(Crash);
          }
          if write != Refused {
            SaveIncreases(store.rows, store.saves, node.name, Checkpoint(Completed, attempt, output));
            store.SaveCheckpoint(node.name, output, Completed, attempt);
            return state, call, if write == CrashAfter then Stop(Crash) else Done;
          }
      }
      if !event.retryable {
        return state, call, Stop(Error);
      }
      if !node.checkpoint {
        return state, call, Retry;
      }
      if event.failedWrite == CrashBefore {
        return state, call, Stop(Crash);
      }
      if event.failedWrite == Refused {
        return state, call, Stop(Error);
      }
      SaveIncreases(store.rows, store.saves, node.name, Checkpoint(Failed, attempt, map[]));
      store.SaveCheckpoint(node.name, map[], Failed, attempt);
      return state, call, if event.failedWrite == CrashAfter then Stop(Crash) else Retry;
    }

    /** All attempts at one node; `stop` None means the node finished. */
    method RunNode(node: Node, index: nat, before: State, previous: nat, store: CheckpointStore, world: World,
                   stepsBefore: nat)
      returns (state: State, steps: nat, calls: seq<Call>, stop: Option<Why>)
      requires Repeatable(node.handler, before) && RetriesOf(node, nodeRetries) >= 0
      requires stepsBefore <= maxSteps
      requires Unfinished(node, store.rows, previous + 1)
      requires AttemptsIncrease(store.rows, store.saves)
      modifies store
      ensures stepsBefore <= steps <= maxSteps && |calls| == steps - stepsBefore <= RetriesOf(node, nodeRetries) + 1
      ensures Tried(node, index, previous, world, stepsBefore, calls)
      ensures NodeEnded(node, RetriesOf(node, nodeRetries), maxSteps, world, steps, |calls|, stop)
      ensures store.rows
           == NodeRows(node, node.handler(before), old(store.rows), previous, world, stepsBefore, |calls|)
      ensures stop.None?
          ==> state == before + node.handler(before) && calls != [] && Passes(node, world(steps - 1))
      ensures stop.None? && node.checkpoint ==> Restored(store.rows, node)
      ensures Restored(store.rows, node)
          ==> node.name in store.rows && store.rows[node.name].state == node.handler(before)
      ensures OnlyOwnRow(node, old(store.rows), store.rows)
      ensures AttemptsIncrease(store.rows, store.saves)
    {
      hide Written, Passes, Recovers, GivesUp, Breaks, Unfinished, OnlyOwnRow, AttemptsIncrease, Repeatable, Tried;
      hide Restored, NodeRows, RetriesOf;
      state, steps, calls := before, stepsBefore, [];
      var retries := RetriesOf(node, nodeRetries);
      ghost var output := node.handler(before);
      NothingTried(node, index, previous, world, stepsBefore, store.rows);
      for offset := 1 to retries + 2
        invariant steps == stepsBefore + offset - 1 <= maxSteps && |calls| == offset - 1
        invariant state == before || state == before + output
        invariant Tried(node, index, previous, world, stepsBefore, calls)
        invariant calls != [] ==> Recovers(node, world(steps - 1))
        invariant store.rows == NodeRows(node, output, old(store.rows), previous, world, stepsBefore, |calls|)
        invariant Unfinished(node, store.rows, previous + offset) && !Restored(store.rows, node)
        invariant OnlyOwnRow(node, old(store.rows), store.rows)
        invariant AttemptsIncrease(store.rows, store.saves)
      {
        var event := world(steps);
        if event.CancelRequested? {
          return state, steps, calls, Some(Cancelled);
        }
        if steps >= maxSteps || event.TimedOut? {
          return state, steps, calls, Some(OutOfBudget);
        }
        steps := steps + 1;
        ghost var rows := store.rows;
        var call, next;
        state, call, next := Attempt(node, index, previous + offset, before, state, event, store);
        WrittenMeans(node, output, rows, previous + offset, event);
        OnlyOwnRowTwice(node, old(store.rows), rows, store.rows);
        TriedAgain(node, index, previous, world, stepsBefore, calls, call);
        RowsAgain(node, output, old(store.rows), previous, world, stepsBefore, offset);
        calls := calls + [call];
        if next.Done? {
          return state, steps, calls, None;
        }
        if next.Stop? {
          return state, steps, calls, Some(next.why);
        }
      }
      return state, steps, calls, Some(Error);
    }

    /** Passes one node: restores it if its checkpoint is completed, otherwise runs it. */
    method Visit(nodes: seq<Node>, ghost initial: State, i: nat, before: State, stepsBefore: nat, made: seq<Call>,
                 checkpoints: map<string, Checkpoint>, store: CheckpointStore, world: World)
      returns (state: State, steps: nat, calls: seq<Call>, stop: Option<Why>)
      requires Resumable(nodes, initial, nodeRetries) && i < |nodes|
      requires before == StateBefore(nodes, initial, i)
      requires UnderWay(nodes, initial, nodeRetries, checkpoints, store.rows, made, i, stepsBefore, maxSteps, world)
      requires AttemptsIncrease(store.rows, store.saves)
      modifies store
      ensures stop.None? ==> state == StateBefore(nodes, initial, i + 1)
      ensures stop.None?
        ==> UnderWay(nodes, initial, nodeRetries, checkpoints, store.rows, calls, i + 1, steps, maxSteps, world)
      ensures stop.Some?
          ==> GoodRun(nodes, initial, nodeRetries, maxSteps, world, checkpoints, store.rows, Stopped(stop.value), calls)
      ensures AttemptsIncrease(store.rows, store.saves)
    {
      hide *;
      var node := nodes[i];
      if Restored(checkpoints, node) {
        RestoredStep(nodes, initial, nodeRetries, checkpoints, store.rows, made, i, stepsBefore, maxSteps, world);
        return before + checkpoints[node.name].state, stepsBefore, made, None;
      }
      var previous := LastAttempt(checkpoints, node);
      NotYetRun(nodes, initial, nodeRetries, checkpoints, store.rows, made, i, stepsBefore, maxSteps, world);
      var more;
      state, steps, more, stop := RunNode(node, i, before, previous, store, world, stepsBefore);
      calls := made + more;
      NodeRan(nodes, initial, nodeRetries, checkpoints, old(store.rows), store.rows, made, more, i, steps, maxSteps,
              world, stop);
    }

    /** Runs the nodes in order from the checkpoints as loaded at the start. */
    method Execute(initial: State, nodes: seq<Node>, store: CheckpointStore, world: World)
      returns (outcome: Outcome, calls: seq<Call>)
      requires Resumable(nodes, initial, nodeRetries)
      requires Consistent(nodes, initial, store.rows) && AttemptsIncrease(store.rows, store.saves)
      modifies store
      ensures GoodRun(nodes, initial, nodeRetries, maxSteps, world, old(store.rows), store.rows, outcome, calls)
      ensures AttemptsIncrease(store.rows, store.saves)
    {
      hide *;
      var state, steps := initial, 0;
      calls := [];
      var checkpoints := store.rows;
      AtStart(nodes, initial, nodeRetries, checkpoints, maxSteps, world);
      for i := 0 to |nodes|
        invariant state == StateBefore(nodes, initial, i)
        invariant UnderWay(nodes, initial, nodeRetries, checkpoints, store.rows, calls, i, steps, maxSteps, world)
        invariant AttemptsIncrease(store.rows, store.saves)
      {
        var stop;
        state, steps, calls, stop := Visit(nodes, initial, i, state, steps, calls, checkpoints, store, world);
        if stop.Some? {
          return Stopped(stop.value), calls;
        }
      }
      FinishedRunGood(nodes, initial, nodeRetries, maxSteps, world, checkpoints, store.rows, calls, steps);
      return Finished(state), calls;
    }
  }

  /** What follows an attempt. */
  datatype Next = Done | Retry | Stop(why: Why)

  lemma WrittenMeans(node: Node, output: State, rows: map<string, Checkpoint>, attempt: nat, event: Event)
    requires IsCall(event) && Unfinished(node, rows, attempt)
    ensures var rows' := Written(node, output, rows, attempt, event);
      && OnlyOwnRow(node, rows, rows')
      && (Passes(node, event) && node.checkpoint ==> Restored(rows', node))
      && (Restored(rows', node) ==> node.name in rows' && rows'[node.name].state == output)
      && (Recovers(node, event) ==> Unfinished(node, rows', attempt + 1) && !Restored(rows', node))
  {
  }

  lemma NothingTried(node: Node, index: nat, previous: nat, world: World, first: nat, rows: map<string, Checkpoint>)
    requires Unfinished(node, rows, previous + 1)
    ensures Tried(node, index, previous, world, first, []) && OnlyOwnRow(node, rows, rows) && !Restored(rows, node)
    ensures forall output :: NodeRows(node, output, rows, previous, world, first, 0) == rows
  {
  }

  lemma RowsAgain(node: Node, output: State, rows: map<string, Checkpoint>, previous: nat, world: World, first: nat,
                  n: nat)
    requires n > 0
    ensures NodeRows(node, output, rows, previous, world, first, n)
         == Written(node, output, NodeRows(node, output, rows, previous, world, first, n - 1), previous + n,
                    world(first + n - 1))
  {
    hide Written;
  }

  lemma TriedAgain(node: Node, index: nat, previous: nat, world: World, first: nat, calls: seq<Call>, call: Call)
    requires Tried(node, index, previous, world, first, calls) && IsCall(world(first + |calls|))
    requires calls != [] ==> Recovers(node, world(first + |calls| - 1))
    requires call == Call(index, previous + 1 + |calls|, ProgressOf(world(first + |calls|)),
                          world(first + |calls|).Returns?)
    ensures Tried(node, index, previous, world, first, calls + [call])
  {
    hide Recovers;
    forall k | 0 <= k < |calls + [call]|
      ensures TriedAt(node, index, previous, world, first, calls + [call], k)
    {
      assert k < |calls| ==> TriedAt(node, index, previous, world, first, calls, k);
    }
  }

  lemma SaveIncreases(rows: map<string, Checkpoint>, saves: seq<Save>, name: string, c: Checkpoint)
    requires AttemptsIncrease(rows, saves) && (name in rows ==> rows[name].attempt < c.attempt)
    ensures AttemptsIncrease(rows[name := c], saves + [Save(name, c.attempt)])
  {
  }

  /** The node is not completed, and its row (if any) holds an attempt below `attempt`. */
  ghost predicate Unfinished(node: Node, rows: map<string, Checkpoint>, attempt: nat) {
    node.checkpoint && node.name in rows ==> rows[node.name].status == Failed && rows[node.name].attempt < attempt
  }

  /** Nothing but the node's own checkpoint row changed. */
  ghost predicate OnlyOwnRow(node: Node, rows: map<string, Checkpoint>, rows': map<string, Checkpoint>) {
    forall n | n != node.name || !node.checkpoint :: SameRow(rows, rows', n)
  }

  lemma OnlyOwnRowTwice(node: Node, rows: map<string, Checkpoint>, rows': map<string, Checkpoint>,
                        rows'': map<string, Checkpoint>)
    requires OnlyOwnRow(node, rows, rows') && OnlyOwnRow(node, rows', rows'')
    ensures OnlyOwnRow(node, rows, rows'')
  {
    forall n | n != node.name || !node.checkpoint
      ensures SameRow(rows, rows'', n)
    {
      assert SameRow(rows, rows', n) && SameRow(rows', rows'', n);
    }
  }

  /** Completed rows are right and are never lost, and they stay a prefix if they were one. */
  ghost predicate Progressed(nodes: seq<Node>, initial: State, loaded: map<string, Checkpoint>,
                             rows: map<string, Checkpoint>) {
    && Consistent(nodes, initial, rows)
    && (forall n | IsCompleted(loaded, n) :: n in rows && rows[n] == loaded[n])
    && (CompletedPrefix(nodes, loaded) ==> CompletedPrefix(nodes, rows))
  }

  /** Before node `i`: earlier checkpointed nodes are completed, the rows of the others are as loaded. */
  ghost predicate UpToDate(nodes: seq<Node>, loaded: map<string, Checkpoint>, rows: map<string, Checkpoint>, i: nat)
    requires i <= |nodes|
  {
    && (forall m | 0 <= m < i && nodes[m].checkpoint :: Restored(rows, nodes[m]))
    && (forall m | i <= m < |nodes| && nodes[m].checkpoint :: SameRow(loaded, rows, nodes[m].name))
  }

  predicate SameRow(rows: map<string, Checkpoint>, rows': map<string, Checkpoint>, name: string) {
    (name in rows' <==> name in rows) && (name in rows ==> rows'[name] == rows[name])
  }

  /** The calls so far got as far as node `i`: everything not called before it was restored. */
  ghost predicate ReachedNode(nodes: seq<Node>, loaded: map<string, Checkpoint>, calls: seq<Call>, i: nat)
    requires i <= |nodes|
  {
    && (calls != [] ==> calls[|calls| - 1].returned && calls[|calls| - 1].index < i)
    && (forall m | 0 <= m < i && (calls == [] || calls[|calls| - 1].index < m) :: Restored(loaded, nodes[m]))
  }

  /**
   * What every run guarantees, interrupted or not: a finished run ends in the uninterrupted
   * state with every checkpoint completed; the calls, how the run ends and the rows it leaves
   * are those its events ask for, within the step budget; and no completed checkpoint is lost
   * or falsified.
   */
  ghost predicate GoodRun(nodes: seq<Node>, initial: State, nodeRetries: nat, maxSteps: nat, world: World,
                          rows: map<string, Checkpoint>, rows': map<string, Checkpoint>, outcome: Outcome,
                          calls: seq<Call>) {
    && (outcome.Finished? ==> outcome.state == StateBefore(nodes, initial, |nodes|))
    && (outcome.Finished? ==> forall i | 0 <= i < |nodes| && nodes[i].checkpoint :: Restored(rows', nodes[i]))
    && Ended(nodes, nodeRetries, maxSteps, rows, world, calls, outcome)
    && |calls| <= maxSteps && CallsInOrder(nodes, rows, calls)
    && AllGo(nodes, rows, world, calls) && WithinRetries(nodes, nodeRetries, calls)
    && rows' == RowsAfter(nodes, initial, rows, world, calls)
    && Progressed(nodes, initial, rows, rows')
  }

  /** What holds when a run is about to pass node `i`. */
  ghost predicate OnCourse(nodes: seq<Node>, initial: State, loaded: map<string, Checkpoint>,
                           rows: map<string, Checkpoint>, calls: seq<Call>, i: nat)
    requires i <= |nodes|
  {
    && UpToDate(nodes, loaded, rows, i) && Progressed(nodes, initial, loaded, rows)
    && CallsInOrder(nodes, loaded, calls) && ReachedNode(nodes, loaded, calls, i)
  }

  /** The same with the steps, the events and the rows written so far. */
  ghost predicate UnderWay(nodes: seq<Node>, initial: State, nodeRetries: nat, loaded: map<string, Checkpoint>,
                           rows: map<string, Checkpoint>,
                           calls: seq<Call>, i: nat, steps: nat, maxSteps: nat, world: World)
    requires i <= |nodes|
  {
    && OnCourse(nodes, initial, loaded, rows, calls, i)
    && |calls| == steps <= maxSteps
    && AllGo(nodes, loaded, world, calls) && WithinRetries(nodes, nodeRetries, calls) && LastPassed(nodes, world, calls)
    && rows == RowsAfter(nodes, initial, loaded, world, calls)
  }

  lemma AtStart(nodes: seq<Node>, initial: State, nodeRetries: nat, loaded: map<string, Checkpoint>, maxSteps: nat,
                world: World)
    requires Consistent(nodes, initial, loaded)
    ensures UnderWay(nodes, initial, nodeRetries, loaded, loaded, [], 0, 0, maxSteps, world)
    ensures StateBefore(nodes, initial, 0) == initial
  {
  }

  lemma RestoredStep(nodes: seq<Node>, initial: State, nodeRetries: nat, loaded: map<string, Checkpoint>,
                     rows: map<string, Checkpoint>, calls: seq<Call>, i: nat, steps: nat, maxSteps: nat, world: World)
    requires i < |nodes| && Restored(loaded, nodes[i])
    requires UnderWay(nodes, initial, nodeRetries, loaded, rows, calls, i, steps, maxSteps, world)
    ensures nodes[i].name in loaded && loaded[nodes[i].name].state == OutputOf(nodes, initial, i)
    ensures StateBefore(nodes, initial, i + 1)
         == StateBefore(nodes, initial, i) + loaded[nodes[i].name].state
    ensures UnderWay(nodes, initial, nodeRetries, loaded, rows, calls, i + 1, steps, maxSteps, world)
  {
    hide AllGo, WithinRetries, LastPassed, RowsAfter, CallsInOrder;
    assert SameRow(loaded, rows, nodes[i].name);
    assert Restored(rows, nodes[i]);
  }

  /** A node that has to run starts from the row it had when the checkpoints were loaded. */
  lemma NotYetRun(nodes: seq<Node>, initial: State, nodeRetries: nat, loaded: map<string, Checkpoint>,
                  rows: map<string, Checkpoint>, calls: seq<Call>, i: nat, steps: nat, maxSteps: nat, world: World)
    requires Resumable(nodes, initial, nodeRetries) && i < |nodes| && !Restored(loaded, nodes[i])
    requires UnderWay(nodes, initial, nodeRetries, loaded, rows, calls, i, steps, maxSteps, world)
    ensures Unfinished(nodes[i], rows, LastAttempt(loaded, nodes[i]) + 1) && steps <= maxSteps
    ensures Repeatable(nodes[i].handler, StateBefore(nodes, initial, i)) && RetriesOf(nodes[i], nodeRetries) >= 0
    ensures OutputOf(nodes, initial, i) == nodes[i].handler(StateBefore(nodes, initial, i))
    ensures StateBefore(nodes, initial, i + 1) == StateBefore(nodes, initial, i) + OutputOf(nodes, initial, i)
    ensures DistinctNames(nodes) && |calls| == steps
  {
    hide AllGo, WithinRetries, LastPassed, RowsAfter, CallsInOrder, Progressed, DistinctNames;
    assert nodes[i].checkpoint ==> SameRow(loaded, rows, nodes[i].name);
  }

  /** The attempts at node `i` take the run past it, or end it. */
  lemma NodeRan(nodes: seq<Node>, initial: State, nodeRetries: nat, loaded: map<string, Checkpoint>,
                rows: map<string, Checkpoint>, rows': map<string, Checkpoint>, calls: seq<Call>, more: seq<Call>,
                i: nat, steps: nat, maxSteps: nat, world: World, stop: Option<Why>)
    requires DistinctNames(nodes) && i < |nodes| && !Restored(loaded, nodes[i])
    requires UnderWay(nodes, initial, nodeRetries, loaded, rows, calls, i, |calls|, maxSteps, world)
    requires |calls + more| == steps <= maxSteps && |more| <= RetriesOf(nodes[i], nodeRetries) + 1
    requires Tried(nodes[i], i, LastAttempt(loaded, nodes[i]), world, |calls|, more)
    requires NodeEnded(nodes[i], RetriesOf(nodes[i], nodeRetries), maxSteps, world, steps, |more|, stop)
    requires rows' == NodeRows(nodes[i], OutputOf(nodes, initial, i), rows, LastAttempt(loaded, nodes[i]), world,
                               |calls|, |more|)
    requires stop.None? ==> more != [] && Passes(nodes[i], world(steps - 1))
    requires stop.None? && nodes[i].checkpoint ==> Restored(rows', nodes[i])
    requires Restored(rows', nodes[i])
         ==> nodes[i].name in rows' && rows'[nodes[i].name].state == OutputOf(nodes, initial, i)
    requires OnlyOwnRow(nodes[i], rows, rows')
    ensures stop.None?
        ==> UnderWay(nodes, initial, nodeRetries, loaded, rows', calls + more, i + 1, steps, maxSteps, world)
    ensures stop.Some?
        ==> GoodRun(nodes, initial, nodeRetries, maxSteps, world, loaded, rows', Stopped(stop.value), calls + more)
  {
    hide *;
    var previous := LastAttempt(loaded, nodes[i]);
    UnderWayMeans(nodes, initial, nodeRetries, loaded, rows, calls, i, |calls|, maxSteps, world);
    CallsExtended(nodes, loaded, world, calls, more, i, previous);
    TriesFollow(nodes, nodeRetries, loaded, world, calls, more, i);
    RowsFollow(nodes, initial, loaded, world, calls, more, i, previous);
    RowsAdvance(nodes, initial, loaded, rows, rows', i, stop.None?);
    if stop.Some? {
      StoppedRunGood(nodes, initial, nodeRetries, maxSteps, world, loaded, rows', stop.value, calls, more, i);
    } else {
      PassedNode(nodes, world, calls, more, i, previous);
      UnderWayMeans(nodes, initial, nodeRetries, loaded, rows', calls + more, i + 1, steps, maxSteps, world);
    }
  }

  lemma UnderWayMeans(nodes: seq<Node>, initial: State, nodeRetries: nat, loaded: map<string, Checkpoint>,
                      rows: map<string, Checkpoint>, calls: seq<Call>, i: nat, steps: nat, maxSteps: nat, world: World)
    requires i <= |nodes|
    ensures UnderWay(nodes, initial, nodeRetries, loaded, rows, calls, i, steps, maxSteps, world) <==>
            && UpToDate(nodes, loaded, rows, i) && Progressed(nodes, initial, loaded, rows)
            && CallsInOrder(nodes, loaded, calls) && ReachedNode(nodes, loaded, calls, i)
            && |calls| == steps <= maxSteps
            && AllGo(nodes, loaded, world, calls) && WithinRetries(nodes, nodeRetries, calls)
            && LastPassed(nodes, world, calls) && rows == RowsAfter(nodes, initial, loaded, world, calls)
  {
    hide UpToDate, Progressed, CallsInOrder, ReachedNode, AllGo, WithinRetries, LastPassed, RowsAfter;
  }

  lemma StoppedRunGood(nodes: seq<Node>, initial: State, nodeRetries: nat, maxSteps: nat, world: World,
                       loaded: map<string, Checkpoint>, rows: map<string, Checkpoint>, why: Why, calls: seq<Call>,
                       more: seq<Call>, i: nat)
    requires i < |nodes| && |calls + more| <= maxSteps && !Restored(loaded, nodes[i])
    requires ReachedNode(nodes, loaded, calls, i) && LastPassed(nodes, world, calls)
    requires forall k | 0 <= k < |more| :: more[k].index == i
    requires NodeEnded(nodes[i], RetriesOf(nodes[i], nodeRetries), maxSteps, world, |calls + more|, |more|, Some(why))
    requires CallsInOrder(nodes, loaded, calls + more) && Progressed(nodes, initial, loaded, rows)
    requires AllGo(nodes, loaded, world, calls + more) && WithinRetries(nodes, nodeRetries, calls + more)
    requires rows == RowsAfter(nodes, initial, loaded, world, calls + more)
    ensures GoodRun(nodes, initial, nodeRetries, maxSteps, world, loaded, rows, Stopped(why), calls + more)
  {
    hide CallsInOrder, Progressed, AllGo, WithinRetries, RowsAfter, Passes, Recovers, GivesUp, Breaks, Ended;
    if more == [] {
      assert calls + more == calls;
      StoppedBetween(nodes, nodeRetries, maxSteps, world, loaded, why, calls, i);
    } else {
      StoppedWithin(nodes, nodeRetries, maxSteps, world, loaded, why, calls, more, i);
    }
  }

  lemma StoppedBetween(nodes: seq<Node>, nodeRetries: nat, maxSteps: nat, world: World, loaded: map<string, Checkpoint>,
                       why: Why, calls: seq<Call>, i: nat)
    requires i < |nodes| && !Restored(loaded, nodes[i])
    requires ReachedNode(nodes, loaded, calls, i) && LastPassed(nodes, world, calls)
    requires NodeEnded(nodes[i], RetriesOf(nodes[i], nodeRetries), maxSteps, world, |calls|, 0, Some(why))
    ensures Ended(nodes, nodeRetries, maxSteps, loaded, world, calls, Stopped(why))
  {
    hide Restored, LastPassed;
    assert !ReachedNode(nodes, loaded, calls, |nodes|);
  }

  lemma StoppedWithin(nodes: seq<Node>, nodeRetries: nat, maxSteps: nat, world: World, loaded: map<string, Checkpoint>,
                      why: Why, calls: seq<Call>, more: seq<Call>, i: nat)
    requires i < |nodes| && more != []
    requires ReachedNode(nodes, loaded, calls, i)
    requires forall k | 0 <= k < |more| :: more[k].index == i
    requires NodeEnded(nodes[i], RetriesOf(nodes[i], nodeRetries), maxSteps, world, |calls + more|, |more|, Some(why))
    ensures Ended(nodes, nodeRetries, maxSteps, loaded, world, calls + more, Stopped(why))
  {
    hide Passes, Recovers, GivesUp, Breaks, LastPassed;
    var all, retries := calls + more, RetriesOf(nodes[i], nodeRetries);
    assert all[|all| - 1] == more[|more| - 1];
    if |more| == retries + 1 {
      assert forall k | |all| - 1 - retries <= k < |all| :: all[k] == more[k - |calls|];
    }
    assert calls != [] ==> all[|calls| - 1] == calls[|calls| - 1];
  }

  lemma FinishedRunGood(nodes: seq<Node>, initial: State, nodeRetries: nat, maxSteps: nat, world: World,
                        loaded: map<string, Checkpoint>, rows: map<string, Checkpoint>, calls: seq<Call>, steps: nat)
    requires UnderWay(nodes, initial, nodeRetries, loaded, rows, calls, |nodes|, steps, maxSteps, world)
    ensures GoodRun(nodes, initial, nodeRetries, maxSteps, world, loaded, rows,
                    Finished(StateBefore(nodes, initial, |nodes|)), calls)
  {
  }

  /** The attempts at the next node continue the run, and stay within its retries. */
  lemma TriesFollow(nodes: seq<Node>, nodeRetries: nat, loaded: map<string, Checkpoint>, world: World,
                    calls: seq<Call>, more: seq<Call>, i: nat)
    requires i < |nodes| && ReachedNode(nodes, loaded, calls, i) && CallsInOrder(nodes, loaded, calls)
    requires AllGo(nodes, loaded, world, calls) && WithinRetries(nodes, nodeRetries, calls)
    requires LastPassed(nodes, world, calls)
    requires Tried(nodes[i], i, LastAttempt(loaded, nodes[i]), world, |calls|, more)
    requires |more| <= RetriesOf(nodes[i], nodeRetries) + 1
    ensures AllGo(nodes, loaded, world, calls + more) && WithinRetries(nodes, nodeRetries, calls + more)
  {
    hide Passes, Recovers, Restored;
    var all := calls + more;
    forall k | 0 <= k < |all|
      ensures Goes(nodes, loaded, world, all, k)
    {
      if k < |calls| {
        assert Goes(nodes, loaded, world, calls, k);
      } else {
        var j := k - |calls|;
        assert all[k] == more[j] && TriedAt(nodes[i], i, LastAttempt(loaded, nodes[i]), world, |calls|, more, j);
        if j > 0 {
          assert all[k - 1] == more[j - 1];
          assert TriedAt(nodes[i], i, LastAttempt(loaded, nodes[i]), world, |calls|, more, j - 1);
        }
      }
    }
    forall k, m | 0 <= k < m < |all| && all[k].index == all[m].index && all[m].index < |nodes|
      ensures m - k <= RetriesOf(nodes[all[m].index], nodeRetries)
    {
      if m >= |calls| {
        assert TriedAt(nodes[i], i, LastAttempt(loaded, nodes[i]), world, |calls|, more, m - |calls|);
      }
      if k < |calls| <= m {
        IndexBelow(nodes, loaded, calls, k, |calls| - 1);
      }
    }
  }

  lemma {:induction false} IndexBelow(nodes: seq<Node>, rows: map<string, Checkpoint>, calls: seq<Call>, k: nat,
                                      m: nat)
    requires CallsInOrder(nodes, rows, calls) && k <= m < |calls|
    ensures calls[k].index <= calls[m].index
  {
    if k < m {
      IndexBelow(nodes, rows, calls, k, m - 1);
      assert FollowsAt(nodes, rows, calls, m);
    }
  }

  lemma {:induction false} RowsFollow(nodes: seq<Node>, initial: State, rows: map<string, Checkpoint>, world: World,
                                      calls: seq<Call>, more: seq<Call>, i: nat, previous: nat)
    requires i < |nodes| && Tried(nodes[i], i, previous, world, |calls|, more)
    ensures RowsAfter(nodes, initial, rows, world, calls + more)
         == NodeRows(nodes[i], OutputOf(nodes, initial, i), RowsAfter(nodes, initial, rows, world, calls), previous,
                     world, |calls|, |more|)
    decreases |more|
  {
    hide Written, OutputOf, Recovers;
    if more == [] {
      assert calls + more == calls;
    } else {
      var fewer := more[..|more| - 1];
      forall k | 0 <= k < |fewer|
        ensures TriedAt(nodes[i], i, previous, world, |calls|, fewer, k)
      {
        assert TriedAt(nodes[i], i, previous, world, |calls|, more, k);
      }
      assert TriedAt(nodes[i], i, previous, world, |calls|, more, |fewer|);
      assert (calls + more)[..|calls + more| - 1] == calls + fewer;
      RowsFollow(nodes, initial, rows, world, calls, fewer, i, previous);
    }
  }

  lemma PassedNode(nodes: seq<Node>, world: World, calls: seq<Call>, more: seq<Call>, i: nat, previous: nat)
    requires i < |nodes| && Tried(nodes[i], i, previous, world, |calls|, more)
    requires more != [] && Passes(nodes[i], world(|calls + more| - 1))
    ensures LastPassed(nodes, world, calls + more) && more[|more| - 1].returned
  {
    assert (calls + more)[|calls + more| - 1] == more[|more| - 1];
    assert TriedAt(nodes[i], i, previous, world, |calls|, more, |more| - 1);
  }

  lemma CallsExtended(nodes: seq<Node>, loaded: map<string, Checkpoint>, world: World, calls: seq<Call>,
                      more: seq<Call>, i: nat, previous: nat)
    requires i < |nodes| && !Restored(loaded, nodes[i])
    requires CallsInOrder(nodes, loaded, calls) && ReachedNode(nodes, loaded, calls, i)
    requires Tried(nodes[i], i, previous, world, |calls|, more)
    ensures CallsInOrder(nodes, loaded, calls + more)
    ensures more != [] && more[|more| - 1].returned ==> ReachedNode(nodes, loaded, calls + more, i + 1)
    ensures forall k | 0 <= k < |more| :: more[k].index == i
  {
    var all := calls + more;
    forall k | 0 <= k < |all|
      ensures FollowsAt(nodes, loaded, all, k)
    {
      if k < |calls| {
        assert FollowsAt(nodes, loaded, calls, k);
      } else {
        var j := k - |calls|;
        assert all[k] == more[j] && TriedAt(nodes[i], i, previous, world, |calls|, more, j);
        assert j > 0 ==> TriedAt(nodes[i], i, previous, world, |calls|, more, j - 1);
      }
    }
    assert more != [] ==> (calls + more)[|calls + more| - 1] == more[|more| - 1];
    forall k | 0 <= k < |more|
      ensures more[k].index == i
    {
      assert TriedAt(nodes[i], i, previous, world, |calls|, more, k);
    }
  }

  lemma RowsAdvance(nodes: seq<Node>, initial: State, loaded: map<string, Checkpoint>, rows: map<string, Checkpoint>,
                    rows': map<string, Checkpoint>, i: nat, finished: bool)
    requires i < |nodes| && !Restored(loaded, nodes[i])
    requires UpToDate(nodes, loaded, rows, i) && Progressed(nodes, initial, loaded, rows)
    requires DistinctNames(nodes)
    requires OnlyOwnRow(nodes[i], rows, rows')
    requires Restored(rows', nodes[i]) ==> rows'[nodes[i].name].state == OutputOf(nodes, initial, i)
    requires finished && nodes[i].checkpoint ==> Restored(rows', nodes[i])
    ensures Progressed(nodes, initial, loaded, rows')
    ensures finished ==> UpToDate(nodes, loaded, rows', i + 1)
  {
    forall m | 0 <= m < |nodes| && nodes[m].checkpoint && m != i
      ensures SameRow(rows, rows', nodes[m].name)
    {
      assert nodes[m].name != nodes[i].name || !nodes[i].checkpoint;
    }
    forall n | IsCompleted(loaded, n)
      ensures n in rows' && rows'[n] == loaded[n]
    {
      assert n != nodes[i].name || !nodes[i].checkpoint;
      assert SameRow(rows, rows', n);
    }
    if CompletedPrefix(nodes, loaded) {
      forall a, b | 0 <= a < b < |nodes| && nodes[a].checkpoint && Restored(rows', nodes[b])
        ensures Restored(rows', nodes[a])
      {
        if b > i {
          assert SameRow(loaded, rows, nodes[b].name);
          assert Restored(loaded, nodes[b]);
          assert Restored(loaded, nodes[a]);
        }
      }
    }
  }

  // ---- A run is determined by its events --------------------------------------

  /** Call `k` of a good run is the same in every good run that agrees up to there. */
  lemma SameCall(nodes: seq<Node>, rows: map<string, Checkpoint>, world: World, calls: seq<Call>, calls': seq<Call>,
                 k: nat)
    requires k < |calls| && k < |calls'| && calls[..k] == calls'[..k]
    requires CallsInOrder(nodes, rows, calls) && AllGo(nodes, rows, world, calls)
    requires CallsInOrder(nodes, rows, calls') && AllGo(nodes, rows, world, calls')
    ensures calls[k] == calls'[k]
  {
    assert k > 0 ==> calls[k - 1] == calls[..k][k - 1] == calls'[..k][k - 1] == calls'[k - 1];
    assert FollowsAt(nodes, rows, calls, k) && FollowsAt(nodes, rows, calls', k);
    assert Goes(nodes, rows, world, calls, k) && Goes(nodes, rows, world, calls', k);
  }

  /** A run that made another call wanted one, and nothing was in its way. */
  lemma WentOn(nodes: seq<Node>, nodeRetries: nat, rows: map<string, Checkpoint>, world: World, longer: seq<Call>,
               k: nat)
    requires k < |longer| && CallsInOrder(nodes, rows, longer) && AllGo(nodes, rows, world, longer)
    requires WithinRetries(nodes, nodeRetries, longer)
    ensures WantsMore(nodes, nodeRetries, rows, world, longer[..k]) && IsCall(world(k))
  {
    var calls := longer[..k];
    assert FollowsAt(nodes, rows, longer, k) && Goes(nodes, rows, world, longer, k);
    if k > 0 {
      var first := k - 1 - RetriesOf(nodes[longer[k - 1].index], nodeRetries);
      assert 0 <= first < k ==> longer[first] == calls[first];
    }
  }

  /** A run that ended could not have made another call. */
  lemma EndedIsDone(nodes: seq<Node>, nodeRetries: nat, maxSteps: nat, rows: map<string, Checkpoint>, world: World,
                    calls: seq<Call>, outcome: Outcome)
    requires Ended(nodes, nodeRetries, maxSteps, rows, world, calls, outcome)
    ensures !WantsMore(nodes, nodeRetries, rows, world, calls) || !IsCall(world(|calls|)) || maxSteps <= |calls|
  {
    hide Exhausted, ReachedNode;
  }

  /** The calls of one good run are a prefix of those of another, or the other way round. */
  lemma {:induction false} SameUpTo(nodes: seq<Node>, rows: map<string, Checkpoint>, world: World, calls: seq<Call>,
                                    calls': seq<Call>, k: nat)
    requires k <= |calls| && k <= |calls'|
    requires CallsInOrder(nodes, rows, calls) && AllGo(nodes, rows, world, calls)
    requires CallsInOrder(nodes, rows, calls') && AllGo(nodes, rows, world, calls')
    ensures calls[..k] == calls'[..k]
  {
    hide CallsInOrder, AllGo;
    if k > 0 {
      SameUpTo(nodes, rows, world, calls, calls', k - 1);
      SameCall(nodes, rows, world, calls, calls', k - 1);
      assert calls[..k] == calls[..k - 1] + [calls[k - 1]] && calls'[..k] == calls'[..k - 1] + [calls'[k - 1]];
    }
  }

  /** The same calls end the same way. */
  lemma SameEnd(nodes: seq<Node>, nodeRetries: nat, maxSteps: nat, rows: map<string, Checkpoint>, world: World,
                calls: seq<Call>, outcome: Outcome, outcome': Outcome)
    requires Ended(nodes, nodeRetries, maxSteps, rows, world, calls, outcome)
    requires Ended(nodes, nodeRetries, maxSteps, rows, world, calls, outcome')
    ensures outcome.Finished? <==> outcome'.Finished?
    ensures outcome.Stopped? ==> outcome' == outcome
  {
    hide Exhausted, ReachedNode;
  }

  /**
   * The checkpoints a run starts from and the events it meets determine everything it does:
   * its calls, how it ends and the rows it leaves.
   */
  lemma RunDetermined(nodes: seq<Node>, initial: State, nodeRetries: nat, maxSteps: nat, world: World,
                      rows: map<string, Checkpoint>, rows': map<string, Checkpoint>, outcome: Outcome, calls: seq<Call>,
                      rows'': map<string, Checkpoint>, outcome': Outcome, calls': seq<Call>)
    requires GoodRun(nodes, initial, nodeRetries, maxSteps, world, rows, rows', outcome, calls)
    requires GoodRun(nodes, initial, nodeRetries, maxSteps, world, rows, rows'', outcome', calls')
    ensures calls == calls' && outcome == outcome' && rows' == rows''
  {
    hide CallsInOrder, AllGo, WithinRetries, Ended, RowsAfter, Progressed, StateBefore, WantsMore;
    var k := if |calls| <= |calls'| then |calls| else |calls'|;
    SameUpTo(nodes, rows, world, calls, calls', k);
    assert calls[..|calls|] == calls && calls'[..|calls'|] == calls';
    if k < |calls'| {
      WentOn(nodes, nodeRetries, rows, world, calls', k);
      EndedIsDone(nodes, nodeRetries, maxSteps, rows, world, calls, outcome);
    } else if k < |calls| {
      WentOn(nodes, nodeRetries, rows, world, calls, k);
      EndedIsDone(nodes, nodeRetries, maxSteps, rows, world, calls', outcome');
    } else {
      SameEnd(nodes, nodeRetries, maxSteps, rows, world, calls, outcome, outcome');
    }
  }

  // ---- When a run finishes -----------------------------------------------------

  /** A clean return, or a failure that may be retried. */
  predicate Bearable(event: Event) {
    || CleanReturn(event)
    || (event.Raises? && event.retryable && event.failedWrite == Commits)
    || (event.Returns? && event.write == Refused && event.retryable && event.failedWrite == Commits)
  }

  /** How many of the first `n` events are not clean returns. */
  function Failures(world: World, n: nat): nat {
    if n == 0 then 0
    else Failures(world, n - 1) + if CleanReturn(world(n - 1)) then 0 else 1
  }

  predicate CleanReturn(event: Event) {
    event.Returns? && event.write == Commits
  }

  /** A clean return is among any `RetriesOf + 1` events in a row. */
  ghost predicate Relents(node: Node, nodeRetries: nat, steps: nat, world: World) {
    forall k: nat | RetriesOf(node, nodeRetries) <= k < steps :: 
      CleanAmong(world, RetriesOf(node, nodeRetries), k)
  }

  /** A clean return at step `k` or one of the `n` before it. */
  ghost predicate CleanAmong(world: World, n: int, k: nat) {
    exists j: nat :: k - n <= j <= k && CleanReturn(world(j))
  }

  /** For `steps` steps nothing worse than retryable failures, never too many in a row, and room for all of them. */
  ghost predicate Patient(nodes: seq<Node>, nodeRetries: nat, steps: nat, world: World) {
    && (forall k: nat | k < steps :: Bearable(world(k)))
    && (forall i | 0 <= i < |nodes| :: Relents(nodes[i], nodeRetries, steps, world))
    && |nodes| + Failures(world, steps) <= steps
  }

  lemma {:induction false} CallsPassNodes(nodes: seq<Node>, rows: map<string, Checkpoint>, world: World,
                                          calls: seq<Call>, k: nat)
    requires CallsInOrder(nodes, rows, calls) && AllGo(nodes, rows, world, calls) && k < |calls|
    ensures k <= calls[k].index + Failures(world, k) && calls[k].index < |nodes|
  {
    assert FollowsAt(nodes, rows, calls, k) && Goes(nodes, rows, world, calls, k);
    if k > 0 {
      CallsPassNodes(nodes, rows, world, calls, k - 1);
    }
  }

  lemma {:induction false} FailuresGrow(world: World, n: nat, m: nat)
    requires n <= m
    ensures Failures(world, n) <= Failures(world, m)
    decreases m
  {
    if n < m {
      FailuresGrow(world, n, m - 1);
    }
  }

  /** While it wants another call, a run has made fewer calls than its nodes and failures take. */
  lemma StepsLeft(nodes: seq<Node>, nodeRetries: nat, steps: nat, rows: map<string, Checkpoint>, world: World,
                  calls: seq<Call>, k: nat)
    requires CallsInOrder(nodes, rows, calls) && AllGo(nodes, rows, world, calls) && k <= |calls| && k <= steps
    requires |nodes| + Failures(world, steps) <= steps
    requires WantsMore(nodes, nodeRetries, rows, world, calls[..k])
    ensures k < steps
  {
    hide Exhausted;
    if k > 0 {
      CallsPassNodes(nodes, rows, world, calls, k - 1);
      FailuresGrow(world, k, steps);
      assert FollowsAt(nodes, rows, calls, k - 1) && Goes(nodes, rows, world, calls, k - 1);
      assert Failures(world, k) == Failures(world, k - 1) + if CleanReturn(world(k - 1)) then 0 else 1;
    }
  }

  /** A node that failed as often as its retries allow had no clean return among those attempts. */
  lemma ExhaustedFailed(nodes: seq<Node>, nodeRetries: nat, steps: nat, rows: map<string, Checkpoint>, world: World,
                        calls: seq<Call>)
    requires calls != [] && |calls| <= steps && AllGo(nodes, rows, world, calls)
    requires calls[|calls| - 1].index < |nodes| && Exhausted(nodes, nodeRetries, calls)
    requires Recovers(nodes[calls[|calls| - 1].index], world(|calls| - 1))
    requires RetriesOf(nodes[calls[|calls| - 1].index], nodeRetries) >= 0
    ensures !Relents(nodes[calls[|calls| - 1].index], nodeRetries, steps, world)
  {
    var k := |calls| - 1;
    var node := nodes[calls[k].index];
    var retries := RetriesOf(node, nodeRetries);
    forall j: nat | k - retries <= j <= k
      ensures !CleanReturn(world(j))
    {
      if j < k {
        assert calls[j].index == calls[k].index && calls[j + 1].index == calls[k].index;
        assert Goes(nodes, rows, world, calls, j + 1);
      }
    }
    assert !CleanAmong(world, retries, k);
  }

  lemma WithinPatience(nodes: seq<Node>, nodeRetries: nat, steps: nat, rows: map<string, Checkpoint>, world: World,
                       calls: seq<Call>)
    requires CallsInOrder(nodes, rows, calls) && AllGo(nodes, rows, world, calls)
    requires WithinRetries(nodes, nodeRetries, calls) && |nodes| + Failures(world, steps) <= steps
    ensures |calls| <= steps
  {
    hide *;
    if |calls| > steps {
      WentOn(nodes, nodeRetries, rows, world, calls, steps);
      StepsLeft(nodes, nodeRetries, steps, rows, world, calls, steps);
    }
  }

  /**
   * Retries do their work: a run that meets nothing but clean returns and retryable failures,
   * of which no node sees more than its retries in a row, finishes if it has the steps.
   */
  lemma PatientRunFinishes(nodes: seq<Node>, initial: State, nodeRetries: nat, maxSteps: nat, world: World,
                           rows: map<string, Checkpoint>, rows': map<string, Checkpoint>, outcome: Outcome,
                           calls: seq<Call>, steps: nat)
    requires Resumable(nodes, initial, nodeRetries)
    requires GoodRun(nodes, initial, nodeRetries, maxSteps, world, rows, rows', outcome, calls)
    requires steps <= maxSteps && Patient(nodes, nodeRetries, steps, world)
    ensures outcome == Finished(StateBefore(nodes, initial, |nodes|))
  {
    hide StateBefore, RowsAfter, Progressed, Exhausted, WantsMore, CallsInOrder, AllGo, WithinRetries;
    hide Failures, Relents;
    WithinPatience(nodes, nodeRetries, steps, rows, world, calls);
    assert calls != [] ==> Bearable(world(|calls| - 1));
    assert |calls| < steps ==> Bearable(world(|calls|));
    assert calls[..|calls|] == calls;
    if outcome.Stopped? && WantsMore(nodes, nodeRetries, rows, world, calls) {
      StepsLeft(nodes, nodeRetries, steps, rows, world, calls, |calls|);
    }
    if outcome == Stopped(Error) && Exhausted(nodes, nodeRetries, calls) {
      ExhaustedFailed(nodes, nodeRetries, steps, rows, world, calls);
    }
  }

  ghost predicate CleanFor(world: World, n: nat) {
    forall k: nat | k < n :: CleanReturn(world(k))
  }

  lemma {:induction false} NoFailures(world: World, n: nat)
    requires CleanFor(world, n)
    ensures Failures(world, n) == 0
  {
    if n > 0 {
      NoFailures(world, n - 1);
    }
  }

  /** One clean return a node is patience enough. */
  lemma CleanIsPatient(nodes: seq<Node>, initial: State, nodeRetries: nat, world: World)
    requires Resumable(nodes, initial, nodeRetries) && CleanFor(world, |nodes|)
    ensures Patient(nodes, nodeRetries, |nodes|, world)
  {
    hide Repeatable, DistinctNames;
    NoFailures(world, |nodes|);
    forall i, k: nat | 0 <= i < |nodes| && RetriesOf(nodes[i], nodeRetries) <= k < |nodes|
      ensures CleanAmong(world, RetriesOf(nodes[i], nodeRetries), k)
    {
      assert CleanReturn(world(k));
    }
  }

  // ---- The whole life of a task ------------------------------------------------

  lemma NoRows(nodes: seq<Node>, initial: State)
    ensures Consistent(nodes, initial, map[]) && CompletedPrefix(nodes, map[]) && AttemptsIncrease(map[], [])
  {
  }

  lemma GoodRunKeeps(nodes: seq<Node>, initial: State, nodeRetries: nat, maxSteps: nat, world: World,
                     rows: map<string, Checkpoint>, rows': map<string, Checkpoint>, outcome: Outcome, calls: seq<Call>)
    requires GoodRun(nodes, initial, nodeRetries, maxSteps, world, rows, rows', outcome, calls)
    requires CompletedPrefix(nodes, rows)
    ensures Consistent(nodes, initial, rows') && CompletedPrefix(nodes, rows')
  {
    hide Ended, CallsInOrder, AllGo, WithinRetries, RowsAfter, Consistent, CompletedPrefix;
  }

  /**
   * Run after run on the same checkpoints, each interrupted in its own way.  Whatever happened
   * before, a run that finishes ends in the state of the uninterrupted run; a handler whose
   * checkpoint was completed is never called again; saved attempt numbers only go up.
   */
  method Lifetime(runtime: AgentRuntime, initial: State, nodes: seq<Node>, store: CheckpointStore, worlds: seq<World>)
    returns (outcomes: seq<Outcome>, history: seq<seq<Call>>, ghost rowsAt: seq<map<string, Checkpoint>>)
    requires Resumable(nodes, initial, runtime.nodeRetries)
    requires store.rows == map[] && store.saves == []
    modifies store
    ensures |outcomes| == |history| == |worlds| && |rowsAt| == |worlds| + 1 && rowsAt[|worlds|] == store.rows
    ensures forall r | 0 <= r < |worlds| ::
      GoodRun(nodes, initial, runtime.nodeRetries, runtime.maxSteps, worlds[r], rowsAt[r], rowsAt[r + 1],
              outcomes[r], history[r])
    ensures CompletedPrefix(nodes, store.rows) && AttemptsIncrease(store.rows, store.saves)
  {
    hide *;
    NoRows(nodes, initial);
    outcomes, history, rowsAt := [], [], [store.rows];
    for r := 0 to |worlds|
      invariant |outcomes| == |history| == r && |rowsAt| == r + 1 && rowsAt[r] == store.rows
      invariant Consistent(nodes, initial, store.rows) && CompletedPrefix(nodes, store.rows)
      invariant AttemptsIncrease(store.rows, store.saves)
      invariant forall q | 0 <= q < r ::
        GoodRun(nodes, initial, runtime.nodeRetries, runtime.maxSteps, worlds[q], rowsAt[q], rowsAt[q + 1],
                outcomes[q], history[q])
    {
      var outcome, calls := runtime.Execute(initial, nodes, store, worlds[r]);
      GoodRunKeeps(nodes, initial, runtime.nodeRetries, runtime.maxSteps, worlds[r], rowsAt[r], store.rows, outcome,
                   calls);
      outcomes, history, rowsAt := outcomes + [outcome], history + [calls], rowsAt + [store.rows];
    }
  }

  /** Once a node is completed it stays so through any number of later runs, so it is never called again. */
  lemma {:induction false} NeverCalledAgain(nodes: seq<Node>, initial: State, rowsAt: seq<map<string, Checkpoint>>,
                                            history: seq<seq<Call>>, i: nat, r: nat, later: nat)
    requires |rowsAt| == |history| + 1 && r <= later < |history| && i < |nodes|
    requires forall q | 0 <= q < |history| :: Progressed(nodes, initial, rowsAt[q], rowsAt[q + 1])
    requires forall q | 0 <= q < |history| :: CallsInOrder(nodes, rowsAt[q], history[q])
    requires Restored(rowsAt[r], nodes[i])
    ensures Restored(rowsAt[later], nodes[i]) && rowsAt[later][nodes[i].name] == rowsAt[r][nodes[i].name]
    ensures forall k | 0 <= k < |history[later]| :: history[later][k].index != i
    decreases later
  {
    if r < later {
      NeverCalledAgain(nodes, initial, rowsAt, history, i, r, later - 1);
      assert Progressed(nodes, initial, rowsAt[later - 1], rowsAt[later - 1 + 1]);
    }
    forall k | 0 <= k < |history[later]|
      ensures history[later][k].index != i
    {
      assert CallsInOrder(nodes, rowsAt[later], history[later]);
      assert FollowsAt(nodes, rowsAt[later], history[later], k);
    }
  }
}
