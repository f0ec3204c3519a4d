/** Durable task delivery: stream, leases, requeue and dead letters. */
module TaskQueue {

  type Message = string

  /** `ticket` numbers the submissions: the same message may be submitted again, as a replay of a dead letter does. */
  datatype Envelope = Envelope(ticket: nat, message: Message, attempt: nat)

  /** A dead letter; `permanent` when the handler refused the task for good. */
  datatype DeadLetter = DeadLetter(envelope: Envelope, permanent: bool)

  // ---- The stream backend, as atomic steps of many workers ---------------------

  /** Where a worker is in the delivery of stream entry `id`. */
  datatype Phase =
    | Idle
    | Handling(id: nat, envelope: Envelope)
    | Requeueing(id: nat, envelope: Envelope)
    | Burying(id: nat, envelope: Envelope, permanent: bool)
    | CallingBack(id: nat)
    | Acking(id: nat)

  /** A worker and the entries it was given but has not started. */
  datatype Worker = Worker(phase: Phase, batch: seq<nat>)

  type WorkerId = nat

  /**
   * The stream is append-only and an entry's place is its id; `delivered` and `acked` are the
   * consumer group's bookkeeping; `submitted` has the message of each submission, `handled` the
   * submissions whose handler returned, and `calls` counts their handler calls.
   */
  datatype State = State(
    stream: seq<Envelope>, delivered: set<nat>, acked: set<nat>, dlq: seq<DeadLetter>,
    submitted: seq<Message>, handled: set<nat>, calls: map<nat, nat>, workers: map<WorkerId, Worker>)

  datatype Outcome = Returned | RefusedForGood | Failed

  datatype Action =
    | Submit(message: Message)
    | Replay(message: Message)
    | Join(w: WorkerId)
    | Read(w: WorkerId, id: nat)
    | Reclaim(w: WorkerId, ids: seq<nat>)
    | Start(w: WorkerId)
    | Handler(w: WorkerId, outcome: Outcome)
    | Requeue(w: WorkerId)
    | Bury(w: WorkerId)
    | CallbackDone(w: WorkerId)
    | Ack(w: WorkerId)
    | Fault(w: WorkerId)

  const EMPTY := State([], {}, {}, [], [], {}, map[], map[])

  function CallsOf(s: State, ticket: nat): nat {
    if ticket in s.calls then s.calls[ticket] else 0
  }

  function PhaseOf(s: State, w: WorkerId): Phase {
    if w in s.workers then s.workers[w].phase else Idle
  }

  function BatchOf(s: State, w: WorkerId): seq<nat> {
    if w in s.workers then s.workers[w].batch else []
  }

  predicate Free(s: State, w: WorkerId) {
    w in s.workers && s.workers[w] == Worker(Idle, [])
  }

  /** A replay looks for the message among the newest 500 dead letters. */
  predicate Replayable(s: State, m: Message) {
    exists i :: |s.dlq| - 500 <= i < |s.dlq| && 0 <= i && s.dlq[i].envelope.message == m
  }

  function Submitted(s: State, m: Message): State {
    s.(stream := s.stream + [Envelope(|s.submitted|, m, 0)], submitted := s.submitted + [m])
  }

  /** The steps that no worker takes. */
  predicate Submits(a: Action) {
    a.Submit? || a.Replay?
  }

  /**
   * When a step can happen: a read takes an entry never delivered, a reclaim takes up to ten entries
   * delivered to anyone and not acknowledged, whoever is still working on them.
   */
  predicate Enabled(s: State, a: Action) {
    match a
    case Submit(_) => true
    case Replay(m) => Replayable(s, m)
    case Join(w) => w !in s.workers
    case Read(w, id) => Free(s, w) && id < |s.stream| && id !in s.delivered
    case Reclaim(w, ids) => Free(s, w) && |ids| <= 10 && forall id | id in ids :: id in s.delivered && id !in s.acked
    case Start(w) => PhaseOf(s, w).Idle? && BatchOf(s, w) != [] && BatchOf(s, w)[0] < |s.stream|
    case Handler(w, _) => PhaseOf(s, w).Handling?
    case Requeue(w) => PhaseOf(s, w).Requeueing?
    case Bury(w) => PhaseOf(s, w).Burying?
    case CallbackDone(w) => PhaseOf(s, w).CallingBack?
    case Ack(w) => PhaseOf(s, w).Acking?
    case Fault(w) => w in s.workers
  }

  function To(s: State, w: WorkerId, phase: Phase): State {
    s.(workers := s.workers[w := Worker(phase, BatchOf(s, w))])
  }

  /** One atomic step.  A fault is a crash or an infrastructure error: all the worker held is forgotten. */
  function Step(s: State, a: Action, maxAttempts: nat): State
    requires Enabled(s, a)
  {
    match a
    case Submit(m) => Submitted(s, m)
    case Replay(m) => Submitted(s, m)
    case Join(w) => s.(workers := s.workers[w := Worker(Idle, [])])
    case Read(w, id) => s.(delivered := s.delivered + {id}, workers := s.workers[w := Worker(Idle, [id])])
    case Reclaim(w, ids) => s.(workers := s.workers[w := Worker(Idle, ids)])
    case Start(w) =>
      var id := BatchOf(s, w)[0];
      var envelope := s.stream[id].(attempt := s.stream[id].attempt + 1);
      s.(workers := s.workers[w := Worker(Handling(id, envelope), BatchOf(s, w)[1..])],
         calls := s.calls[envelope.ticket := CallsOf(s, envelope.ticket) + 1])
    case Handler(w, outcome) =>
      var Handling(id, envelope) := PhaseOf(s, w);
      if outcome == Returned then To(s, w, Acking(id)).(handled := s.handled + {envelope.ticket})
      else if outcome == RefusedForGood then To(s, w, Burying(id, envelope, true))
      else if envelope.attempt >= maxAttempts then To(s, w, Burying(id, envelope, false))
      else To(s, w, Requeueing(id, envelope))
    case Requeue(w) =>
      var Requeueing(id, envelope) := PhaseOf(s, w);
      To(s, w, Acking(id)).(stream := s.stream + [envelope])
    case Bury(w) =>
      var Burying(id, envelope, permanent) := PhaseOf(s, w);
      To(s, w, CallingBack(id)).(dlq := s.dlq + [DeadLetter(envelope, permanent)])
    case CallbackDone(w) => To(s, w, Acking(PhaseOf(s, w).id))
    case Ack(w) => To(s, w, Idle).(acked := s.acked + {PhaseOf(s, w).id})
    case Fault(w) => s.(workers := s.workers[w := Worker(Idle, [])])
  }

  /** A run: actions that are not possible when their turn comes do nothing. */
  function Run(actions: seq<Action>, maxAttempts: nat): State {
    if actions == [] then EMPTY
    else
      var before := Run(actions[..|actions| - 1], maxAttempts);
      var last := actions[|actions| - 1];
      if Enabled(before, last) then Step(before, last, maxAttempts) else before
  }

  // ---- What every run keeps -----------------------------------------------------

  predicate Buried(s: State, ticket: nat) {
    exists i :: 0 <= i < |s.dlq| && s.dlq[i].envelope.ticket == ticket
  }

  predicate Resolved(s: State, ticket: nat) {
    ticket in s.handled || Buried(s, ticket)
  }

  /** A stream entry of the submission newer than `after` that nobody has acknowledged. */
  predicate OpenAfter(s: State, ticket: nat, after: int) {
    exists id: nat :: id < |s.stream| && after < id && id !in s.acked && s.stream[id].ticket == ticket
  }

  /** The task is handled, dead-lettered, or will be delivered again. */
  predicate Safe(s: State, ticket: nat) {
    Resolved(s, ticket) || OpenAfter(s, ticket, -1)
  }

  /** A delivery in progress carries its entry's message with one more attempt, every one of them a real call. */
  predicate Carries(s: State, id: nat, envelope: Envelope) {
    && id < |s.stream| && envelope.ticket == s.stream[id].ticket && envelope.message == s.stream[id].message
    && envelope.attempt == s.stream[id].attempt + 1 <= CallsOf(s, envelope.ticket)
  }

  /** An acknowledgement is due only when nothing depends on the entry: resolved, or superseded by a newer one. */
  predicate WorkerOk(s: State, worker: Worker, maxAttempts: nat) {
    && (match worker.phase
        case Idle => true
        case Handling(id, envelope) => Carries(s, id, envelope)
        case Requeueing(id, envelope) => Carries(s, id, envelope) && envelope.attempt < maxAttempts
        case Burying(id, envelope, permanent) =>
          && Carries(s, id, envelope)
          && (permanent || envelope.attempt == maxAttempts)
        case CallingBack(id) => id < |s.stream| && Buried(s, s.stream[id].ticket)
        case Acking(id) =>
          && id < |s.stream|
          && (Resolved(s, s.stream[id].ticket) || OpenAfter(s, s.stream[id].ticket, id)))
  }

  /** The envelope belongs to a submission of its message. */
  predicate Known(s: State, envelope: Envelope) {
    envelope.ticket < |s.submitted| && s.submitted[envelope.ticket] == envelope.message
  }

  predicate EntryOk(s: State, envelope: Envelope, maxAttempts: nat) {
    && Known(s, envelope) && envelope.attempt < maxAttempts && envelope.attempt <= CallsOf(s, envelope.ticket)
  }

  predicate DeadLetterOk(s: State, d: DeadLetter, maxAttempts: nat) {
    && Known(s, d.envelope) && d.envelope.attempt <= maxAttempts && d.envelope.attempt <= CallsOf(s, d.envelope.ticket)
    && (d.permanent || d.envelope.attempt == maxAttempts)
  }

  ghost predicate Inv(s: State, maxAttempts: nat) {
    && (forall id | id in s.acked :: id < |s.stream|)
    && (forall i | 0 <= i < |s.stream| :: EntryOk(s, s.stream[i], maxAttempts))
    && (forall w | w in s.workers :: WorkerOk(s, s.workers[w], maxAttempts))
    && (forall i | 0 <= i < |s.dlq| :: DeadLetterOk(s, s.dlq[i], maxAttempts))
    && (forall ticket: nat | ticket < |s.submitted| :: Safe(s, ticket))
  }

  /** Everything grew and nothing was acknowledged. */
  ghost predicate Grown(s: State, s': State) {
    && s.stream <= s'.stream && s.dlq <= s'.dlq && s.handled <= s'.handled && s.acked == s'.acked
    && s.submitted <= s'.submitted
    && (forall ticket: nat :: CallsOf(s, ticket) <= CallsOf(s', ticket))
  }

  lemma GrownKeeps(s: State, s': State, maxAttempts: nat)
    requires Grown(s, s')
    ensures forall ticket: nat :: Buried(s, ticket) ==> Buried(s', ticket)
    ensures forall ticket: nat, after :: OpenAfter(s, ticket, after) ==> OpenAfter(s', ticket, after)
    ensures forall ticket: nat :: Safe(s, ticket) ==> Safe(s', ticket)
    ensures forall worker :: WorkerOk(s, worker, maxAttempts) ==> WorkerOk(s', worker, maxAttempts)
    ensures forall e :: EntryOk(s, e, maxAttempts) ==> EntryOk(s', e, maxAttempts)
    ensures forall d :: DeadLetterOk(s, d, maxAttempts) ==> DeadLetterOk(s', d, maxAttempts)
  {
    forall ticket: nat | Buried(s, ticket)
      ensures Buried(s', ticket)
    {
      var i :| 0 <= i < |s.dlq| && s.dlq[i].envelope.ticket == ticket;
      assert s'.dlq[i] == s.dlq[i];
    }
    forall ticket: nat, after | OpenAfter(s, ticket, after)
      ensures OpenAfter(s', ticket, after)
    {
      var id: nat :| id < |s.stream| && after < id && id !in s.acked && s.stream[id].ticket == ticket;
      assert s'.stream[id] == s.stream[id];
    }
  }

  /** Acknowledging an entry that is resolved or superseded leaves every message as safe as it was. */
  lemma AckKeeps(s: State, s': State, id: nat)
    requires s' == s.(acked := s.acked + {id}, workers := s'.workers) && id < |s.stream|
    requires Resolved(s, s.stream[id].ticket) || OpenAfter(s, s.stream[id].ticket, id)
    ensures forall ticket: nat :: Resolved(s', ticket) <==> Resolved(s, ticket)
    ensures forall ticket: nat, after ::
      OpenAfter(s, ticket, after) ==> OpenAfter(s', ticket, after) || Resolved(s', ticket)
  {
    forall ticket: nat, after | OpenAfter(s, ticket, after) && !Resolved(s', ticket)
      ensures OpenAfter(s', ticket, after)
    {
      var entry: nat :| entry < |s.stream| && after < entry && entry !in s.acked && s.stream[entry].ticket == ticket;
      if entry == id {
        var newer: nat :| newer < |s.stream| && id < newer && newer !in s.acked && s.stream[newer].ticket == ticket;
        assert newer !in s'.acked;
      } else {
        assert entry !in s'.acked;
      }
    }
  }

  /** The worker that took the step is where it should be. */
  lemma ActorOk(s: State, a: Action, w: WorkerId, maxAttempts: nat)
    requires Enabled(s, a) && Inv(s, maxAttempts) && !Submits(a) && !a.Ack? && w == a.w
    ensures WorkerOk(Step(s, a, maxAttempts), Step(s, a, maxAttempts).workers[w], maxAttempts)
  {
    hide Safe, DeadLetterOk, Grown;
    var s' := Step(s, a, maxAttempts);
    assert w in s.workers ==> WorkerOk(s, s.workers[w], maxAttempts);
    StepGrows(s, a, maxAttempts);
    GrownKeeps(s, s', maxAttempts);
    match a
    case Start(_) =>
      assert EntryOk(s, s.stream[BatchOf(s, w)[0]], maxAttempts);
    case Requeue(_) =>
      var Requeueing(id, envelope) := PhaseOf(s, w);
      assert |s.stream| !in s'.acked && s'.stream[|s.stream|] == envelope;
      assert OpenAfter(s', s'.stream[id].ticket, id);
    case Bury(_) =>
      var Burying(id, envelope, permanent) := PhaseOf(s, w);
      assert s'.dlq[|s.dlq|].envelope == envelope;
      assert Buried(s', s'.stream[id].ticket);
    case Handler(_, _) =>
      var Handling(id, envelope) := PhaseOf(s, w);
      assert EntryOk(s, s.stream[id], maxAttempts);
    case _ =>
  }

  /** A new submission is an open entry. */
  lemma SubmissionSafe(s: State, a: Action, maxAttempts: nat)
    requires Inv(s, maxAttempts) && Enabled(s, a) && Submits(a)
    ensures Safe(Step(s, a, maxAttempts), |s.submitted|)
  {
    var s' := Step(s, a, maxAttempts);
    assert |s.stream| !in s'.acked && s'.stream[|s.stream|].ticket == |s.submitted|;
    assert OpenAfter(s', |s.submitted|, -1);
  }

  lemma StepKeepsInv(s: State, a: Action, maxAttempts: nat)
    requires maxAttempts >= 1 && Enabled(s, a) && Inv(s, maxAttempts)
    ensures Inv(Step(s, a, maxAttempts), maxAttempts)
  {
    if a.Ack? {
      AckKeepsInv(s, a.w, maxAttempts);
    } else {
      GrowthKeepsInv(s, a, maxAttempts);
    }
  }

  lemma AckKeepsInv(s: State, actor: WorkerId, maxAttempts: nat)
    requires Enabled(s, Ack(actor)) && Inv(s, maxAttempts)
    ensures Inv(Step(s, Ack(actor), maxAttempts), maxAttempts)
  {
    var s' := Step(s, Ack(actor), maxAttempts);
    var id := PhaseOf(s, actor).id;
    assert WorkerOk(s, s.workers[actor], maxAttempts);
    AckKeeps(s, s', id);
    hide Resolved, OpenAfter, Buried;
    forall ticket: nat | ticket < |s'.submitted|
      ensures Safe(s', ticket)
    {
      assert Safe(s, ticket);
    }
    forall w | w in s'.workers
      ensures WorkerOk(s', s'.workers[w], maxAttempts)
    {
      if w != actor {
        assert WorkerOk(s, s.workers[w], maxAttempts);
      }
    }
    assert forall e :: EntryOk(s, e, maxAttempts) ==> EntryOk(s', e, maxAttempts);
    assert forall d :: DeadLetterOk(s, d, maxAttempts) ==> DeadLetterOk(s', d, maxAttempts);
  }

  /** What a step adds to the stream or the dead letters is as it should be. */
  lemma AdditionsOk(s: State, a: Action, maxAttempts: nat)
    requires maxAttempts >= 1 && Enabled(s, a) && Inv(s, maxAttempts) && !a.Ack?
    ensures var s' := Step(s, a, maxAttempts);
      && (forall i | 0 <= i < |s'.stream| :: EntryOk(s', s'.stream[i], maxAttempts))
      && (forall i | 0 <= i < |s'.dlq| :: DeadLetterOk(s', s'.dlq[i], maxAttempts))
  {
    hide OpenAfter, Buried, Resolved, Safe, Grown;
    var s' := Step(s, a, maxAttempts);
    StepGrows(s, a, maxAttempts);
    GrownKeeps(s, s', maxAttempts);
    if !Submits(a) && a.w in s.workers {
      assert WorkerOk(s, s.workers[a.w], maxAttempts);
    }
    forall i | 0 <= i < |s'.stream|
      ensures EntryOk(s', s'.stream[i], maxAttempts)
    {
      if i < |s.stream| {
        assert EntryOk(s, s.stream[i], maxAttempts);
      }
    }
    forall i | 0 <= i < |s'.dlq|
      ensures DeadLetterOk(s', s'.dlq[i], maxAttempts)
    {
      if i < |s.dlq| {
        assert DeadLetterOk(s, s.dlq[i], maxAttempts);
      }
    }
  }

  lemma StepGrows(s: State, a: Action, maxAttempts: nat)
    requires Enabled(s, a) && !a.Ack?
    ensures Grown(s, Step(s, a, maxAttempts))
    ensures Step(s, a, maxAttempts).submitted == s.submitted + if Submits(a) then [a.message] else []
    ensures Submits(a) ==> Step(s, a, maxAttempts).workers == s.workers
    ensures !Submits(a) ==> Step(s, a, maxAttempts).workers.Keys == s.workers.Keys + {a.w}
    ensures !Submits(a) ==> forall w | w in s.workers && w != a.w :: Step(s, a, maxAttempts).workers[w] == s.workers[w]
  {
    hide OpenAfter, Buried, Resolved, Safe;
  }

  lemma GrowthKeepsInv(s: State, a: Action, maxAttempts: nat)
    requires maxAttempts >= 1 && Enabled(s, a) && Inv(s, maxAttempts) && !a.Ack?
    ensures Inv(Step(s, a, maxAttempts), maxAttempts)
  {
    hide WorkerOk, EntryOk, DeadLetterOk, Safe, Enabled, Step;
    var s' := Step(s, a, maxAttempts);
    StepGrows(s, a, maxAttempts);
    GrownKeeps(s, s', maxAttempts);
    AdditionsOk(s, a, maxAttempts);
    forall w | w in s'.workers
      ensures WorkerOk(s', s'.workers[w], maxAttempts)
    {
      if !Submits(a) && w == a.w {
        ActorOk(s, a, w, maxAttempts);
      } else {
        assert WorkerOk(s, s.workers[w], maxAttempts);
      }
    }
    if Submits(a) {
      SubmissionSafe(s, a, maxAttempts);
    }
  }

  lemma {:induction false} RunKeepsInv(actions: seq<Action>, maxAttempts: nat)
    requires maxAttempts >= 1
    ensures Inv(Run(actions, maxAttempts), maxAttempts)
  {
    if actions != [] {
      RunKeepsInv(actions[..|actions| - 1], maxAttempts);
      var before, last := Run(actions[..|actions| - 1], maxAttempts), actions[|actions| - 1];
      if Enabled(before, last) {
        StepKeepsInv(before, last, maxAttempts);
      }
    }
  }

  /**
   * In every interleaving of submissions, replays, workers, faults and reclaims, each single submission is handled,
   * dead-lettered, or still has an entry nobody acknowledged; what became of another submission of the same message
   * does not count.
   */
  lemma NoTaskLost(actions: seq<Action>, maxAttempts: nat, ticket: nat)
    requires maxAttempts >= 1 && ticket < |Run(actions, maxAttempts).submitted|
    ensures var s := Run(actions, maxAttempts);
      || ticket in s.handled
      || (exists i :: 0 <= i < |s.dlq| && s.dlq[i].envelope.ticket == ticket)
      || (exists id: nat :: id < |s.stream| && id !in s.acked && s.stream[id].ticket == ticket)
  {
    RunKeepsInv(actions, maxAttempts);
    var s := Run(actions, maxAttempts);
    assert Safe(s, ticket);
    if OpenAfter(s, ticket, -1) {
      var id: nat :| id < |s.stream| && -1 < id && id !in s.acked && s.stream[id].ticket == ticket;
    }
  }

  /** Every entry and every dead letter carries the message of its submission. */
  lemma MessagesKept(actions: seq<Action>, maxAttempts: nat)
    requires maxAttempts >= 1
    ensures var s := Run(actions, maxAttempts);
      && (forall i | 0 <= i < |s.stream| :: Known(s, s.stream[i]))
      && (forall i | 0 <= i < |s.dlq| :: Known(s, s.dlq[i].envelope))
  {
    RunKeepsInv(actions, maxAttempts);
    var s := Run(actions, maxAttempts);
    assert forall i | 0 <= i < |s.stream| :: EntryOk(s, s.stream[i], maxAttempts);
    assert forall i | 0 <= i < |s.dlq| :: DeadLetterOk(s, s.dlq[i], maxAttempts);
  }

  /** Entries have attempts left, and giving a submission up takes `maxAttempts` calls for it or a refusal for good. */
  lemma RetriesBounded(actions: seq<Action>, maxAttempts: nat)
    requires maxAttempts >= 1
    ensures var s := Run(actions, maxAttempts);
      && (forall i | 0 <= i < |s.stream| :: s.stream[i].attempt < maxAttempts)
      && (forall i | 0 <= i < |s.dlq| :: s.dlq[i].envelope.attempt <= maxAttempts)
      && (forall i | 0 <= i < |s.dlq| && !s.dlq[i].permanent :: CallsOf(s, s.dlq[i].envelope.ticket) >= maxAttempts)
  {
    RunKeepsInv(actions, maxAttempts);
    var s := Run(actions, maxAttempts);
    assert forall i | 0 <= i < |s.stream| :: EntryOk(s, s.stream[i], maxAttempts);
    assert forall i | 0 <= i < |s.dlq| :: DeadLetterOk(s, s.dlq[i], maxAttempts);
  }

  // ---- What a handler's outcome does to its task ----------------------------------

  /** Action `n` was possible when its turn came. */
  predicate Happens(actions: seq<Action>, maxAttempts: nat, n: nat) {
    n < |actions| && Enabled(Run(actions[..n], maxAttempts), actions[n])
  }

  predicate TakenBy(a: Action, w: WorkerId) {
    !Submits(a) && a.w == w
  }

  /** Worker `w` took no step between the actions `n` and `m`. */
  ghost predicate QuietBetween(actions: seq<Action>, maxAttempts: nat, w: WorkerId, n: nat, m: nat) {
    forall k | n < k < m && k < |actions| && TakenBy(actions[k], w) :: !Happens(actions, maxAttempts, k)
  }

  /** At action `n` the handler that worker `w` called for entry `id`, as `envelope`, came back with `outcome`. */
  predicate EndsAt(actions: seq<Action>, maxAttempts: nat, n: nat, w: WorkerId, id: nat, envelope: Envelope,
                   outcome: Outcome) {
    n < |actions| && actions[n] == Handler(w, outcome)
    && PhaseOf(Run(actions[..n], maxAttempts), w) == Handling(id, envelope)
  }

  ghost predicate Ended(actions: seq<Action>, maxAttempts: nat, envelope: Envelope, outcome: Outcome) {
    exists n: nat, w: WorkerId, id: nat :: EndsAt(actions, maxAttempts, n, w, id, envelope, outcome)
  }

  lemma RunOfPrefix(actions: seq<Action>, maxAttempts: nat, n: nat)
    requires n < |actions|
    ensures Run(actions[..n + 1], maxAttempts)
         == if Happens(actions, maxAttempts, n) then Step(Run(actions[..n], maxAttempts), actions[n], maxAttempts)
            else Run(actions[..n], maxAttempts)
  {
    hide Step, Enabled;
    assert actions[..n + 1][..n] == actions[..n];
  }

  lemma OthersStay(s: State, a: Action, maxAttempts: nat, w: WorkerId)
    requires Enabled(s, a) && !TakenBy(a, w)
    ensures PhaseOf(Step(s, a, maxAttempts), w) == PhaseOf(s, w)
  {
  }

  /** While a worker takes no step, its phase is kept. */
  lemma {:induction false} PhaseKept(actions: seq<Action>, maxAttempts: nat, w: WorkerId, n: nat, m: nat)
    requires n < m <= |actions| && QuietBetween(actions, maxAttempts, w, n, m)
    ensures PhaseOf(Run(actions[..m], maxAttempts), w) == PhaseOf(Run(actions[..n + 1], maxAttempts), w)
    decreases m
  {
    hide Run, Step, Enabled, PhaseOf;
    if n + 1 < m {
      PhaseKept(actions, maxAttempts, w, n, m - 1);
      RunOfPrefix(actions, maxAttempts, m - 1);
      if Happens(actions, maxAttempts, m - 1) {
        OthersStay(Run(actions[..m - 1], maxAttempts), actions[m - 1], maxAttempts, w);
      }
    }
  }

  /** What the worker's next step does with the task, unless it dies first. */
  ghost predicate Settled(before: State, after: State, next: Action, w: WorkerId, envelope: Envelope,
                          outcome: Outcome, maxAttempts: nat) {
    match outcome
    case Returned => next == Ack(w) && envelope.ticket in before.handled
    case RefusedForGood => next == Bury(w) && after.dlq == before.dlq + [DeadLetter(envelope, true)]
    case Failed =>
      if envelope.attempt < maxAttempts
      then next == Requeue(w) && after.stream == before.stream + [envelope] && after.dlq == before.dlq
      else next == Bury(w) && after.dlq == before.dlq + [DeadLetter(envelope, false)]
  }

  lemma {:induction false} HandledStays(actions: seq<Action>, maxAttempts: nat, n: nat, m: nat, ticket: nat)
    requires n <= m <= |actions| && ticket in Run(actions[..n], maxAttempts).handled
    ensures ticket in Run(actions[..m], maxAttempts).handled
    decreases m
  {
    hide Run, Enabled;
    if n < m {
      HandledStays(actions, maxAttempts, n, m - 1, ticket);
      RunOfPrefix(actions, maxAttempts, m - 1);
    }
  }

  lemma FateOfPhase(s: State, w: WorkerId, envelope: Envelope, id: nat, outcome: Outcome, next: Action,
                    maxAttempts: nat)
    requires match outcome
      case Returned => PhaseOf(s, w) == Acking(id) && envelope.ticket in s.handled
      case RefusedForGood => PhaseOf(s, w) == Burying(id, envelope, true)
      case Failed => PhaseOf(s, w) == if envelope.attempt < maxAttempts then Requeueing(id, envelope)
        else Burying(id, envelope, false)
    requires Enabled(s, next) && TakenBy(next, w) && !next.Fault?
    ensures Settled(s, Step(s, next, maxAttempts), next, w, envelope, outcome, maxAttempts)
  {
  }

  lemma HandlerMoves(s: State, w: WorkerId, id: nat, envelope: Envelope, outcome: Outcome, maxAttempts: nat)
    requires PhaseOf(s, w) == Handling(id, envelope)
    ensures Enabled(s, Handler(w, outcome))
    ensures var s' := Step(s, Handler(w, outcome), maxAttempts);
      match outcome
      case Returned => PhaseOf(s', w) == Acking(id) && envelope.ticket in s'.handled
      case RefusedForGood => PhaseOf(s', w) == Burying(id, envelope, true)
      case Failed => PhaseOf(s', w) == if envelope.attempt < maxAttempts then Requeueing(id, envelope)
        else Burying(id, envelope, false)
  {
  }

  /**
   * A task that returned is acknowledged, one refused for good is dead-lettered as permanent, one
   * that failed is put back with its attempt counted, and dead-lettered only at the last attempt:
   * whatever the other workers do meanwhile, the worker's next step does that, or it dies.
   */
  lemma OutcomeDecides(actions: seq<Action>, maxAttempts: nat, n: nat, m: nat, w: WorkerId, id: nat,
                       envelope: Envelope, outcome: Outcome)
    requires EndsAt(actions, maxAttempts, n, w, id, envelope, outcome)
    requires n < m < |actions| && QuietBetween(actions, maxAttempts, w, n, m)
    requires TakenBy(actions[m], w) && Happens(actions, maxAttempts, m)
    ensures || actions[m] == Fault(w)
            || Settled(Run(actions[..m], maxAttempts), Run(actions[..m + 1], maxAttempts), actions[m], w, envelope,
                       outcome, maxAttempts)
  {
    hide Run, Step, Enabled, PhaseOf, Settled;
    HandlerMoves(Run(actions[..n], maxAttempts), w, id, envelope, outcome, maxAttempts);
    RunOfPrefix(actions, maxAttempts, n);
    RunOfPrefix(actions, maxAttempts, m);
    PhaseKept(actions, maxAttempts, w, n, m);
    if outcome == Returned {
      HandledStays(actions, maxAttempts, n + 1, m, envelope.ticket);
    }
    if !actions[m].Fault? {
      FateOfPhase(Run(actions[..m], maxAttempts), w, envelope, id, outcome, actions[m], maxAttempts);
    }
  }

  // ---- Where entries and dead letters come from -------------------------------------

  /** What a worker is about to do was decided by an outcome. */
  ghost predicate PhaseFounded(actions: seq<Action>, maxAttempts: nat, phase: Phase) {
    match phase
    case Requeueing(_, envelope) =>
      Ended(actions, maxAttempts, envelope, Failed) && envelope.attempt < maxAttempts
    case Burying(_, envelope, permanent) => DeadFounded(actions, maxAttempts, DeadLetter(envelope, permanent))
    case _ => true
  }

  ghost predicate DeadFounded(actions: seq<Action>, maxAttempts: nat, d: DeadLetter) {
    if d.permanent then Ended(actions, maxAttempts, d.envelope, RefusedForGood)
    else Ended(actions, maxAttempts, d.envelope, Failed) && d.envelope.attempt >= maxAttempts
  }

  ghost predicate EntryFounded(actions: seq<Action>, maxAttempts: nat, envelope: Envelope) {
    envelope.attempt > 0 ==> Ended(actions, maxAttempts, envelope, Failed) && envelope.attempt < maxAttempts
  }

  ghost predicate Founded(actions: seq<Action>, maxAttempts: nat, s: State) {
    && (forall w | w in s.workers :: PhaseFounded(actions, maxAttempts, PhaseOf(s, w)))
    && (forall i | 0 <= i < |s.stream| :: EntryFounded(actions, maxAttempts, s.stream[i]))
    && (forall i | 0 <= i < |s.dlq| :: DeadFounded(actions, maxAttempts, s.dlq[i]))
  }

  lemma EndedStays(actions: seq<Action>, maxAttempts: nat, k: nat)
    requires k <= |actions|
    ensures forall e, o :: Ended(actions[..k], maxAttempts, e, o) ==> Ended(actions, maxAttempts, e, o)
  {
    hide Run;
    forall e, o | Ended(actions[..k], maxAttempts, e, o)
      ensures Ended(actions, maxAttempts, e, o)
    {
      var n: nat, w: WorkerId, id: nat :| EndsAt(actions[..k], maxAttempts, n, w, id, e, o);
      assert actions[..k][..n] == actions[..n];
      assert EndsAt(actions, maxAttempts, n, w, id, e, o);
    }
  }

  lemma FoundedStays(actions: seq<Action>, maxAttempts: nat, k: nat, s: State)
    requires k <= |actions| && Founded(actions[..k], maxAttempts, s)
    ensures Founded(actions, maxAttempts, s)
  {
    hide Ended, PhaseOf;
    EndedStays(actions, maxAttempts, k);
  }

  lemma StepFounded(actions: seq<Action>, maxAttempts: nat, s: State, a: Action)
    requires Enabled(s, a) && Founded(actions, maxAttempts, s)
    requires forall w, id, e, o | a == Handler(w, o) && PhaseOf(s, w) == Handling(id, e) ::
      Ended(actions, maxAttempts, e, o)
    ensures Founded(actions, maxAttempts, Step(s, a, maxAttempts))
  {
    hide Ended;
  }

  /**
   * From the actions alone: an entry with attempts behind it was put there by a delivery whose
   * handler failed with attempts left; a dead letter is permanent when the handler of its delivery
   * refused the task, and otherwise its handler failed at the last attempt.
   */
  lemma {:induction false} OutcomesFound(actions: seq<Action>, maxAttempts: nat)
    ensures Founded(actions, maxAttempts, Run(actions, maxAttempts))
  {
    if actions != [] {
      var k := |actions| - 1;
      var before := Run(actions[..k], maxAttempts);
      OutcomesFound(actions[..k], maxAttempts);
      FoundedStays(actions, maxAttempts, k, before);
      if Enabled(before, actions[k]) {
        forall w, id, e, o | actions[k] == Handler(w, o) && PhaseOf(before, w) == Handling(id, e)
          ensures Ended(actions, maxAttempts, e, o)
        {
          assert EndsAt(actions, maxAttempts, k, w, id, e, o);
        }
        StepFounded(actions, maxAttempts, before, actions[k]);
      }
    }
  }

  // ---- Who is given an entry ----------------------------------------------------------

  predicate Gives(a: Action, id: nat) {
    (a.Read? && a.id == id) || (a.Reclaim? && id in a.ids)
  }

  /** Whatever a worker holds and whatever is acknowledged was delivered. */
  ghost predicate HeldDelivered(s: State) {
    && s.acked <= s.delivered
    && (forall w | w in s.workers :: WithinDelivered(s.workers[w], s.delivered))
  }

  predicate WithinDelivered(worker: Worker, delivered: set<nat>) {
    && (forall id | id in worker.batch :: id in delivered)
    && (!worker.phase.Idle? ==> worker.phase.id in delivered)
  }

  lemma StepHeld(s: State, a: Action, maxAttempts: nat)
    requires Enabled(s, a) && HeldDelivered(s)
    ensures HeldDelivered(Step(s, a, maxAttempts))
    ensures s.delivered <= Step(s, a, maxAttempts).delivered && s.acked <= Step(s, a, maxAttempts).acked
    ensures forall id | Gives(a, id) :: id !in s.acked && id in Step(s, a, maxAttempts).delivered
    ensures forall id | a.Read? && a.id == id :: id !in s.delivered
  {
  }

  lemma {:induction false} RunHeld(actions: seq<Action>, maxAttempts: nat, n: nat, m: nat)
    requires n <= m <= |actions|
    ensures HeldDelivered(Run(actions[..m], maxAttempts))
    ensures Run(actions[..n], maxAttempts).delivered <= Run(actions[..m], maxAttempts).delivered
    ensures Run(actions[..n], maxAttempts).acked <= Run(actions[..m], maxAttempts).acked
    decreases m
  {
    hide Step, Enabled;
    if m > 0 {
      RunHeld(actions, maxAttempts, if n < m then n else m - 1, m - 1);
      RunOfPrefix(actions, maxAttempts, m - 1);
      if Happens(actions, maxAttempts, m - 1) {
        StepHeld(Run(actions[..m - 1], maxAttempts), actions[m - 1], maxAttempts);
      }
    }
  }

  lemma ReadsEntry(s: State, a: Action)
    requires Enabled(s, a)
    ensures a.Read? ==> a.id < |s.stream|
  {
  }

  /** An entry is read as new once it is in the stream, only once, and given to nobody after its acknowledgement. */
  lemma ReadOnce(actions: seq<Action>, maxAttempts: nat, n: nat, m: nat, id: nat)
    requires n < m && Happens(actions, maxAttempts, n) && Happens(actions, maxAttempts, m)
    ensures Gives(actions[n], id) ==> !(actions[m].Read? && actions[m].id == id)
    ensures id in Run(actions[..n], maxAttempts).acked ==> !Gives(actions[m], id)
    ensures actions[m].Read? ==> actions[m].id < |Run(actions[..m], maxAttempts).stream|
  {
    ReadsEntry(Run(actions[..m], maxAttempts), actions[m]);
    hide Run, Step, Enabled, HeldDelivered;
    RunHeld(actions, maxAttempts, n + 1, m);
    RunHeld(actions, maxAttempts, n, m);
    RunHeld(actions, maxAttempts, n, n);
    RunOfPrefix(actions, maxAttempts, n);
    StepHeld(Run(actions[..n], maxAttempts), actions[n], maxAttempts);
    StepHeld(Run(actions[..m], maxAttempts), actions[m], maxAttempts);
  }

  // ---- What is counted, and what is always possible -------------------------------------

  /** Starts of a handler for the submission, counted over the actions. */
  function Starts(actions: seq<Action>, maxAttempts: nat, ticket: nat): nat {
    if actions == [] then 0
    else
      var n := |actions| - 1;
      Starts(actions[..n], maxAttempts, ticket) + if StartsTicket(actions, maxAttempts, n, ticket) then 1 else 0
  }

  predicate StartsTicket(actions: seq<Action>, maxAttempts: nat, n: nat, ticket: nat) {
    Happens(actions, maxAttempts, n) && actions[n].Start? &&
    var before := Run(actions[..n], maxAttempts);
    before.stream[BatchOf(before, actions[n].w)[0]].ticket == ticket
  }

  lemma StepCalls(s: State, a: Action, maxAttempts: nat, ticket: nat)
    requires Enabled(s, a)
    ensures CallsOf(Step(s, a, maxAttempts), ticket)
         == CallsOf(s, ticket)
            + if a.Start? && s.stream[BatchOf(s, a.w)[0]].ticket == ticket then 1 else 0
  {
  }

  /** Calls are counted one for one. */
  lemma {:induction false} CallsCounted(actions: seq<Action>, maxAttempts: nat, ticket: nat)
    ensures CallsOf(Run(actions, maxAttempts), ticket) == Starts(actions, maxAttempts, ticket)
  {
    hide Step, Enabled, CallsOf, BatchOf;
    if actions == [] {
      NoCalls(ticket);
    } else {
      var n := |actions| - 1;
      CallsCounted(actions[..n], maxAttempts, ticket);
      if Happens(actions, maxAttempts, n) {
        StepCalls(Run(actions[..n], maxAttempts), actions[n], maxAttempts, ticket);
      }
    }
  }

  lemma NoCalls(ticket: nat)
    ensures CallsOf(EMPTY, ticket) == 0
  {
  }

  /** How a worker that has just joined takes up an open entry. */
  function TakeUp(s: State, w: WorkerId, id: nat): Action {
    if id in s.delivered then Reclaim(w, [id]) else Read(w, id)
  }

  lemma RunMore(actions: seq<Action>, a: Action, maxAttempts: nat)
    requires Enabled(Run(actions, maxAttempts), a)
    ensures Run(actions + [a], maxAttempts) == Step(Run(actions, maxAttempts), a, maxAttempts)
  {
    assert (actions + [a])[..|actions|] == actions;
  }

  lemma NewWorkerTakes(s: State, w: WorkerId, id: nat, maxAttempts: nat)
    requires w !in s.workers && id < |s.stream| && id !in s.acked
    ensures Enabled(s, Join(w))
    ensures var s1 := Step(s, Join(w), maxAttempts);
      && TakeUp(s1, w, id) == TakeUp(s, w, id) && Enabled(s1, TakeUp(s, w, id))
      && var s2 := Step(s1, TakeUp(s, w, id), maxAttempts);
      && Enabled(s2, Start(w))
      && var s3 := Step(s2, Start(w), maxAttempts);
      && Enabled(s3, Handler(w, Returned))
      && s.stream[id].ticket in Step(s3, Handler(w, Returned), maxAttempts).handled
  {
  }

  lemma {:induction false} NotAmong(taken: set<nat>) returns (n: nat)
    ensures forall k | k in taken :: k < n
    decreases |taken|
  {
    if taken == {} {
      return 0;
    }
    var k :| k in taken;
    var m := NotAmong(taken - {k});
    n := if k < m then m else k + 1;
    forall j | j in taken
      ensures j < n
    {
      assert j == k || j in taken - {k};
    }
  }

  /**
   * Nothing is ever stuck: from every reachable state, a submission that is neither handled nor
   * dead-lettered can still be taken up by a new worker and handled, whatever the others hold.
   */
  lemma CanStillBeHandled(actions: seq<Action>, maxAttempts: nat, ticket: nat) returns (more: seq<Action>)
    requires maxAttempts >= 1 && ticket < |Run(actions, maxAttempts).submitted|
    requires !Resolved(Run(actions, maxAttempts), ticket)
    ensures ticket in Run(actions + more, maxAttempts).handled
  {
    var id := OpenEntry(actions, maxAttempts, ticket);
    var s := Run(actions, maxAttempts);
    var w := NotAmong(s.workers.Keys);
    more := [Join(w), TakeUp(s, w, id), Start(w), Handler(w, Returned)];
    RunFour(actions, s, w, id, maxAttempts);
  }

  lemma OpenEntry(actions: seq<Action>, maxAttempts: nat, ticket: nat) returns (id: nat)
    requires maxAttempts >= 1 && ticket < |Run(actions, maxAttempts).submitted|
    requires !Resolved(Run(actions, maxAttempts), ticket)
    ensures var s := Run(actions, maxAttempts); id < |s.stream| && id !in s.acked && s.stream[id].ticket == ticket
  {
    RunKeepsInv(actions, maxAttempts);
    hide Run;
    var s := Run(actions, maxAttempts);
    assert Safe(s, ticket);
    id :| id < |s.stream| && -1 < id && id !in s.acked && s.stream[id].ticket == ticket;
  }

  lemma RunFour(actions: seq<Action>, s: State, w: WorkerId, id: nat, maxAttempts: nat)
    requires s == Run(actions, maxAttempts) && w !in s.workers && id < |s.stream| && id !in s.acked
    ensures s.stream[id].ticket
         in Run(actions + [Join(w), TakeUp(s, w, id), Start(w), Handler(w, Returned)], maxAttempts).handled
  {
    hide *;
    NewWorkerTakes(s, w, id, maxAttempts);
    var taken := actions + [Join(w)] + [TakeUp(s, w, id)];
    RunMore(actions, Join(w), maxAttempts);
    RunMore(actions + [Join(w)], TakeUp(s, w, id), maxAttempts);
    RunMore(taken, Start(w), maxAttempts);
    RunMore(taken + [Start(w)], Handler(w, Returned), maxAttempts);
    assert actions + [Join(w), TakeUp(s, w, id), Start(w), Handler(w, Returned)]
        == taken + [Start(w)] + [Handler(w, Returned)];
  }

  /** A submission is taken at any time, whatever the workers are at, and can then be handled. */
  lemma SubmissionHandled(actions: seq<Action>, maxAttempts: nat, m: Message) returns (more: seq<Action>)
    requires maxAttempts >= 1
    ensures Run(actions + [Submit(m)], maxAttempts).submitted == Run(actions, maxAttempts).submitted + [m]
    ensures |Run(actions, maxAttempts).submitted| in Run(actions + [Submit(m)] + more, maxAttempts).handled
  {
    var before := Run(actions, maxAttempts);
    RunKeepsInv(actions, maxAttempts);
    RunMore(actions, Submit(m), maxAttempts);
    hide Run;
    var id := |before.stream|;
    var w := NotAmong(before.workers.Keys);
    more := [Join(w), TakeUp(Submitted(before, m), w, id), Start(w), Handler(w, Returned)];
    RunFour(actions + [Submit(m)], Submitted(before, m), w, id, maxAttempts);
  }

  lemma DeadWorkerTakes(s: State, w: WorkerId, id: nat, maxAttempts: nat)
    requires w in s.workers && id < |s.stream| && id in s.delivered && id !in s.acked
    ensures Enabled(s, Fault(w))
    ensures var s1 := Step(s, Fault(w), maxAttempts);
      && Enabled(s1, Reclaim(w, [id]))
      && var s2 := Step(s1, Reclaim(w, [id]), maxAttempts);
      && Enabled(s2, Start(w))
      && CallsOf(Step(s2, Start(w), maxAttempts), s.stream[id].ticket) == CallsOf(s, s.stream[id].ticket) + 1
  {
  }

  /**
   * Delivery is at least once, not once: a worker that dies before it acknowledges, even after the
   * handler returned, leaves the entry to be reclaimed and the handler to be called again.
   */
  lemma CalledAgain(actions: seq<Action>, maxAttempts: nat, w: WorkerId)
    returns (more: seq<Action>)
    requires maxAttempts >= 1 && PhaseOf(Run(actions, maxAttempts), w).Acking?
    requires PhaseOf(Run(actions, maxAttempts), w).id !in Run(actions, maxAttempts).acked
    ensures var s := Run(actions, maxAttempts);
      var id := PhaseOf(s, w).id;
      id < |s.stream| &&
      CallsOf(Run(actions + more, maxAttempts), s.stream[id].ticket) == CallsOf(s, s.stream[id].ticket) + 1
  {
    var s := Run(actions, maxAttempts);
    RunKeepsInv(actions, maxAttempts);
    assert WorkerOk(s, s.workers[w], maxAttempts);
    RunHeld(actions, maxAttempts, |actions|, |actions|);
    assert actions[..|actions|] == actions;
    var id := PhaseOf(s, w).id;
    more := [Fault(w), Reclaim(w, [id]), Start(w)];
    RunThree(actions, s, w, id, maxAttempts);
  }

  lemma RunThree(actions: seq<Action>, s: State, w: WorkerId, id: nat, maxAttempts: nat)
    requires s == Run(actions, maxAttempts)
    requires w in s.workers && id < |s.stream| && id in s.delivered && id !in s.acked
    ensures CallsOf(Run(actions + [Fault(w), Reclaim(w, [id]), Start(w)], maxAttempts), s.stream[id].ticket)
         == CallsOf(s, s.stream[id].ticket) + 1
  {
    hide *;
    DeadWorkerTakes(s, w, id, maxAttempts);
    RunMore(actions, Fault(w), maxAttempts);
    RunMore(actions + [Fault(w)], Reclaim(w, [id]), maxAttempts);
    RunMore(actions + [Fault(w)] + [Reclaim(w, [id])], Start(w), maxAttempts);
    assert actions + [Fault(w), Reclaim(w, [id]), Start(w)] == actions + [Fault(w)] + [Reclaim(w, [id])] + [Start(w)];
  }

  /** The newest dead letters, as many as a replay looks at. */
  function Newest(s: State): seq<DeadLetter> {
    if |s.dlq| > 500 then s.dlq[|s.dlq| - 500..] else s.dlq
  }

  /** A message can be replayed exactly while one of its dead letters is among the newest. */
  lemma ReplaysNewest(s: State, m: Message)
    ensures Enabled(s, Replay(m)) <==> exists d :: d in Newest(s) && d.envelope.message == m
  {
    if i :| |s.dlq| - 500 <= i < |s.dlq| && 0 <= i && s.dlq[i].envelope.message == m {
      assert s.dlq[i] in Newest(s);
    }
    if d :| d in Newest(s) && d.envelope.message == m {
      var k :| 0 <= k < |Newest(s)| && Newest(s)[k] == d;
      var first := if |s.dlq| > 500 then |s.dlq| - 500 else 0;
      assert s.dlq[first + k] == d;
    }
  }

  // ---- The memory backend ---------------------------------------------------------

  datatype Job = Deliver(ticket: nat, outcome: Outcome) | Fire(ticket: nat) | SubmitOne | CloseQueue

  /** Where a submission is. */
  datatype Place = Queued | Waiting | Dead | Done | Dropped

  /** What has become of the submissions, how often each was handled, and whether the queue is closed. */
  datatype Ledger = Ledger(places: seq<Place>, calls: seq<nat>, closed: bool)

  /** One event: what is not waiting for it is left alone. */
  function Booked(l: Ledger, job: Job, maxAttempts: int): (after: Ledger)
    requires |l.places| == |l.calls|
    ensures |after.places| == |after.calls|
  {
    match job
    case SubmitOne => if l.closed then l else Ledger(l.places + [Queued], l.calls + [0], false)
    case Deliver(t, outcome) =>
      if t >= |l.places| || l.places[t] != Queued then l
      else
        var attempt := l.calls[t] + 1;
        var place :=
          if outcome == Returned then Done
          else if outcome == RefusedForGood || attempt >= maxAttempts then Dead
          else Waiting;
        Ledger(l.places[t := place], l.calls[t := attempt], l.closed)
    case Fire(t) =>
      if t >= |l.places| || l.places[t] != Waiting then l
      else l.(places := l.places[t := if l.closed then Dropped else Queued])
    case CloseQueue => l.(closed := true)
  }

  function AllBooked(l: Ledger, jobs: seq<Job>, maxAttempts: int): (after: Ledger)
    requires |l.places| == |l.calls|
    ensures |after.places| == |after.calls|
  {
    if jobs == [] then l
    else Booked(AllBooked(l, jobs[..|jobs| - 1], maxAttempts), jobs[|jobs| - 1], maxAttempts)
  }

  lemma NothingBooked(l: Ledger, jobs: seq<Job>, maxAttempts: int)
    requires |l.places| == |l.calls|
    ensures AllBooked(l, jobs[..0], maxAttempts) == l
  {
  }

  lemma OneMoreBooked(l: Ledger, jobs: seq<Job>, maxAttempts: int, i: nat)
    requires |l.places| == |l.calls| && i < |jobs|
    ensures AllBooked(l, jobs[..i + 1], maxAttempts)
         == Booked(AllBooked(l, jobs[..i], maxAttempts), jobs[i], maxAttempts)
  {
    assert jobs[..i + 1][..i] == jobs[..i];
  }

  /** Submissions are numbered; a submission's envelope is its attempt count. */
  class MemoryQueue {
    const maxAttempts: int
    var queued: map<nat, nat>
    var timers: map<nat, nat>
    var dlq: seq<nat>
    var closed: bool
    ghost var places: seq<Place>
    ghost var calls: seq<nat>
    var submissions: nat

    constructor (maxAttempts: int)
      ensures Valid() && this.maxAttempts == maxAttempts && submissions == 0 && !closed
    {
      this.maxAttempts := maxAttempts;
      queued, timers, dlq, closed, submissions := map[], map[], [], false, 0;
      places, calls := [], [];
    }

    /** The most handler calls one submission can cause. */
    function Limit(): nat {
      if maxAttempts < 1 then 1 else maxAttempts
    }

    /** The collections agree with the places, envelopes count handler calls, and what waits may still be tried. */
    ghost predicate Valid()
      reads this
    {
      && |places| == |calls| == submissions
      && (forall t | t in queued :: t < submissions) && (forall t | t in timers :: t < submissions)
      && forall t: nat :: Agrees(t)
    }

    ghost predicate Agrees(t: nat)
      requires |places| == |calls| == submissions
      reads this
    {
      && (t in queued <==> t < submissions && places[t] == Queued)
      && (t in timers <==> t < submissions && places[t] == Waiting)
      && (t in dlq <==> t < submissions && places[t] == Dead)
      && (t in queued ==> queued[t] == calls[t] < Limit())
      && (t in timers ==> timers[t] == calls[t] < Limit())
      && (t < submissions ==> calls[t] <= Limit() && (places[t] == Dropped ==> closed))
    }

    method Submit() returns (ok: bool)
      requires Valid()
      modifies this
      ensures Valid() && ok == !old(closed) && closed == old(closed)
      ensures calls == if ok then old(calls) + [0] else old(calls)
      ensures places == if ok then old(places) + [Queued] else old(places)
    {
      if closed {
        return false;
      }
      queued := queued[submissions := 0];
      submissions := submissions + 1;
      calls, places := calls + [0], places + [Queued];
      assert forall t: nat :: old(Agrees(t)) ==> Agrees(t);
      return true;
    }

    /** One handler call, and what its outcome does with the envelope. */
    method Handle(ticket: nat, outcome: Outcome)
      requires Valid() && ticket in queued
      modifies this
      ensures Valid() && closed == old(closed) && submissions == old(submissions)
      ensures calls == old(calls)[ticket := old(calls)[ticket] + 1]
      ensures places == old(places)[ticket :=
        if outcome == Returned then Done
        else if outcome == RefusedForGood || calls[ticket] >= maxAttempts then Dead
        else Waiting]
    {
      assert Agrees(ticket);
      var attempt := queued[ticket] + 1;
      queued := queued - {ticket};
      calls := calls[ticket := attempt];
      if outcome == Returned {
        places := places[ticket := Done];
      } else if outcome == RefusedForGood || attempt >= maxAttempts {
        dlq, places := dlq + [ticket], places[ticket := Dead];
      } else {
        timers, places := timers[ticket := attempt], places[ticket := Waiting];
      }
      assert forall t: nat :: old(Agrees(t)) ==> Agrees(t);
    }

    /** A retry timer fires; after closing, the envelope is dropped. */
    method Resubmit(ticket: nat)
      requires Valid() && ticket in timers
      modifies this
      ensures Valid() && closed == old(closed) && calls == old(calls) && submissions == old(submissions)
      ensures places == old(places)[ticket := if closed then Dropped else Queued]
    {
      assert Agrees(ticket);
      var attempt := timers[ticket];
      timers := timers - {ticket};
      if closed {
        places := places[ticket := Dropped];
      } else {
        queued, places := queued[ticket := attempt], places[ticket := Queued];
      }
      assert forall t: nat :: old(Agrees(t)) ==> Agrees(t);
    }

    method Close()
      requires Valid()
      modifies this`closed
      ensures Valid() && closed && places == old(places) && calls == old(calls)
    {
      closed := true;
      assert forall t: nat :: old(Agrees(t)) ==> Agrees(t);
    }

    /**
     * Any sequence of events, each with its effect: no submission is handled more often than its
     * limit, and none disappears unless the queue was closed while it waited for a retry.
     */
    method Serve(jobs: seq<Job>)
      requires Valid()
      modifies this
      ensures Valid() && |old(places)| == |old(calls)|
      ensures Ledger(places, calls, closed)
           == AllBooked(Ledger(old(places), old(calls), old(closed)), jobs, maxAttempts)
      ensures forall t: nat | t < submissions :: calls[t] <= Limit()
      ensures !closed ==> forall t: nat | t < submissions :: places[t] == Done || t in dlq || t in queued || t in timers
    {
      hide AllBooked, Limit;
      NothingBooked(Ledger(places, calls, closed), jobs, maxAttempts);
      for i := 0 to |jobs|
        invariant Valid() && |places| == |calls|
        invariant Ledger(places, calls, closed)
               == AllBooked(Ledger(old(places), old(calls), old(closed)), jobs[..i], maxAttempts)
      {
        OneMoreBooked(Ledger(old(places), old(calls), old(closed)), jobs, maxAttempts, i);
        match jobs[i] {
          case SubmitOne =>
            var _ := Submit();
          case Deliver(ticket, outcome) =>
            assert Agrees(ticket);
            if ticket in queued {
              Handle(ticket, outcome);
            }
          case Fire(ticket) =>
            assert Agrees(ticket);
            if ticket in timers {
              Resubmit(ticket);
            }
          case CloseQueue =>
            Close();
        }
      }
      assert jobs[..|jobs|] == jobs;
      forall t: nat | t < submissions
        ensures calls[t] <= Limit()
        ensures !closed ==> places[t] == Done || t in dlq || t in queued || t in timers
      {
        assert Agrees(t);
      }
    }
  }
}
