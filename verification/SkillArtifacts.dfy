/** Versions of a skill artifact: the status life cycle, the active flag and the version numbers. */
module SkillArtifacts {
  import opened Models

  datatype Status =
    | Draft | Quarantined | Evaluating | Validated | Shadow | Canary | Active | Stale | Rejected | RolledBack | Archived

  /** The legal direct changes of status. */
  predicate CanTransition(source: Status, target: Status) {
    match source
    case Draft => target in {Quarantined, Evaluating, Validated, Rejected}
    case Quarantined => target in {Evaluating, Rejected}
    case Evaluating => target in {Validated, Rejected}
    case Validated => target in {Shadow, Active, Archived}
    case Shadow => target in {Canary, RolledBack, Archived}
    case Canary => target in {Active, RolledBack, Archived}
    case Active => target in {Validated, Stale, RolledBack, Archived}
    case Stale => target == Archived
    case Rejected => target == Archived
    case RolledBack => target in {Validated, Archived}
    case Archived => false
  }

  /**
   * Where each status is entered from: a version is validated after evaluation or on its way back,
   * goes active from validated or canary only, is rolled back only while it runs, and what is archived stays so.
   */
  lemma EnteredFrom(source: Status, target: Status)
    ensures CanTransition(source, target) <==>
      match target
      case Draft => false
      case Quarantined => source == Draft
      case Evaluating => source == Draft || source == Quarantined
      case Validated => source == Draft || source == Evaluating || source == Active || source == RolledBack
      case Shadow => source == Validated
      case Canary => source == Shadow
      case Active => source == Validated || source == Canary
      case Stale => source == Active
      case Rejected => source == Draft || source == Quarantined || source == Evaluating
      case RolledBack => source == Shadow || source == Canary || source == Active
      case Archived => source !in {Draft, Quarantined, Evaluating, Archived}
  {
  }

  predicate IsActivatable(s: Status) {
    s == Validated || s == Active
  }

  function DefaultStatus(activate: bool): Status {
    if activate then Active else Validated
  }

  datatype Row = Row(status: Status, active: bool)

  /** The versions of one tenant's skill. */
  type Versions = map<nat, Row>

  /** Version numbers are exactly 1 to n, and at most one version is active. */
  ghost predicate Sound(rows: Versions) {
    && Numbered(rows)
    && OneActive(rows)
  }

  ghost predicate Numbered(rows: Versions) {
    forall v: nat :: v in rows <==> 1 <= v <= |rows|
  }

  ghost predicate OneActive(rows: Versions) {
    forall u, v | u in rows && v in rows && rows[u].active && rows[v].active :: u == v
  }

  /** The flag and the status say the same. */
  predicate Agrees(row: Row) {
    row.active <==> row.status == Active
  }

  ghost predicate Agreement(rows: Versions) {
    forall v | v in rows :: Agrees(rows[v])
  }

  // ---- The statements, as functions on the versions -------------------------------

  /** Takes the flag from whichever version has it, back to validated. */
  function Deactivated(rows: Versions): Versions {
    map v | v in rows :: if rows[v].active then Row(Validated, false) else rows[v]
  }

  /** The same without touching the status. */
  function Unflagged(rows: Versions): Versions {
    map v | v in rows :: rows[v].(active := false)
  }

  /** The versions after saving one more. */
  function SavedRows(rows: Versions, version: nat, activate: bool, status: Option<Status>): Versions {
    var row := Row(if status.Some? then status.value else DefaultStatus(activate), activate);
    (if activate then Deactivated(rows) else rows)[version := row]
  }

  /** The versions after a successful transition. */
  function TransitionedRows(rows: Versions, version: nat, target: Status, enabled: bool): Versions
    requires version in rows
  {
    if target != Active then rows[version := rows[version].(status := target)]
    else if rows[version].active then rows
    else if enabled then Deactivated(rows)[version := Row(Active, true)]
    else Unflagged(rows)[version := Row(Active, true)]
  }

  /** Row by row, a save adds its own version and at most takes the flag from the version that had it. */
  lemma SavedRowByRow(rows: Versions, version: nat, activate: bool, status: Option<Status>)
    requires version !in rows
    ensures var after := SavedRows(rows, version, activate, status);
      && after.Keys == rows.Keys + {version}
      && (after[version].active <==> activate)
      && (status.Some? ==> after[version].status == status.value)
      && (status.None? ==> after[version].status == if activate then Active else Validated)
      && (forall v | v in rows ::
            after[v] == if activate && rows[v].active then Row(Validated, false) else rows[v])
  {
  }

  /** Row by row, a move changes the status of its version, and an activation also who has the flag. */
  lemma TransitionedRowByRow(rows: Versions, version: nat, target: Status, enabled: bool)
    requires version in rows
    ensures var after := TransitionedRows(rows, version, target, enabled);
      && after.Keys == rows.Keys
      && (target != Active ==> after[version] == rows[version].(status := target))
      && (target == Active ==> after[version] == if rows[version].active then rows[version] else Row(Active, true))
      && (forall v | v in rows && v != version ::
            after[v] ==
              if target != Active || rows[version].active || !rows[v].active then rows[v]
              else if enabled then Row(Validated, false)
              else rows[v].(active := false))
  {
  }

  lemma SameNumbers(rows: Versions, after: Versions)
    requires Numbered(rows) && after.Keys == rows.Keys
    ensures |after| == |rows| && Numbered(after)
  {
    assert |after| == |after.Keys| && |rows| == |rows.Keys|;
    forall v: nat
      ensures v in after <==> 1 <= v <= |after|
    {
      assert v in after <==> v in rows.Keys;
    }
  }

  lemma NextNumber(rows: Versions, after: Versions)
    requires Numbered(rows) && after.Keys == rows.Keys + {|rows| + 1}
    ensures |after| == |rows| + 1 && Numbered(after)
  {
    assert |after| == |after.Keys| && |rows| == |rows.Keys|;
    forall v: nat
      ensures v in after <==> 1 <= v <= |after|
    {
      assert v in after <==> v in rows.Keys || v == |rows| + 1;
    }
  }

  lemma SavedSound(rows: Versions, activate: bool, status: Option<Status>)
    requires Sound(rows)
    ensures Sound(SavedRows(rows, |rows| + 1, activate, status))
  {
    hide Numbered, DefaultStatus;
    var after := SavedRows(rows, |rows| + 1, activate, status);
    assert after.Keys == rows.Keys + {|rows| + 1};
    NextNumber(rows, after);
  }

  lemma TransitionedSound(rows: Versions, version: nat, target: Status, enabled: bool)
    requires Sound(rows) && version in rows
    ensures Sound(TransitionedRows(rows, version, target, enabled))
  {
    hide Numbered;
    var after := TransitionedRows(rows, version, target, enabled);
    assert after.Keys == rows.Keys;
    SameNumbers(rows, after);
  }

  /** After a save the flag and the status agree exactly when the given status fits the activate flag. */
  lemma SaveKeepsAgreement(rows: Versions, activate: bool, status: Option<Status>)
    requires Sound(rows) && Agreement(rows)
    ensures Agreement(SavedRows(rows, |rows| + 1, activate, status))
        <==> (status.None? || (activate <==> status.value == Active))
  {
    var after := SavedRows(rows, |rows| + 1, activate, status);
    assert Agrees(after[|rows| + 1]) <==> (status.None? || (activate <==> status.value == Active));
  }

  lemma LastVersion(rows: Versions, m: nat)
    requires Sound(rows) && (forall v | v in rows :: v <= m) && (if rows == map[] then m == 0 else m in rows)
    ensures m == |rows|
  {
    if rows != map[] {
      assert |rows| in rows by {
        assert |rows| == |rows.Keys|;
      }
    }
  }

  // ---- The store ---------------------------------------------------------------------

  type Key = (string, string)

  function RowsOf(table: map<Key, Versions>, key: Key): Versions {
    if key in table then table[key] else map[]
  }

  /** Whether a version that is not active may become so: by its status, or because a run activated it before. */
  predicate MayActivate(row: Row, ranBefore: bool, enabled: bool) {
    ranBefore || (enabled && (IsActivatable(row.status) || row.status == Canary))
  }

  /** Whether a version may move to `target`. */
  predicate MayMove(row: Row, target: Status, ranBefore: bool, enabled: bool) {
    if target == Active then row.active || MayActivate(row, ranBefore, enabled)
    else enabled && CanTransition(row.status, target) && !(target == Archived && row.active)
  }

  /** A version goes active if it is so already, if a run activated it before, or, by its status, from these three. */
  lemma ActivatedExactly(row: Row, ranBefore: bool, enabled: bool)
    ensures MayMove(row, Active, ranBefore, enabled) <==>
      row.active || ranBefore || (enabled && row.status in {Validated, Canary, Active})
  {
  }

  function NextStage(s: Status): Option<Status> {
    match s
    case Validated => Some(Shadow)
    case Shadow => Some(Canary)
    case Canary => Some(Active)
    case _ => None
  }

  predicate MayPromote(rows: Versions, version: nat, actor: Actor, ranBefore: bool, enabled: bool) {
    && version in rows
    && NextStage(rows[version].status).Some?
    && Permitted(actor, rows[version].status, NextStage(rows[version].status).value, false)
    && MayMove(rows[version], NextStage(rows[version].status).value, ranBefore, enabled)
  }

  function PromotedRows(rows: Versions, version: nat, enabled: bool): Versions
    requires version in rows && NextStage(rows[version].status).Some?
  {
    TransitionedRows(rows, version, NextStage(rows[version].status).value, enabled)
  }

  predicate MayRollBack(rows: Versions, version: nat, actor: Actor, enabled: bool) {
    && version in rows
    && Permitted(actor, rows[version].status, RolledBack, false)
    && enabled
  }

  function RolledBackRows(rows: Versions, version: nat): Versions
    requires version in rows
  {
    rows[version := rows[version].(status := RolledBack)]
  }

  class SkillArtifactStore {
    var table: map<Key, Versions>
    var activatedRuns: set<(Key, nat)>
    var enabled: bool

    constructor (enabled: bool)
      ensures Valid() && table == map[] && this.enabled == enabled
    {
      table, activatedRuns := map[], {};
      this.enabled := enabled;
    }

    ghost predicate Valid()
      reads this
    {
      forall key | key in table :: Sound(table[key])
    }

    method SetEnabled(value: bool)
      requires Valid()
      modifies this`enabled
      ensures Valid() && enabled == value
    {
      enabled := value;
    }

    /** COALESCE(MAX(version), 0). */
    method MaxVersion(rows: Versions) returns (m: nat)
      requires Sound(rows)
      ensures m == |rows|
    {
      m := 0;
      var remaining := rows.Keys;
      while remaining != {}
        invariant remaining <= rows.Keys
        invariant forall v | v in rows && v !in remaining :: v <= m
        invariant m in rows || (m == 0 && remaining == rows.Keys)
        decreases remaining
      {
        var v :| v in remaining;
        remaining := remaining - {v};
        if v > m || m !in rows {
          m := v;
        }
      }
      LastVersion(rows, m);
    }

    /** Saves a new version under the next number. */
    method SaveSkillArtifact(key: Key, activate: bool, status: Option<Status>) returns (version: nat)
      requires Valid()
      modifies this`table
      ensures Valid() && version == (if key in old(table) then |old(table)[key]| + 1 else 1)
      ensures table == old(table)[key := SavedRows(RowsOf(old(table), key), version, activate, status)]
    {
      var rows := RowsOf(table, key);
      SavedSound(rows, activate, status);
      hide Sound, Deactivated, DefaultStatus;
      var last := MaxVersion(rows);
      version := last + 1;
      var row := Row(if status.Some? then status.value else DefaultStatus(activate), activate);
      var kept := if activate then Deactivated(rows) else rows;
      table := table[key := kept[version := row]];
    }

    /** Records that an evolution run activated this version. */
    method RecordActivatedRun(key: Key, version: nat)
      requires Valid()
      modifies this`activatedRuns
      ensures Valid() && activatedRuns == old(activatedRuns) + {(key, version)}
    {
      activatedRuns := activatedRuns + {(key, version)};
    }

    /**
     * Moves a version to another status.  Activation takes the flag from the version that had it;
     * every other change leaves the flag alone.
     */
    method TransitionSkillArtifact(key: Key, version: nat, target: Status) returns (ok: bool)
      requires Valid()
      modifies this`table
      ensures Valid()
      ensures ok <==>
        && version in RowsOf(old(table), key)
        && MayMove(RowsOf(old(table), key)[version], target, (key, version) in activatedRuns, enabled)
      ensures table == if ok then old(table)[key := TransitionedRows(RowsOf(old(table), key), version, target, enabled)]
        else old(table)
    {
      var rows: Versions := RowsOf(table, key);
      if version !in rows {
        return false;
      }
      TransitionedSound(rows, version, target, enabled);
      hide Sound, Deactivated, Unflagged, CanTransition;
      var row := rows[version];
      assert table[key := rows] == table;
      if enabled {
        if target == Active {
          if row.active {
            return true;
          }
          if !(IsActivatable(row.status) || row.status == Canary || (key, version) in activatedRuns) {
            return false;
          }
          table := table[key := Deactivated(rows)[version := Row(Active, true)]];
        } else {
          if !CanTransition(row.status, target) {
            return false;
          }
          if target == Archived && row.active {
            return false;
          }
          table := table[key := rows[version := row.(status := target)]];
        }
      } else {
        if target != Active {
          return false;
        }
        if row.active {
          return true;
        }
        if (key, version) !in activatedRuns {
          return false;
        }
        table := table[key := Unflagged(rows)[version := Row(Active, true)]];
      }
      return true;
    }

    /** Moves a candidate one stage on, for the one actor that may. */
    method PromoteCandidate(key: Key, version: nat, actor: Actor) returns (ok: bool)
      requires Valid()
      modifies this`table
      ensures Valid()
      ensures ok <==> MayPromote(RowsOf(old(table), key), version, actor, (key, version) in activatedRuns, enabled)
      ensures table == if ok then old(table)[key := PromotedRows(RowsOf(old(table), key), version, enabled)]
        else old(table)
    {
      var rows := RowsOf(table, key);
      if version !in rows {
        return false;
      }
      var target := NextStage(rows[version].status);
      if target.None? || !Permitted(actor, rows[version].status, target.value, false) {
        return false;
      }
      hide Sound, TransitionedRows;
      ok := TransitionSkillArtifact(key, version, target.value);
    }

    /** Rolls a candidate back.  The flag is left alone. */
    method RollbackCandidate(key: Key, version: nat, actor: Actor) returns (ok: bool)
      requires Valid()
      modifies this`table
      ensures Valid()
      ensures ok <==> MayRollBack(RowsOf(old(table), key), version, actor, enabled)
      ensures table == if ok then old(table)[key := RolledBackRows(RowsOf(old(table), key), version)] else old(table)
    {
      var rows := RowsOf(table, key);
      if version !in rows || !Permitted(actor, rows[version].status, RolledBack, false) {
        return false;
      }
      hide Sound;
      ok := TransitionSkillArtifact(key, version, RolledBack);
    }

    /** The store as a value. */
    function Value(): Shelf
      reads this
    {
      Shelf(table, activatedRuns, enabled)
    }

    /**
     * Any history of saves, runs, transitions and switches.  Flag and status agree after every request exactly
     * when every request is careful at its moment.
     */
    method Serve(requests: seq<Request>)
      requires Valid()
      modifies this
      ensures Valid() && Value() == After(old(Value()), requests)
      ensures AllAgree(old(Value())) ==>
        (AgreesThroughout(old(Value()), requests) <==> AllCareful(old(Value()), requests))
    {
      hide Careful, AllCareful, AllAgree, AgreesThroughout, Sound, SavedRows, TransitionedRows;
      for i := 0 to |requests|
        invariant Valid() && Value() == After(old(Value()), requests[..i])
      {
        AfterOneMore(old(Value()), requests, i);
        match requests[i] {
          case Save(key, activate, status) =>
            var _ := SaveSkillArtifact(key, activate, status);
          case Ran(key, version) =>
            RecordActivatedRun(key, version);
          case Move(key, version, target) =>
            var _ := TransitionSkillArtifact(key, version, target);
          case Switch(value) =>
            SetEnabled(value);
        }
      }
      assert requests[..|requests|] == requests;
      if AllAgree(old(Value())) {
        AgreementExactly(old(Value()), requests);
      }
    }
  }

  // ---- When flag and status agree ---------------------------------------------------

  datatype Shelf = Shelf(table: map<Key, Versions>, activatedRuns: set<(Key, nat)>, enabled: bool)

  /** An activation is a move to active. */
  datatype Request =
    | Save(key: Key, activate: bool, status: Option<Status>)
    | Ran(key: Key, version: nat)
    | Move(key: Key, version: nat, target: Status)
    | Switch(value: bool)

  predicate Moves(s: Shelf, key: Key, version: nat, target: Status) {
    var rows := RowsOf(s.table, key);
    version in rows && MayMove(rows[version], target, (key, version) in s.activatedRuns, s.enabled)
  }

  function Answered(s: Shelf, r: Request): Shelf {
    match r
    case Save(key, activate, status) =>
      var rows := RowsOf(s.table, key);
      s.(table := s.table[key := SavedRows(rows, |rows| + 1, activate, status)])
    case Ran(key, version) => s.(activatedRuns := s.activatedRuns + {(key, version)})
    case Move(key, version, target) =>
      if !Moves(s, key, version, target) then s
      else s.(table := s.table[key := TransitionedRows(RowsOf(s.table, key), version, target, s.enabled)])
    case Switch(value) => s.(enabled := value)
  }

  function After(s: Shelf, requests: seq<Request>): Shelf {
    if requests == [] then s else Answered(After(s, requests[..|requests| - 1]), requests[|requests| - 1])
  }

  ghost predicate AllSound(s: Shelf) {
    forall key | key in s.table :: Sound(s.table[key])
  }

  ghost predicate AllAgree(s: Shelf) {
    forall key | key in s.table :: Agreement(s.table[key])
  }

  /**
   * A save whose status fits its flag; a move that is refused, or changes the status of a version without the flag,
   * or activates one without leaving another's status behind as the switched-off life cycle does.
   */
  predicate Careful(s: Shelf, r: Request) {
    match r
    case Save(_, activate, status) => status.None? || (activate <==> status.value == Active)
    case Move(key, version, target) =>
      var rows := RowsOf(s.table, key);
      !Moves(s, key, version, target) || CarefulMove(rows, version, target, s.enabled)
    case _ => true
  }

  predicate CarefulMove(rows: Versions, version: nat, target: Status, enabled: bool)
    requires version in rows
  {
    if target != Active then !rows[version].active
    else enabled || rows[version].active || forall v | v in rows :: !rows[v].active
  }

  ghost predicate AllCareful(s: Shelf, requests: seq<Request>) {
    forall n | 0 <= n < |requests| :: Careful(After(s, requests[..n]), requests[n])
  }

  /** Flag and status agree at the start and after every request. */
  ghost predicate AgreesThroughout(s: Shelf, requests: seq<Request>) {
    forall n: nat | n <= |requests| :: AllAgree(After(s, requests[..n]))
  }

  lemma AfterOneMore(s: Shelf, requests: seq<Request>, n: nat)
    requires n < |requests|
    ensures After(s, requests[..n + 1]) == Answered(After(s, requests[..n]), requests[n])
  {
    assert requests[..n + 1][..n] == requests[..n];
  }

  lemma AnsweredSound(s: Shelf, r: Request)
    requires AllSound(s)
    ensures AllSound(Answered(s, r))
  {
    hide Sound, SavedRows, TransitionedRows;
    match r
    case Save(key, activate, status) =>
      EmptySound();
      SavedSound(RowsOf(s.table, key), activate, status);
    case Move(key, version, target) =>
      if Moves(s, key, version, target) {
        TransitionedSound(RowsOf(s.table, key), version, target, s.enabled);
      }
    case _ =>
  }

  lemma EmptySound()
    ensures Sound(map[])
  {
  }

  /** A changed entry agrees or not, whatever the rest does. */
  lemma AgreeAfterUpdate(s: Shelf, key: Key, rows: Versions)
    requires AllAgree(s)
    ensures AllAgree(s.(table := s.table[key := rows])) <==> Agreement(rows)
  {
    hide Agreement;
    var after := s.(table := s.table[key := rows]);
    assert key in after.table && after.table[key] == rows;
  }

  /** One request keeps the agreement exactly when it is careful, with the life cycle on or off. */
  lemma AnsweredAgrees(s: Shelf, r: Request)
    requires AllSound(s) && AllAgree(s)
    ensures AllAgree(Answered(s, r)) <==> Careful(s, r)
  {
    hide Sound, SavedRows, TransitionedRows, Agreement;
    EmptySound();
    EmptyAgrees();
    match r
    case Save(key, activate, status) =>
      var rows := RowsOf(s.table, key);
      SaveKeepsAgreement(rows, activate, status);
      AgreeAfterUpdate(s, key, SavedRows(rows, |rows| + 1, activate, status));
    case Move(key, version, target) =>
      if Moves(s, key, version, target) {
        var rows := RowsOf(s.table, key);
        TransitionKeepsAgreement(rows, version, target, s.enabled);
        AgreeAfterUpdate(s, key, TransitionedRows(rows, version, target, s.enabled));
      }
    case _ =>
  }

  lemma EmptyAgrees()
    ensures Agreement(map[])
  {
  }

  lemma {:induction false} AfterSound(s: Shelf, requests: seq<Request>)
    requires AllSound(s)
    ensures AllSound(After(s, requests))
  {
    if requests != [] {
      AfterSound(s, requests[..|requests| - 1]);
      AnsweredSound(After(s, requests[..|requests| - 1]), requests[|requests| - 1]);
    }
  }

  lemma ThroughoutOneMore(s: Shelf, requests: seq<Request>)
    requires requests != []
    ensures var front := requests[..|requests| - 1];
      AgreesThroughout(s, requests) <==> AgreesThroughout(s, front) && AllAgree(After(s, requests))
  {
    hide AllAgree, After;
    var front := requests[..|requests| - 1];
    assert forall n: nat | n <= |front| :: front[..n] == requests[..n];
    assert requests[..|requests|] == requests;
  }

  lemma CarefulOneMore(s: Shelf, requests: seq<Request>)
    requires requests != []
    ensures var front := requests[..|requests| - 1];
      AllCareful(s, requests) <==> AllCareful(s, front) && Careful(After(s, front), requests[|requests| - 1])
  {
    hide Careful, After;
    var front := requests[..|requests| - 1];
    assert forall n: nat | n < |front| :: front[..n] == requests[..n];
  }

  lemma AgreesAtEnd(s: Shelf, requests: seq<Request>)
    requires AgreesThroughout(s, requests)
    ensures AllAgree(After(s, requests))
  {
    assert requests[..|requests|] == requests;
  }

  /** Flag and status agree all along exactly when every request is careful when it comes. */
  lemma {:induction false} AgreementExactly(s: Shelf, requests: seq<Request>)
    requires AllSound(s) && AllAgree(s)
    ensures AgreesThroughout(s, requests) <==> AllCareful(s, requests)
  {
    if requests == [] {
      assert forall n: nat | n <= |requests| :: requests[..n] == [];
    } else {
      var front, last := requests[..|requests| - 1], requests[|requests| - 1];
      assert After(s, requests) == Answered(After(s, front), last);
      hide *;
      AgreementExactly(s, front);
      ThroughoutOneMore(s, requests);
      CarefulOneMore(s, requests);
      AfterSound(s, front);
      if AgreesThroughout(s, front) {
        AgreesAtEnd(s, front);
        AnsweredAgrees(After(s, front), last);
      }
    }
  }

  datatype Actor = Evaluator | DeploymentController | Admin | RollbackPolicy | Builder | Agent | Reflection

  /** Which actor may make which change. */
  predicate Permitted(actor: Actor, source: Status, target: Status, isHistorical: bool) {
    && CanTransition(source, target)
    && match actor
       case Evaluator => (source, target) in {(Draft, Evaluating), (Evaluating, Validated), (Evaluating, Rejected)}
       case DeploymentController => (source, target) in {(Validated, Shadow), (Shadow, Canary), (Canary, Active)}
       case Admin => (target == RolledBack && source in {Shadow, Canary, Active})
         || (isHistorical && (source, target) == (Validated, Active))
       case RollbackPolicy => target == RolledBack && source in {Shadow, Canary, Active}
       case _ => false
  }

  /** Which changes have an actor at all, and which one it is: nobody may make any other. */
  lemma PermittedExactly(actor: Actor, source: Status, target: Status, isHistorical: bool)
    ensures Permitted(actor, source, target, isHistorical) <==>
      match target
      case Evaluating => actor == Evaluator && source == Draft
      case Validated => actor == Evaluator && source == Evaluating
      case Rejected => actor == Evaluator && source == Evaluating
      case Shadow => actor == DeploymentController && source == Validated
      case Canary => actor == DeploymentController && source == Shadow
      case Active =>
        || (actor == DeploymentController && source == Canary)
        || (actor == Admin && isHistorical && source == Validated)
      case RolledBack => actor in {Admin, RollbackPolicy} && source in {Shadow, Canary, Active}
      case _ => false
  {
  }

  /** So only the controller promotes, a stage at a time, and only a version that runs is rolled back. */
  lemma PromotedOrRolledBack(rows: Versions, version: nat, actor: Actor, ranBefore: bool, enabled: bool)
    requires version in rows
    ensures MayPromote(rows, version, actor, ranBefore, enabled) <==>
      && actor == DeploymentController && rows[version].status in {Validated, Shadow, Canary}
      && (enabled || (rows[version].status == Canary && (ranBefore || rows[version].active)))
    ensures MayRollBack(rows, version, actor, enabled) <==>
      enabled && actor in {Admin, RollbackPolicy} && rows[version].status in {Shadow, Canary, Active}
  {
  }

  /**
   * Flag and status keep agreeing exactly when the change is not a status change of the active version, and,
   * with the life cycle switched off, when no other version was active.
   */
  lemma TransitionKeepsAgreement(rows: Versions, version: nat, target: Status, enabled: bool)
    requires Sound(rows) && Agreement(rows) && version in rows
    ensures Agreement(TransitionedRows(rows, version, target, enabled)) <==> CarefulMove(rows, version, target, enabled)
  {
    var after := TransitionedRows(rows, version, target, enabled);
    if target != Active {
      assert Agrees(after[version]) <==> !rows[version].active;
    } else if !enabled && !rows[version].active {
      if v :| v in rows && rows[v].active {
        assert !Agrees(after[v]);
      }
    }
  }

  /** What is served: the version that has the flag. */
  ghost predicate Served(rows: Versions, version: nat) {
    version in rows && rows[version].active
  }

  /**
   * A rollback of the version being served does not stop it from being served: its flag stays and only its
   * status changes, so the two disagree.  Rollbacks of other versions keep them in agreement.
   */
  lemma RollbackKeepsServing(rows: Versions, version: nat, actor: Actor, v: nat)
    requires Sound(rows) && MayRollBack(rows, version, actor, true)
    ensures Served(RolledBackRows(rows, version), v) <==> Served(rows, v)
    ensures Agreement(rows) ==> (Agreement(RolledBackRows(rows, version)) <==> !Served(rows, version))
  {
    hide Numbered;
    if Agreement(rows) {
      TransitionKeepsAgreement(rows, version, RolledBack, true);
    }
  }

  /**
   * Three promotions take a validated candidate to service, through shadow and canary, and retire the version before
   * it.
   */
  lemma PromotedThrice(rows: Versions, version: nat, v: nat)
    requires Sound(rows) && Agreement(rows) && version in rows && rows[version].status == Validated
    ensures var shadowed := PromotedRows(rows, version, true);
      var canaried := PromotedRows(shadowed, version, true);
      var promoted := PromotedRows(canaried, version, true);
      && (Served(canaried, v) <==> Served(rows, v))
      && (Served(promoted, v) <==> v == version)
      && Agreement(promoted)
      && (Served(rows, v) ==> promoted[v] == Row(Validated, false))
  {
    hide Sound;
    assert !rows[version].active;
    var canaried := rows[version := Row(Canary, false)];
    assert canaried == PromotedRows(PromotedRows(rows, version, true), version, true);
  }

  /**
   * Archived and rejected versions are described as never activated.  They are activated exactly when an
   * earlier run activated them, whether the life cycle is on or off.
   */
  lemma ArchivedActivation(row: Row, ranBefore: bool, enabled: bool)
    requires !row.active && row.status in {Archived, Rejected}
    ensures MayMove(row, Active, ranBefore, enabled) <==> ranBefore
  {
  }
}
