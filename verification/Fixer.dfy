/** Format-preserving repairs of one file: confirmed lines are edited or deleted in place, from the bottom up. */
module Fixer {
  import opened Models

  datatype Rule = DebugPrint | SubprocessShell | HardcodedSecret

  datatype Target = Target(line: int, rule: Rule)

  /** The rule patterns, the two textual repairs and the compiler. */
  datatype Tools = Tools(
    withoutShell: string -> string, fromEnvironment: string -> Option<string>, matches: (Rule, string) -> bool,
    mentionsEnviron: string -> bool, importsOs: string -> bool, compiles: seq<string> -> bool)

  /** Only the removal of a debug print leaves nothing of a line. */
  ghost predicate Sane(tools: Tools) {
    forall line | line != "" :: KeepsText(tools, line)
  }

  ghost predicate KeepsText(tools: Tools, line: string) {
    tools.withoutShell(line) != "" && tools.fromEnvironment(line) != Some("")
  }

  datatype Rejection = DoesNotParse | ReverificationFailed(rule: Rule, line: int) | TooManyLines | DoesNotCompile

  function RepairLine(tools: Tools, line: string, rule: Rule): Option<string> {
    match rule
    case DebugPrint => Some("")
    case SubprocessShell => Some(tools.withoutShell(line))
    case HardcodedSecret => tools.fromEnvironment(line)
  }

  /** What a rule does to a line: nothing, nothing because the repair still matches, or an edit. */
  datatype Decision = Skip | Failed | Edit(text: string)

  function Decide(tools: Tools, original: string, rule: Rule): Decision {
    var replacement := RepairLine(tools, original, rule);
    if replacement.None? || replacement.value == original then Skip
    else if tools.matches(rule, replacement.value) then Failed
    else Edit(replacement.value)
  }

  /** What the loop keeps besides the lines. */
  datatype Tally = Tally(changed: seq<Rule>, needsOs: bool, edits: nat, rejected: Option<Rejection>, stopped: bool)

  const START := Tally([], false, 0, None, false)

  function Record(tools: Tools, maxLines: int, tally: Tally, t: Target, d: Decision): Tally {
    match d
    case Skip => tally
    case Failed => tally.(rejected := Some(ReverificationFailed(t.rule, t.line)))
    case Edit(text) =>
      var over := tally.edits + 1 > maxLines;
      Tally(tally.changed + [t.rule], tally.needsOs || tools.mentionsEnviron(text), tally.edits + 1,
            if over then Some(TooManyLines) else tally.rejected, over)
  }

  // ---- The loop, line numbers and all ---------------------------------------------

  function Changed(lines: seq<string>, i: nat, d: Decision): seq<string>
    requires i < |lines|
  {
    if !d.Edit? then lines
    else if d.text == "" then lines[..i] + lines[i + 1..]
    else lines[i := d.text]
  }

  datatype Progress = Progress(lines: seq<string>, tally: Tally)

  /** One turn of the loop on the lines as they are by then. */
  function Turn(tools: Tools, maxLines: int, p: Progress, t: Target): Progress {
    var i := t.line - 1;
    if i < 0 || i >= |p.lines| then p
    else
      var d := Decide(tools, p.lines[i], t.rule);
      Progress(Changed(p.lines, i, d), Record(tools, maxLines, p.tally, t, d))
  }

  function Turns(tools: Tools, maxLines: int, p: Progress, order: seq<Target>): Progress
    decreases |order|
  {
    if order == [] || p.tally.stopped then p else Turns(tools, maxLines, Turn(tools, maxLines, p, order[0]), order[1..])
  }

  ghost predicate Descending(order: seq<Target>) {
    forall i, j | 0 <= i < j < |order| :: order[i].line >= order[j].line
  }

  /** The loop over the confirmed targets, sorted by line from the bottom up; `order` is one such arrangement. */
  method EditLines(tools: Tools, maxLines: int, original: seq<string>, order: seq<Target>) returns (p: Progress)
    ensures p == Turns(tools, maxLines, Progress(original, START), order)
  {
    var lines, changed, needsOs, edits, rejected: Option<Rejection> := original, [], false, 0, None;
    for k := 0 to |order|
      invariant Turns(tools, maxLines, Progress(lines, Tally(changed, needsOs, edits, rejected, false)), order[k..])
        == Turns(tools, maxLines, Progress(original, START), order)
    {
      var t := order[k];
      assert order[k..][0] == t && order[k..][1..] == order[k + 1..];
      var index := t.line - 1;
      if index < 0 || index >= |lines| {
        continue;
      }
      var replacement := RepairLine(tools, lines[index], t.rule);
      if replacement.None? || replacement.value == lines[index] {
        continue;
      }
      if tools.matches(t.rule, replacement.value) {
        rejected := Some(ReverificationFailed(t.rule, t.line));
        continue;
      }
      needsOs := needsOs || tools.mentionsEnviron(replacement.value);
      if replacement.value == "" {
        lines := lines[..index] + lines[index + 1..];
      } else {
        lines := lines[index := replacement.value];
      }
      changed := changed + [t.rule];
      edits := edits + 1;
      if edits > maxLines {
        rejected := Some(TooManyLines);
        return Progress(lines, Tally(changed, needsOs, edits, rejected, true));
      }
    }
    return Progress(lines, Tally(changed, needsOs, edits, rejected, false));
  }

  // ---- The simultaneous rewrite ------------------------------------------------------

  /** Edits by the line's original index; an empty text deletes the line. */
  type Edits = map<nat, string>

  function Current(original: seq<string>, edits: Edits, i: nat): string
    requires i < |original|
  {
    if i in edits then edits[i] else original[i]
  }

  predicate Deleted(edits: Edits, i: nat) {
    i in edits && edits[i] == ""
  }

  /** All edits at once, in one pass over the original lines. */
  function Rewritten(original: seq<string>, edits: Edits): seq<string> {
    if original == [] then []
    else
      var last := |original| - 1;
      Rewritten(original[..last], edits) + (if Deleted(edits, last) then [] else [Current(original, edits, last)])
  }

  function Put(edits: Edits, i: nat, d: Decision): Edits {
    if d.Edit? then edits[i := d.text] else edits
  }

  datatype Plan = Plan(edits: Edits, tally: Tally)

  /** What one target adds to the edits; it looks at the original line, or at what earlier rules made of it. */
  function PlanOne(tools: Tools, maxLines: int, original: seq<string>, plan: Plan, t: Target): Plan {
    var i := t.line - 1;
    if i < 0 || i >= |original| || Deleted(plan.edits, i) then plan
    else
      var d := Decide(tools, Current(original, plan.edits, i), t.rule);
      Plan(Put(plan.edits, i, d), Record(tools, maxLines, plan.tally, t, d))
  }

  function PlanAll(tools: Tools, maxLines: int, original: seq<string>, plan: Plan, order: seq<Target>): Plan
    decreases |order|
  {
    if order == [] || plan.tally.stopped then plan
    else PlanAll(tools, maxLines, original, PlanOne(tools, maxLines, original, plan, order[0]), order[1..])
  }

  lemma {:induction false} RewrittenPrefix(original: seq<string>, edits: Edits, n: nat)
    requires n <= |original|
    ensures Rewritten(original[..n], edits) <= Rewritten(original, edits)
  {
    if n == |original| {
      assert original[..n] == original;
    } else {
      RewrittenPrefix(original[..|original| - 1], edits, n);
      assert original[..|original| - 1][..n] == original[..n];
    }
  }

  lemma RewrittenLast(original: seq<string>, edits: Edits)
    requires original != []
    ensures var last := |original| - 1;
      Rewritten(original, edits)
      == Rewritten(original[..last], edits) + (if Deleted(edits, last) then [] else [Current(original, edits, last)])
  {
  }

  lemma {:induction false} Untouched(original: seq<string>, edits: Edits)
    requires forall i | i in edits :: i >= |original|
    ensures Rewritten(original, edits) == original
  {
    if original != [] {
      var last := |original| - 1;
      RewrittenLast(original, edits);
      hide Rewritten;
      Untouched(original[..last], edits);
      assert original == original[..last] + [original[last]];
    }
  }

  /** What the lines from `n` on become depends on the edits from `n` on alone. */
  lemma {:induction false} SameTail(original: seq<string>, edits: Edits, other: Edits, n: nat)
    returns (tail: seq<string>)
    requires n <= |original|
    requires forall k: nat | k >= n :: (k in edits <==> k in other) && (k in edits ==> edits[k] == other[k])
    ensures Rewritten(original, edits) == Rewritten(original[..n], edits) + tail
    ensures Rewritten(original, other) == Rewritten(original[..n], other) + tail
  {
    if n == |original| {
      assert original[..n] == original;
      return [];
    }
    var last := |original| - 1;
    tail := SameTail(original[..last], edits, other, n);
    assert original[..last][..n] == original[..n];
    tail := tail + (if Deleted(edits, last) then [] else [Current(original, edits, last)]);
  }

  /** The lines before all edits are as they were. */
  lemma RewrittenUpTo(original: seq<string>, edits: Edits, i: nat)
    requires i < |original| && forall k | k in edits :: k >= i
    ensures Rewritten(original[..i + 1], edits)
      == original[..i] + (if Deleted(edits, i) then [] else [Current(original, edits, i)])
  {
    Untouched(original[..i], edits);
    assert original[..i + 1][..i] == original[..i];
  }

  /** Editing at or above all earlier edits is editing the rewritten lines in place, unless the line is gone. */
  lemma EditInPlace(original: seq<string>, edits: Edits, i: nat, text: string)
    requires i < |original| && !Deleted(edits, i)
    requires forall k | k in edits :: k >= i
    ensures i < |Rewritten(original, edits)| && Rewritten(original, edits)[i] == Current(original, edits, i)
    ensures Rewritten(original, edits[i := text]) == Changed(Rewritten(original, edits), i, Edit(text))
  {
    hide Rewritten;
    var tail := SameTail(original, edits, edits[i := text], i + 1);
    RewrittenUpTo(original, edits, i);
    RewrittenUpTo(original, edits[i := text], i);
    Middle(original[..i], Current(original, edits, i), tail, text);
    hide Current;
    assert text == "" ==> original[..i] + [] == original[..i];
  }

  lemma Middle(before: seq<string>, x: string, after: seq<string>, y: string)
    ensures var s := before + [x] + after;
      s[..|before|] == before && s[|before|] == x && s[|before| + 1..] == after
        && s[|before| := y] == before + [y] + after
  {
  }

  /** No further rule follows the print rule on the same line. */
  ghost predicate PrintComesLast(order: seq<Target>) {
    forall i, j | 0 <= i < j < |order| && order[i].line == order[j].line :: order[i].rule != DebugPrint
  }

  /**
   * What the induction over the loop keeps: the edits so far are at or below the next line, and deletions strictly
   * below.
   */
  ghost predicate Behind(edits: Edits, order: seq<Target>) {
    forall k, t | k in edits && t in order :: t.line - 1 <= k && (edits[k] == "" ==> t.line - 1 < k)
  }

  lemma BehindStep(tools: Tools, maxLines: int, original: seq<string>, plan: Plan, order: seq<Target>)
    requires order != [] && Sane(tools) && Descending(order) && PrintComesLast(order) && Behind(plan.edits, order)
    ensures Behind(PlanOne(tools, maxLines, original, plan, order[0]).edits, order[1..])
  {
    var t, after := order[0], PlanOne(tools, maxLines, original, plan, order[0]);
    forall k, u | k in after.edits && u in order[1..]
      ensures u.line - 1 <= k && (after.edits[k] == "" ==> u.line - 1 < k)
    {
      var j :| 0 <= j < |order[1..]| && order[1..][j] == u;
      assert order[j + 1] == u && order[0].line >= order[j + 1].line;
      if k == t.line - 1 && after.edits[k] == "" && after != plan {
        assert KeepsText(tools, Current(original, plan.edits, k));
      }
    }
  }

  ghost predicate InRange(original: seq<string>, edits: Edits) {
    forall k | k in edits :: k < |original|
  }

  lemma TurnIsPlanned(tools: Tools, maxLines: int, original: seq<string>, plan: Plan, order: seq<Target>)
    requires order != [] && Behind(plan.edits, order) && InRange(original, plan.edits)
    ensures var after := PlanOne(tools, maxLines, original, plan, order[0]);
      && Turn(tools, maxLines, Progress(Rewritten(original, plan.edits), plan.tally), order[0])
         == Progress(Rewritten(original, after.edits), after.tally)
      && InRange(original, after.edits)
  {
    var i := order[0].line - 1;
    assert order[0] in order;
    if i >= |original| {
      Untouched(original, plan.edits);
    } else if i >= 0 {
      assert !Deleted(plan.edits, i) && forall k | k in plan.edits :: k >= i;
      hide *;
      TurnInRange(tools, maxLines, original, plan, order[0]);
    }
  }

  lemma TurnInRange(tools: Tools, maxLines: int, original: seq<string>, plan: Plan, t: Target)
    requires 1 <= t.line <= |original| && !Deleted(plan.edits, t.line - 1) && InRange(original, plan.edits)
    requires forall k | k in plan.edits :: k >= t.line - 1
    ensures var after := PlanOne(tools, maxLines, original, plan, t);
      && Turn(tools, maxLines, Progress(Rewritten(original, plan.edits), plan.tally), t)
         == Progress(Rewritten(original, after.edits), after.tally)
      && InRange(original, after.edits)
  {
    hide *;
    var i := t.line - 1;
    var d := Decide(tools, Current(original, plan.edits, i), t.rule);
    DecisionInPlace(original, plan.edits, i, d);
    PlanOneDecides(tools, maxLines, original, plan, t);
    TurnDecides(tools, maxLines, Progress(Rewritten(original, plan.edits), plan.tally), t);
    PutInRange(original, plan.edits, i, d);
  }

  lemma PutInRange(original: seq<string>, edits: Edits, i: nat, d: Decision)
    requires i < |original| && InRange(original, edits)
    ensures InRange(original, Put(edits, i, d))
  {
  }

  lemma PlanOneDecides(tools: Tools, maxLines: int, original: seq<string>, plan: Plan, t: Target)
    requires 1 <= t.line <= |original| && !Deleted(plan.edits, t.line - 1)
    ensures var d := Decide(tools, Current(original, plan.edits, t.line - 1), t.rule);
      PlanOne(tools, maxLines, original, plan, t)
        == Plan(Put(plan.edits, t.line - 1, d), Record(tools, maxLines, plan.tally, t, d))
  {
  }

  lemma TurnDecides(tools: Tools, maxLines: int, p: Progress, t: Target)
    requires 1 <= t.line <= |p.lines|
    ensures var d := Decide(tools, p.lines[t.line - 1], t.rule);
      Turn(tools, maxLines, p, t) == Progress(Changed(p.lines, t.line - 1, d), Record(tools, maxLines, p.tally, t, d))
  {
  }

  lemma DecisionInPlace(original: seq<string>, edits: Edits, i: nat, d: Decision)
    requires i < |original| && !Deleted(edits, i) && forall k | k in edits :: k >= i
    ensures i < |Rewritten(original, edits)| && Rewritten(original, edits)[i] == Current(original, edits, i)
    ensures Rewritten(original, Put(edits, i, d)) == Changed(Rewritten(original, edits), i, d)
  {
    EditInPlace(original, edits, i, if d.Edit? then d.text else "");
    hide Rewritten;
  }

  /**
   * While no rule follows the print rule on a line, the bottom-up loop over shifting line numbers is the
   * simultaneous rewrite of the original lines.
   */
  lemma {:induction false} LoopIsRewrite(tools: Tools, maxLines: int, original: seq<string>, plan: Plan,
                                         order: seq<Target>)
    requires Sane(tools) && Descending(order) && PrintComesLast(order) && Behind(plan.edits, order)
    requires InRange(original, plan.edits)
    ensures var done := PlanAll(tools, maxLines, original, plan, order);
      && Turns(tools, maxLines, Progress(Rewritten(original, plan.edits), plan.tally), order)
         == Progress(Rewritten(original, done.edits), done.tally)
      && InRange(original, done.edits)
    decreases |order|
  {
    if order != [] && !plan.tally.stopped {
      BehindStep(tools, maxLines, original, plan, order);
      TurnIsPlanned(tools, maxLines, original, plan, order);
      LoopIsRewrite(tools, maxLines, original, PlanOne(tools, maxLines, original, plan, order[0]), order[1..]);
    }
  }

  function Planned(tools: Tools, maxLines: int, original: seq<string>, order: seq<Target>): Plan {
    PlanAll(tools, maxLines, original, Plan(map[], START), order)
  }

  lemma EditsAreRewrite(tools: Tools, maxLines: int, original: seq<string>, order: seq<Target>)
    requires Sane(tools) && Descending(order) && PrintComesLast(order)
    ensures var plan := Planned(tools, maxLines, original, order);
      Turns(tools, maxLines, Progress(original, START), order) == Progress(Rewritten(original, plan.edits), plan.tally)
  {
    Untouched(original, map[]);
    LoopIsRewrite(tools, maxLines, original, Plan(map[], START), order);
  }

  // ---- What the rewrite leaves alone --------------------------------------------------------

  /** How many of the first `n` lines are deleted. */
  function Gone(edits: Edits, n: nat): nat {
    if n == 0 then 0 else Gone(edits, n - 1) + (if Deleted(edits, n - 1) then 1 else 0)
  }

  lemma {:induction false} GoneAtMost(edits: Edits, n: nat)
    ensures Gone(edits, n) <= n
  {
    if n > 0 {
      GoneAtMost(edits, n - 1);
    }
  }

  /** Every line not deleted is in the result in its place among the remaining ones, verbatim if no rule edited it. */
  lemma {:induction false} RewrittenAt(original: seq<string>, edits: Edits, i: nat)
    requires i < |original|
    ensures |Rewritten(original, edits)| == |original| - Gone(edits, |original|)
    ensures !Deleted(edits, i) ==> Gone(edits, i) <= i < Gone(edits, i) + |Rewritten(original, edits)|
    ensures !Deleted(edits, i)
        ==> Rewritten(original, edits)[i - Gone(edits, i)] == (if i in edits then edits[i] else original[i])
  {
    var last := |original| - 1;
    GoneAtMost(edits, i);
    if i < last {
      RewrittenAt(original[..last], edits, i);
    } else if last > 0 {
      RewrittenAt(original[..last], edits, last - 1);
    }
  }

  // ---- The whole repair -----------------------------------------------------------------

  ghost predicate Confirmed(order: seq<Target>, i: nat) {
    exists t :: t in order && t.line == i + 1
  }

  ghost predicate OnlyConfirmed(edits: Edits, order: seq<Target>) {
    forall i | i in edits :: Confirmed(order, i)
  }

  /** Only confirmed lines are edited, at most `maxLines + 1` of them. */
  lemma {:induction false} PlanIsBounded(tools: Tools, maxLines: int, original: seq<string>, plan: Plan,
                                         all: seq<Target>, order: seq<Target>)
    requires forall t | t in order :: t in all
    requires OnlyConfirmed(plan.edits, all)
    requires |plan.edits| <= plan.tally.edits <= Max(maxLines, 0) + 1
    requires plan.tally.edits > Max(maxLines, 0) ==> plan.tally.stopped
    ensures var done := PlanAll(tools, maxLines, original, plan, order);
      OnlyConfirmed(done.edits, all) && |done.edits| <= done.tally.edits <= Max(maxLines, 0) + 1
    decreases |order|
  {
    if order != [] && !plan.tally.stopped {
      var next := PlanOne(tools, maxLines, original, plan, order[0]);
      var i := order[0].line - 1;
      assert order[0] in all;
      if i >= 0 {
        assert Confirmed(all, i);
        PutSize(plan.edits, i,
          Decide(tools, if i < |original| then Current(original, plan.edits, i) else "", order[0].rule));
      }
      PlanIsBounded(tools, maxLines, original, next, all, order[1..]);
    }
  }

  lemma PutSize(edits: Edits, i: nat, d: Decision)
    ensures |Put(edits, i, d)| <= |edits| + 1
  {
    assert d.Edit? ==> edits[i := d.text].Keys == edits.Keys + {i};
  }

  datatype Repair = Repair(lines: seq<string>, rules: set<Rule>, rejected: Option<Rejection>)

  /** The lines with the import that a repaired secret needs. */
  function WithImport(tools: Tools, p: Progress): seq<string> {
    if p.tally.needsOs && !(exists line | line in p.lines :: tools.importsOs(line)) then ["import os"] + p.lines
      else p.lines
  }

  function RuleSet(changed: seq<Rule>): set<Rule> {
    set r | r in changed
  }

  lemma RulesReported(changed: seq<Rule>, rule: Rule)
    ensures rule in RuleSet(changed) <==> exists k :: 0 <= k < |changed| && changed[k] == rule
  {
  }

  /** `confirmed` is None when the file does not parse. */
  method Apply(tools: Tools, maxLines: int, original: seq<string>, confirmed: Option<seq<Target>>) returns (r: Repair)
    ensures confirmed.None? ==> r == Repair(original, {}, Some(DoesNotParse))
    ensures confirmed == Some([]) ==> r == Repair(original, {}, None)
    ensures confirmed.Some? && confirmed.value != [] ==>
      var p := Turns(tools, maxLines, Progress(original, START), confirmed.value);
      r == if tools.compiles(WithImport(tools, p)) then Repair(WithImport(tools, p), RuleSet(p.tally.changed),
        p.tally.rejected)
           else Repair(original, {}, Some(DoesNotCompile))
  {
    if confirmed.None? {
      return Repair(original, {}, Some(DoesNotParse));
    }
    if confirmed.value == [] {
      return Repair(original, {}, None);
    }
    var p := EditLines(tools, maxLines, original, confirmed.value);
    var repaired := WithImport(tools, p);
    if !tools.compiles(repaired) {
      return Repair(original, {}, Some(DoesNotCompile));
    }
    return Repair(repaired, RuleSet(p.tally.changed), p.tally.rejected);
  }

  /** The text of an edit is a repair that its rule's pattern no longer matches. */
  ghost predicate Repaired(tools: Tools, rule: Rule, text: string) {
    !tools.matches(rule, text) && exists line :: line != text && RepairLine(tools, line, rule) == Some(text)
  }

  /** Every edit is such a repair by a target of its line, and the import is asked for by edits that mention it. */
  ghost predicate Grounded(tools: Tools, plan: Plan, all: seq<Target>) {
    && (forall i | i in plan.edits :: exists t :: t in all && t.line == i + 1 && Repaired(tools, t.rule, plan.edits[i]))
    && (forall i | i in plan.edits :: tools.mentionsEnviron(plan.edits[i]) ==> plan.tally.needsOs)
    && (plan.tally.needsOs ==>
          exists t, text :: t in all && Repaired(tools, t.rule, text) && tools.mentionsEnviron(text))
    && (forall r | r in plan.tally.changed :: exists t :: t in all && t.rule == r)
  }

  lemma GroundedNext(tools: Tools, maxLines: int, original: seq<string>, plan: Plan, all: seq<Target>, t: Target)
    requires Grounded(tools, plan, all) && t in all
    ensures Grounded(tools, PlanOne(tools, maxLines, original, plan, t), all)
  {
    var i := t.line - 1;
    if 0 <= i < |original| && !Deleted(plan.edits, i) {
      var d := Decide(tools, Current(original, plan.edits, i), t.rule);
      if d.Edit? {
        assert RepairLine(tools, Current(original, plan.edits, i), t.rule) == Some(d.text);
        assert Repaired(tools, t.rule, d.text);
        hide Repaired, Decide;
        var after := PlanOne(tools, maxLines, original, plan, t);
        assert after.edits == plan.edits[i := d.text] && after.tally.changed == plan.tally.changed + [t.rule];
        assert tools.mentionsEnviron(d.text) ==>
          exists u, text :: u in all && Repaired(tools, u.rule, text) && tools.mentionsEnviron(text);
      }
    }
  }

  lemma {:induction false} PlanGrounded(tools: Tools, maxLines: int, original: seq<string>, plan: Plan,
                                        all: seq<Target>, order: seq<Target>)
    requires Grounded(tools, plan, all) && forall t | t in order :: t in all
    ensures Grounded(tools, PlanAll(tools, maxLines, original, plan, order), all)
    decreases |order|
  {
    hide Grounded, PlanOne;
    if order != [] && !plan.tally.stopped {
      assert order[0] in all;
      GroundedNext(tools, maxLines, original, plan, all, order[0]);
      PlanGrounded(tools, maxLines, original, PlanOne(tools, maxLines, original, plan, order[0]), all, order[1..]);
    }
  }

  lemma NothingPlanned(tools: Tools, all: seq<Target>)
    ensures Grounded(tools, Plan(map[], START), all)
  {
  }

  /**
   * What a repair leaves of a file: the simultaneous rewrite of the original lines by at most
   * `maxLines + 1` edits, each a repair of a confirmed line that its rule no longer matches; in
   * front of it the import exactly if an edit made asked for it and no line left has it.
   */
  lemma RepairIsRewrite(tools: Tools, maxLines: int, original: seq<string>, order: seq<Target>)
    requires Sane(tools) && Descending(order) && PrintComesLast(order)
    ensures var plan := Planned(tools, maxLines, original, order);
      var lines := Rewritten(original, plan.edits);
      var p := Turns(tools, maxLines, Progress(original, START), order);
      && OnlyConfirmed(plan.edits, order) && |plan.edits| <= Max(maxLines, 0) + 1 && Grounded(tools, plan, order)
      && (if plan.tally.needsOs && forall line | line in lines :: !tools.importsOs(line)
          then WithImport(tools, p) == ["import os"] + lines
          else WithImport(tools, p) == lines)
  {
    EditsAreRewrite(tools, maxLines, original, order);
    PlanIsBounded(tools, maxLines, original, Plan(map[], START), order, order);
    NothingPlanned(tools, order);
    PlanGrounded(tools, maxLines, original, Plan(map[], START), order, order);
    hide Grounded, Rewritten, OnlyConfirmed, Sane, Descending, PrintComesLast, Turns;
  }

  // ---- How many edits -----------------------------------------------------------------------

  /** A tally after at most `n` targets, stopped exactly when it went over. */
  ghost predicate Counted(maxLines: int, tally: Tally, n: nat) {
    && tally.edits <= n && tally.edits <= Max(maxLines, 0) + 1
    && (tally.stopped <==> tally.edits == Max(maxLines, 0) + 1)
    && (tally.stopped <==> tally.rejected == Some(TooManyLines))
  }

  lemma {:induction false} TurnsCounted(tools: Tools, maxLines: int, p: Progress, order: seq<Target>, n: nat)
    requires Counted(maxLines, p.tally, n)
    ensures Counted(maxLines, Turns(tools, maxLines, p, order).tally, n + |order|)
    decreases |order|
  {
    if order != [] && !p.tally.stopped {
      hide Decide;
      TurnsCounted(tools, maxLines, Turn(tools, maxLines, p, order[0]), order[1..], n + 1);
    }
  }

  lemma {:induction false} EditsGrow(tools: Tools, maxLines: int, p: Progress, order: seq<Target>)
    ensures Turns(tools, maxLines, p, order).tally.edits >= p.tally.edits
    decreases |order|
  {
    if order != [] && !p.tally.stopped {
      hide Decide;
      EditsGrow(tools, maxLines, Turn(tools, maxLines, p, order[0]), order[1..]);
    }
  }

  /** One turn under two limits, the second of which it does not reach. */
  lemma TurnUnlimited(tools: Tools, maxLines: int, ample: nat, p: Progress, t: Target)
    requires !p.tally.stopped && p.tally.edits <= maxLines && p.tally.edits < ample
    ensures var q, r := Turn(tools, maxLines, p, t), Turn(tools, ample, p, t);
      && q.tally.edits == r.tally.edits && !r.tally.stopped
      && (q.tally.stopped <==> q.tally.edits == maxLines + 1)
      && (!q.tally.stopped ==> q == r && q.tally.edits <= maxLines)
      && r.tally.edits <= p.tally.edits + 1
  {
    hide Decide;
  }

  /** The limit cuts the edits of the unlimited loop one above itself. */
  lemma {:induction false} EditsCut(tools: Tools, maxLines: nat, ample: nat, p: Progress, order: seq<Target>)
    requires !p.tally.stopped && p.tally.edits <= maxLines && p.tally.edits + |order| <= ample
    ensures var all := Turns(tools, ample, p, order).tally.edits;
      Turns(tools, maxLines, p, order).tally.edits == if all <= maxLines then all else maxLines + 1
    decreases |order|
  {
    if order != [] {
      TurnUnlimited(tools, maxLines, ample, p, order[0]);
      hide Turn;
      var q, r := Turn(tools, maxLines, p, order[0]), Turn(tools, ample, p, order[0]);
      if q.tally.stopped {
        EditsGrow(tools, ample, r, order[1..]);
      } else {
        EditsCut(tools, maxLines, ample, q, order[1..]);
      }
    }
  }

  /**
   * The loop makes one edit more than its limit exactly when without a limit it would make more than the limit, which
   * takes more targets than the limit, and exactly then it ends with the too-many-lines rejection.
   */
  lemma OneEditMore(tools: Tools, maxLines: nat, original: seq<string>, order: seq<Target>)
    ensures var start := Progress(original, START);
      var tally, all := Turns(tools, maxLines, start, order).tally, Turns(tools, |order|, start, order).tally.edits;
      && tally.edits == (if all <= maxLines then all else maxLines + 1) && all <= |order|
      && (tally.edits == maxLines + 1 <==> all > maxLines)
      && (tally.edits == maxLines + 1 <==> tally.rejected == Some(TooManyLines))
  {
    var start := Progress(original, START);
    TurnsCounted(tools, maxLines, start, order, 0);
    TurnsCounted(tools, |order|, start, order, 0);
    EditsCut(tools, maxLines, |order|, start, order);
    hide Turns;
  }

  // ---- Exactly when the loop is the rewrite ----------------------------------------------------

  /** One file being repaired: the loop over the first targets, and what is planned for them. */
  datatype Repairing = Repairing(tools: Tools, maxLines: int, original: seq<string>) {
    function Loop(order: seq<Target>): Progress {
      Turns(tools, maxLines, Progress(original, START), order)
    }

    function PlanFor(order: seq<Target>): Plan {
      Planned(tools, maxLines, original, order)
    }

    function Ideal(order: seq<Target>): seq<string> {
      Rewritten(original, PlanFor(order).edits)
    }
  }

  lemma {:induction false} TurnsLast(tools: Tools, maxLines: int, p: Progress, order: seq<Target>, t: Target)
    ensures var q := Turns(tools, maxLines, p, order);
      Turns(tools, maxLines, p, order + [t]) == if q.tally.stopped then q else Turn(tools, maxLines, q, t)
    decreases |order|
  {
    hide Turn;
    if order == [] || p.tally.stopped {
      assert order == [] ==> (order + [t])[1..] == [];
    } else {
      assert (order + [t])[1..] == order[1..] + [t];
      TurnsLast(tools, maxLines, Turn(tools, maxLines, p, order[0]), order[1..], t);
    }
  }

  lemma {:induction false} PlanLast(tools: Tools, maxLines: int, original: seq<string>, plan: Plan, order: seq<Target>,
                                    t: Target)
    ensures var q := PlanAll(tools, maxLines, original, plan, order);
      PlanAll(tools, maxLines, original, plan, order + [t]) == if q.tally.stopped then q
        else PlanOne(tools, maxLines, original, q, t)
    decreases |order|
  {
    hide PlanOne;
    if order == [] || plan.tally.stopped {
      assert order == [] ==> (order + [t])[1..] == [];
    } else {
      assert (order + [t])[1..] == order[1..] + [t];
      PlanLast(tools, maxLines, original, PlanOne(tools, maxLines, original, plan, order[0]), order[1..], t);
    }
  }

  lemma {:induction false} PlanInRange(tools: Tools, maxLines: int, original: seq<string>, plan: Plan,
                                       order: seq<Target>)
    requires InRange(original, plan.edits)
    ensures InRange(original, PlanAll(tools, maxLines, original, plan, order).edits)
    decreases |order|
  {
    if order != [] && !plan.tally.stopped {
      hide Decide, Record;
      PlanInRange(tools, maxLines, original, PlanOne(tools, maxLines, original, plan, order[0]), order[1..]);
    }
  }

  /** The edits planned so far are at or below the next target's line. */
  lemma PlannedBelow(w: Repairing, order: seq<Target>, t: Target)
    requires Descending(order + [t])
    ensures InRange(w.original, w.PlanFor(order).edits) && forall k | k in w.PlanFor(order).edits :: k >= t.line - 1
  {
    PlanInRange(w.tools, w.maxLines, w.original, Plan(map[], START), order);
    PlanIsBounded(w.tools, w.maxLines, w.original, Plan(map[], START), order, order);
    hide *;
    BelowAll(w.PlanFor(order).edits, order, t);
  }

  lemma BelowAll(edits: Edits, order: seq<Target>, t: Target)
    requires Descending(order + [t]) && OnlyConfirmed(edits, order)
    ensures forall k | k in edits :: k >= t.line - 1
  {
    var all := order + [t];
    forall k | k in edits
      ensures k >= t.line - 1
    {
      assert Confirmed(order, k);
      var u :| u in order && u.line == k + 1;
      var j :| 0 <= j < |order| && order[j] == u;
      assert all[j] == u && all[|order|] == t;
    }
  }

  /** The same edits counted, whatever was rejected on the way. */
  predicate SameTally(a: Tally, b: Tally) {
    a.changed == b.changed && a.needsOs == b.needsOs && a.edits == b.edits && a.stopped == b.stopped
  }

  /** The loop is where the plan is. */
  ghost predicate Together(w: Repairing, order: seq<Target>) {
    w.Loop(order).lines == w.Ideal(order) && SameTally(w.Loop(order).tally, w.PlanFor(order).tally)
  }

  /**
   * After the first targets the next one is for a deleted line, and what has moved up into its place is a line its rule
   * edits.
   */
  ghost predicate Misdirected(w: Repairing, order: seq<Target>, t: Target) {
    var plan, lines, i := w.PlanFor(order), w.Ideal(order), t.line - 1;
    && !plan.tally.stopped && 0 <= i < |lines| && Deleted(plan.edits, i)
    && Decide(w.tools, lines[i], t.rule).Edit?
  }

  lemma RecordSame(tools: Tools, maxLines: int, a: Tally, b: Tally, t: Target, d: Decision)
    requires SameTally(a, b)
    ensures SameTally(Record(tools, maxLines, a, t, d), Record(tools, maxLines, b, t, d))
    ensures !d.Edit? ==> SameTally(Record(tools, maxLines, a, t, d), b)
  {
  }

  lemma EditShows(tools: Tools, lines: seq<string>, i: nat, rule: Rule)
    requires i < |lines|
    ensures var d := Decide(tools, lines[i], rule);
      Changed(lines, i, d) == lines <==> !d.Edit?
  {
    var d := Decide(tools, lines[i], rule);
    if d.Edit? {
      assert d.text != lines[i];
      assert d.text == "" ==> |Changed(lines, i, d)| < |lines|;
      assert d.text != "" ==> Changed(lines, i, d)[i] == d.text;
    }
  }

  /** A turn for a line that is still there, or for none. */
  lemma TurnOnPlan(w: Repairing, plan: Plan, tally: Tally, t: Target)
    requires InRange(w.original, plan.edits) && (forall k | k in plan.edits :: k >= t.line - 1)
    requires t.line >= 1 ==> !Deleted(plan.edits, t.line - 1)
    requires SameTally(tally, plan.tally)
    ensures var after := PlanOne(w.tools, w.maxLines, w.original, plan, t);
      var q := Turn(w.tools, w.maxLines, Progress(Rewritten(w.original, plan.edits), tally), t);
      q.lines == Rewritten(w.original, after.edits) && SameTally(q.tally, after.tally)
  {
    hide Rewritten, Record, Decide, Changed, SameTally, Deleted;
    var i := t.line - 1;
    if i >= |w.original| {
      Untouched(w.original, plan.edits);
    } else if i >= 0 {
      hide InRange;
      var d := Decide(w.tools, Current(w.original, plan.edits, i), t.rule);
      DecisionInPlace(w.original, plan.edits, i, d);
      PlanOneDecides(w.tools, w.maxLines, w.original, plan, t);
      TurnDecides(w.tools, w.maxLines, Progress(Rewritten(w.original, plan.edits), tally), t);
      RecordSame(w.tools, w.maxLines, tally, plan.tally, t, d);
      hide *;
    }
  }

  /** A turn for a deleted line works on what has moved up. */
  lemma TurnOnDeleted(w: Repairing, plan: Plan, tally: Tally, t: Target)
    requires t.line >= 1 && Deleted(plan.edits, t.line - 1) && SameTally(tally, plan.tally)
    ensures PlanOne(w.tools, w.maxLines, w.original, plan, t) == plan
    ensures var lines, i := Rewritten(w.original, plan.edits), t.line - 1;
      var q := Turn(w.tools, w.maxLines, Progress(lines, tally), t);
      && (i < |lines| ==> q.lines == Changed(lines, i, Decide(w.tools, lines[i], t.rule)))
      && (q.lines == lines <==> !(i < |lines| && Decide(w.tools, lines[i], t.rule).Edit?))
      && (q.lines == lines ==> SameTally(q.tally, plan.tally))
  {
    hide Rewritten, Record, Decide, SameTally;
    var lines, i := Rewritten(w.original, plan.edits), t.line - 1;
    if i < |lines| {
      EditShows(w.tools, lines, i, t.rule);
      RecordSame(w.tools, w.maxLines, tally, plan.tally, t, Decide(w.tools, lines[i], t.rule));
      hide Changed;
    }
  }

  /** From where the plan is, the loop stays with it for one more target exactly when that is not misdirected. */
  lemma TogetherStep(w: Repairing, order: seq<Target>, t: Target)
    requires Descending(order + [t]) && Together(w, order)
    ensures w.Loop(order + [t]).lines == w.Ideal(order + [t]) <==> !Misdirected(w, order, t)
    ensures !Misdirected(w, order, t) ==> Together(w, order + [t])
  {
    var plan, p := w.PlanFor(order), w.Loop(order);
    TurnsLast(w.tools, w.maxLines, Progress(w.original, START), order, t);
    PlanLast(w.tools, w.maxLines, w.original, Plan(map[], START), order, t);
    PlannedBelow(w, order, t);
    hide Turn, PlanOne, Rewritten, Turns, PlanAll, Changed, Decide, Descending, InRange;
    assert p == Progress(w.Ideal(order), p.tally);
    if !plan.tally.stopped {
      if t.line >= 1 && Deleted(plan.edits, t.line - 1) {
        TurnOnDeleted(w, plan, p.tally, t);
      } else {
        TurnOnPlan(w, plan, p.tally, t);
      }
    }
  }

  /** After every target the lines are the simultaneous rewrite by the edits planned so far. */
  ghost predicate InStep(w: Repairing, order: seq<Target>) {
    forall n: nat | n <= |order| :: w.Loop(order[..n]).lines == w.Ideal(order[..n])
  }

  ghost predicate NoneMisdirected(w: Repairing, order: seq<Target>) {
    forall n: nat | n < |order| :: !Misdirected(w, order[..n], order[n])
  }

  lemma PrefixesOneMore(w: Repairing, order: seq<Target>, t: Target)
    ensures InStep(w, order + [t]) <==> InStep(w, order) && w.Loop(order + [t]).lines == w.Ideal(order + [t])
    ensures NoneMisdirected(w, order + [t]) <==> NoneMisdirected(w, order) && !Misdirected(w, order, t)
  {
    hide Repairing.Loop, Repairing.Ideal, Misdirected;
    var all := order + [t];
    assert forall n: nat | n <= |order| :: all[..n] == order[..n];
    assert all[..|all|] == all && all[..|order|] == order && all[|order|] == t;
    assert forall n: nat | n < |order| :: all[n] == order[n];
  }

  lemma DescendingFront(order: seq<Target>, t: Target)
    requires Descending(order + [t])
    ensures Descending(order)
  {
    assert forall i | 0 <= i < |order| :: (order + [t])[i] == order[i];
  }

  lemma StartTogether(w: Repairing)
    ensures Together(w, []) && InStep(w, []) && NoneMisdirected(w, [])
  {
    Untouched(w.original, map[]);
    var none: seq<Target> := [];
    assert forall n: nat | n <= |none| :: none[..n] == [];
  }

  /**
   * For any targets in descending order, any rules and any file: the bottom-up loop is the simultaneous rewrite after
   * every target exactly when no target for a deleted line finds something to edit in what has moved up.
   */
  lemma {:induction false} LoopExactly(w: Repairing, order: seq<Target>)
    requires Descending(order)
    ensures InStep(w, order) <==> NoneMisdirected(w, order)
    ensures NoneMisdirected(w, order) ==> Together(w, order)
    decreases |order|
  {
    if order == [] {
      StartTogether(w);
    } else {
      var front, t := order[..|order| - 1], order[|order| - 1];
      assert order == front + [t];
      hide *;
      DescendingFront(front, t);
      LoopExactly(w, front);
      PrefixesOneMore(w, front, t);
      if NoneMisdirected(w, front) {
        TogetherStep(w, front, t);
      }
    }
  }

  // ---- Which targets are safe for every file ---------------------------------------------------

  lemma {:induction false} RewrittenNonempty(original: seq<string>, edits: Edits)
    requires forall line | line in original :: line != ""
    ensures forall line | line in Rewritten(original, edits) :: line != ""
  {
    if original != [] {
      var last := |original| - 1;
      assert original[last] in original && forall line | line in original[..last] :: line in original;
      RewrittenNonempty(original[..last], edits);
    }
  }

  lemma {:induction false} GoneBounded(edits: Edits, n: nat)
    ensures Gone(edits, n) <= |edits|
  {
    var keys := set k | k in edits && k < n;
    GoneKeys(edits, n, keys);
    KeysFit(edits, keys);
  }

  lemma {:induction false} GoneKeys(edits: Edits, n: nat, keys: set<nat>)
    requires keys == set k | k in edits && k < n
    ensures Gone(edits, n) <= |keys|
  {
    if n > 0 {
      var fewer := set k | k in edits && k < n - 1;
      GoneKeys(edits, n - 1, fewer);
      assert keys == if n - 1 in edits then fewer + {n - 1} else fewer;
    }
  }

  lemma KeysFit(edits: Edits, keys: set<nat>)
    requires keys <= edits.Keys
    ensures |keys| <= |edits|
  {
    assert edits.Keys == keys + (edits.Keys - keys);
  }

  /** Rules that edit every line they see. */
  function Eager(): Tools {
    Tools(line => line + "z", line => Some(line + "z"), (rule, line) => false, line => false, line => true,
      lines => true)
  }

  lemma EagerEdits(line: string, rule: Rule)
    requires line != ""
    ensures Sane(Eager()) && Decide(Eager(), line, rule).Edit?
    ensures Decide(Eager(), line, DebugPrint) == Edit("")
  {
    assert |line + "z"| > |line|;
    assert forall l: string | l != "" :: KeepsText(Eager(), l);
  }

  lemma LastPrintDeletes(w: Repairing, order: seq<Target>, t: Target)
    requires w.tools == Eager() && t.rule == DebugPrint && 1 <= t.line <= |w.original|
    requires forall line | line in w.original :: line != ""
    requires !w.PlanFor(order).tally.stopped
    ensures Deleted(w.PlanFor(order + [t]).edits, t.line - 1)
  {
    PlanLast(w.tools, w.maxLines, w.original, Plan(map[], START), order, t);
    hide PlanAll, Eager;
    var plan, i := w.PlanFor(order), t.line - 1;
    if !Deleted(plan.edits, i) {
      assert w.original[i] in w.original;
      EagerEdits(Current(w.original, plan.edits, i), t.rule);
    }
  }

  lemma {:induction false} PlanCounted(tools: Tools, maxLines: int, original: seq<string>, plan: Plan,
                                       order: seq<Target>, n: nat)
    requires Counted(maxLines, plan.tally, n)
    ensures Counted(maxLines, PlanAll(tools, maxLines, original, plan, order).tally, n + |order|)
    decreases |order|
  {
    if order != [] && !plan.tally.stopped {
      hide Decide;
      PlanCounted(tools, maxLines, original, PlanOne(tools, maxLines, original, plan, order[0]), order[1..], n + 1);
    }
  }

  /** A file of that many short lines, with room for every edit. */
  function Roomy(count: nat, n: nat): Repairing {
    Repairing(Eager(), count, seq(n, _ => "x"))
  }

  lemma NeverStopped(count: nat, n: nat, order: seq<Target>)
    requires |order| <= count
    ensures !Roomy(count, n).PlanFor(order).tally.stopped
    ensures |Roomy(count, n).PlanFor(order).edits| <= |order|
  {
    var w := Roomy(count, n);
    PlanCounted(w.tools, w.maxLines, w.original, Plan(map[], START), order, 0);
    PlanIsBounded(w.tools, w.maxLines, w.original, Plan(map[], START), order, order);
    hide PlanAll;
  }

  /** With more lines than edits, some line of the plan's rewrite stands where a deleted one stood. */
  lemma SomethingMovedUp(w: Repairing, edits: Edits, i: nat)
    requires i + |edits| < |w.original|
    requires forall line | line in w.original :: line != ""
    ensures i < |Rewritten(w.original, edits)| && Rewritten(w.original, edits)[i] != ""
  {
    hide Rewritten;
    RewrittenAt(w.original, edits, i);
    GoneBounded(edits, |w.original|);
    RewrittenNonempty(w.original, edits);
    assert Rewritten(w.original, edits)[i] in Rewritten(w.original, edits);
  }

  /** A print rule followed by another rule on its line is misdirected in some file, for any targets before. */
  lemma PrintMisdirects(order: seq<Target>, t: Target, rule: Rule) returns (w: Repairing)
    requires t.rule == DebugPrint && t.line >= 1
    ensures Sane(w.tools) && Misdirected(w, order + [t], Target(t.line, rule))
  {
    var all, i := order + [t], t.line - 1;
    w := Roomy(|all|, |all| + t.line as nat);
    hide PlanAll, Planned, Rewritten, Sane, Decide, Eager;
    NeverStopped(|all|, |w.original|, order);
    NeverStopped(|all|, |w.original|, all);
    LastPrintDeletes(w, order, t);
    SomethingMovedUp(w, w.PlanFor(all).edits, i);
    EagerEdits(w.Ideal(all)[i], rule);
  }

  /** Every prefix of the targets leaves the lines as planned, in every file and under every sane set of rules. */
  ghost predicate AlwaysInStep(order: seq<Target>) {
    forall w: Repairing | Sane(w.tools) :: InStep(w, order)
  }

  lemma PrefixComesLast(order: seq<Target>, n: nat)
    requires Descending(order) && PrintComesLast(order) && n <= |order|
    ensures Descending(order[..n]) && PrintComesLast(order[..n])
  {
  }

  lemma SomethingFollowsPrint(order: seq<Target>) returns (n: nat)
    requires Descending(order) && !PrintComesLast(order)
    ensures n + 1 < |order| && order[n].rule == DebugPrint && order[n + 1].line == order[n].line
  {
    var i, j :| 0 <= i < j < |order| && order[i].line == order[j].line && order[i].rule == DebugPrint;
    assert order[i].line >= order[i + 1].line && (i + 1 == j || order[i + 1].line >= order[j].line);
    n := i;
  }

  /** The targets are safe for every file exactly when no rule follows the print rule on its line. */
  lemma SafeExactly(order: seq<Target>)
    requires Descending(order) && forall t | t in order :: t.line >= 1
    ensures AlwaysInStep(order) <==> PrintComesLast(order)
  {
    hide Sane, Turns, PlanAll, Rewritten, Misdirected;
    if PrintComesLast(order) {
      forall w: Repairing, n: nat | Sane(w.tools) && n <= |order|
        ensures w.Loop(order[..n]).lines == w.Ideal(order[..n])
      {
        PrefixComesLast(order, n);
        EditsAreRewrite(w.tools, w.maxLines, w.original, order[..n]);
      }
    } else {
      var n := SomethingFollowsPrint(order);
      assert order[n] in order && order[..n + 1] == order[..n] + [order[n]];
      var w := PrintMisdirects(order[..n], order[n], order[n + 1].rule);
      assert Target(order[n].line, order[n + 1].rule) == order[n + 1];
      LoopExactly(w, order);
    }
  }

  /** The targets are listed once each, from the bottom up; rules on one line come in any order. */
  ghost predicate Arranges(order: seq<Target>, confirmed: set<Target>) {
    Descending(order) && (forall t :: t in order <==> t in confirmed) && Listed(order)
  }

  /** A print rule has its line to itself. */
  ghost predicate PrintsAlone(confirmed: set<Target>) {
    forall a, b | a in confirmed && b in confirmed && a.line == b.line && a.rule == DebugPrint :: a == b
  }

  function Inserted(order: seq<Target>, t: Target, k: nat): (r: seq<Target>)
    requires k <= |order|
    ensures |r| == |order| + 1
    ensures forall i | 0 <= i < |r| :: r[i] == if i < k then order[i] else if i == k then t else order[i - 1]
  {
    order[..k] + [t] + order[k..]
  }

  ghost predicate Listed(order: seq<Target>) {
    forall i, j | 0 <= i < j < |order| :: order[i] != order[j]
  }

  lemma InsertedListed(order: seq<Target>, t: Target, k: nat)
    requires k <= |order| && Listed(order) && t !in order
    ensures Listed(Inserted(order, t, k))
  {
    var more := Inserted(order, t, k);
    hide Inserted;
    forall i, j | 0 <= i < j < |more|
      ensures more[i] != more[j]
    {
      var a, b := if i < k then i else i - 1, if j < k then j else j - 1;
      assert i != k ==> more[i] == order[a] && more[i] in order;
      assert j != k ==> more[j] == order[b] && more[j] in order;
    }
  }

  lemma InsertedDescending(order: seq<Target>, t: Target, k: nat)
    requires k <= |order| && Descending(order) && forall i | 0 <= i < k :: order[i].line > t.line
    requires k < |order| ==> order[k].line <= t.line
    ensures Descending(Inserted(order, t, k))
  {
    var more := Inserted(order, t, k);
    hide Inserted;
    forall i, j | 0 <= i < j < |more|
      ensures more[i].line >= more[j].line
    {
      assert k < j ==> order[k].line >= order[j - 1].line;
    }
  }

  lemma InsertedHolds(order: seq<Target>, t: Target, k: nat)
    requires k <= |order|
    ensures forall u :: u in Inserted(order, t, k) <==> u in order || u == t
  {
    assert order == order[..k] + order[k..];
  }

  lemma InsertedBefore(order: seq<Target>, t: Target, k: nat)
    requires k <= |order| && forall i | 0 <= i < k :: order[i].line > t.line
    ensures forall u | u in order && u.line == t.line :: exists j :: k < j <= |order| && Inserted(order, t, k)[j] == u
  {
    var more := Inserted(order, t, k);
    hide Inserted;
    forall u | u in order && u.line == t.line
      ensures exists j :: k < j < |more| && more[j] == u
    {
      var i :| 0 <= i < |order| && order[i] == u;
      assert more[i + 1] == u;
    }
  }

  /** The place in front of the targets of a line. */
  lemma FrontPlace(order: seq<Target>, t: Target) returns (k: nat)
    ensures k <= |order| && forall i | 0 <= i < k :: order[i].line > t.line
    ensures k < |order| ==> order[k].line <= t.line
  {
    k := 0;
    while k < |order| && order[k].line > t.line
      invariant k <= |order| && forall i | 0 <= i < k :: order[i].line > t.line
    {
      k := k + 1;
    }
  }

  /** Puts a target in front of those of its line. */
  lemma PutInFront(order: seq<Target>, t: Target) returns (more: seq<Target>, k: nat)
    requires Descending(order) && t !in order && Listed(order)
    ensures Arranges(more, (set u | u in order) + {t}) && k < |more| && more[k] == t
    ensures forall u | u in order && u.line == t.line :: exists j :: k < j < |more| && more[j] == u
  {
    k := FrontPlace(order, t);
    more := Inserted(order, t, k);
    hide Inserted, Listed, Descending;
    InsertedListed(order, t, k);
    InsertedDescending(order, t, k);
    InsertedHolds(order, t, k);
    InsertedBefore(order, t, k);
  }

  lemma {:induction false} ArrangementExists(confirmed: set<Target>) returns (order: seq<Target>)
    ensures Arranges(order, confirmed)
  {
    order := [];
    if confirmed != {} {
      var t :| t in confirmed;
      var fewer := ArrangementExists(confirmed - {t});
      var k;
      order, k := PutInFront(fewer, t);
      assert (set u | u in fewer) + {t} == confirmed;
    }
  }

  /**
   * The confirmed targets are safe for every file in every order of the rules on a line exactly when prints are alone.
   */
  lemma SafeInEveryOrder(confirmed: set<Target>)
    requires forall t | t in confirmed :: t.line >= 1
    ensures (forall order | Arranges(order, confirmed) :: AlwaysInStep(order)) <==> PrintsAlone(confirmed)
  {
    hide AlwaysInStep;
    if PrintsAlone(confirmed) {
      forall order | Arranges(order, confirmed)
        ensures AlwaysInStep(order)
      {
        assert PrintComesLast(order) by {
          assert forall i | 0 <= i < |order| :: order[i] in confirmed;
        }
        SafeExactly(order);
      }
    } else {
      var a, b :| a in confirmed && b in confirmed && a.line == b.line && a.rule == DebugPrint && a != b;
      var fewer := ArrangementExists(confirmed - {a});
      var order, k := PutInFront(fewer, a);
      assert (set u | u in fewer) + {a} == confirmed;
      assert b in fewer;
      var j :| k < j < |order| && order[j] == b;
      assert !PrintComesLast(order);
      SafeExactly(order);
    }
  }

  /** What the misdirected rule edits is the next line that is left, whether or not it was confirmed. */
  lemma SecondRuleHitsNextLine(w: Repairing, order: seq<Target>, t: Target) returns (m: nat)
    requires Descending(order + [t]) && Together(w, order) && !w.PlanFor(order).tally.stopped
    requires 1 <= t.line <= |w.Ideal(order)| && Deleted(w.PlanFor(order).edits, t.line - 1)
    ensures t.line - 1 < m < |w.original| && !Deleted(w.PlanFor(order).edits, m)
    ensures forall k | t.line - 1 <= k < m :: Deleted(w.PlanFor(order).edits, k)
    ensures w.Ideal(order)[t.line - 1] == Current(w.original, w.PlanFor(order).edits, m)
    ensures w.Loop(order + [t]).lines
      == Changed(w.Ideal(order), t.line - 1, Decide(w.tools, Current(w.original, w.PlanFor(order).edits, m), t.rule))
  {
    var plan, i := w.PlanFor(order), t.line - 1;
    TurnsLast(w.tools, w.maxLines, Progress(w.original, START), order, t);
    PlannedBelow(w, order, t);
    hide Turns, PlanAll, Descending, Turn, Rewritten, Changed, Decide;
    TurnOnDeleted(w, plan, w.Loop(order).tally, t);
    m := NextLeft(w.original, plan.edits, i);
  }

  lemma NextLeft(original: seq<string>, edits: Edits, i: nat) returns (m: nat)
    requires (forall k | k in edits :: k >= i) && InRange(original, edits) && Deleted(edits, i)
    requires i < |Rewritten(original, edits)|
    ensures i < m < |original| && !Deleted(edits, m) && (forall k | i <= k < m :: Deleted(edits, k))
    ensures Rewritten(original, edits)[i] == Current(original, edits, m)
  {
    NoneGone(edits, i);
    m := i;
    while m < |original| && Deleted(edits, m)
      invariant i <= m <= |original| && Gone(edits, m) == m - i
      invariant forall k | i <= k < m :: Deleted(edits, k)
      decreases |original| - m
    {
      m := m + 1;
    }
    RewrittenAt(original, edits, if m < |original| then m else i);
  }

  lemma {:induction false} NoneGone(edits: Edits, n: nat)
    requires forall k | k in edits :: k >= n
    ensures Gone(edits, n) == 0
  {
    GoneKeys(edits, n, set k | k in edits && k < n);
  }
}
