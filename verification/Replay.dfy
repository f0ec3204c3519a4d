/** Replay of an evaluation dataset: greedy matching of each case, and the metrics the activation gates use. */
module Replay {
  import opened Models
  import E = Evaluation

  /** An expected finding; an empty rule stands for any. */
  datatype Expected = Expected(path: string, line: int, ruleId: string, minimum: Severity)

  /** A case and what the reviewer made of it; None when it failed. */
  datatype Case = Case(expected: seq<Expected>, review: Option<seq<Finding>>)

  type Predictions = map<FindingKey, Severity>

  predicate Fits(e: Expected, k: FindingKey) {
    k.path == e.path && k.line == e.line && (e.ruleId == "" || k.ruleId == e.ruleId)
  }

  // ---- Predictions ------------------------------------------------------------------

  /** One prediction for every key reported, with the highest severity it was reported with. */
  ghost predicate Predicted(findings: seq<Finding>, predicted: Predictions) {
    && (forall f | f in findings :: KeyOf(f) in predicted && Rank(f.severity) <= Rank(predicted[KeyOf(f)]))
    && (forall k | k in predicted :: exists f :: f in findings && KeyOf(f) == k && f.severity == predicted[k])
  }

  method Collect(findings: seq<Finding>) returns (predicted: Predictions)
    ensures Predicted(findings, predicted)
  {
    predicted := map[];
    for i := 0 to |findings|
      invariant Predicted(findings[..i], predicted)
    {
      var f := findings[i];
      assert findings[..i + 1] == findings[..i] + [f];
      if KeyOf(f) !in predicted || Rank(f.severity) > Rank(predicted[KeyOf(f)]) {
        predicted := predicted[KeyOf(f) := f.severity];
      }
      assert forall g | g in findings[..i] :: g in findings[..i + 1];
    }
    assert findings[..|findings|] == findings;
  }

  // ---- The greedy matching -------------------------------------------------------------

  type Assignment = map<nat, FindingKey>

  /** Each expected finding has at most one prediction that fits it, and no prediction is used twice. */
  ghost predicate Valid(expected: seq<Expected>, predicted: Predictions, a: Assignment) {
    && (forall i | i in a :: i < |expected| && a[i] in predicted && Fits(expected[i], a[i]))
    && (forall i, j | i in a && j in a && a[i] == a[j] :: i == j)
  }

  ghost predicate UsedBefore(a: Assignment, n: nat, k: FindingKey) {
    exists j :: j in a && j < n && a[j] == k
  }

  /** Expected finding `i` took the most severe prediction left, or none fitting was left. */
  ghost predicate GreedyAt(expected: seq<Expected>, predicted: Predictions, a: Assignment, i: nat) {
    i < |expected|
    && if i in a then a[i] in predicted && !UsedBefore(a, i, a[i]) && NoneBetter(expected[i], predicted, a, i, a[i])
       else forall k | k in predicted && Fits(expected[i], k) :: UsedBefore(a, i, k)
  }

  ghost predicate NoneBetter(e: Expected, predicted: Predictions, a: Assignment, i: nat, best: FindingKey)
    requires best in predicted
  {
    forall k | k in predicted && Fits(e, k) && !UsedBefore(a, i, k) :: Rank(predicted[k]) <= Rank(predicted[best])
  }

  ghost predicate Greedy(expected: seq<Expected>, predicted: Predictions, a: Assignment) {
    Valid(expected, predicted, a) && GreedyUpTo(expected, predicted, a, |expected|)
  }

  ghost predicate GreedyUpTo(expected: seq<Expected>, predicted: Predictions, a: Assignment, n: nat) {
    forall i: nat | i < n :: GreedyAt(expected, predicted, a, i)
  }

  /** How many of the first `n` expected findings were matched with at least the minimum severity, and are of a kind. */
  function Hits(expected: seq<Expected>, predicted: Predictions, a: Assignment, n: nat, high: bool): (h: nat)
    requires n <= |expected|
    ensures h <= n
  {
    if n == 0 then 0
    else Hits(expected, predicted, a, n - 1, high) + (if Hit(expected[n - 1], predicted, a, n - 1, high) then 1 else 0)
  }

  predicate Hit(e: Expected, predicted: Predictions, a: Assignment, i: nat, high: bool) {
    i in a && a[i] in predicted && Rank(predicted[a[i]]) >= Rank(e.minimum) && (high ==> E.IsHigh(e.minimum))
  }

  function HighTotal(expected: seq<Expected>): nat {
    if expected == [] then 0
      else HighTotal(expected[..|expected| - 1]) + (if E.IsHigh(expected[|expected| - 1].minimum) then 1 else 0)
  }

  /** Some fitting prediction is at least as severe as every other. */
  lemma {:induction false} MostSevere(candidates: set<FindingKey>, predicted: Predictions) returns (best: FindingKey)
    requires candidates != {} && candidates <= predicted.Keys
    ensures best in candidates && forall k | k in candidates :: Rank(predicted[k]) <= Rank(predicted[best])
  {
    var k :| k in candidates;
    best := k;
    if candidates != {k} {
      var rest := MostSevere(candidates - {k}, predicted);
      if Rank(predicted[rest]) > Rank(predicted[k]) {
        best := rest;
      }
    }
  }

  /** The state of the greedy loop after the first `n` expected findings. */
  ghost predicate Matching(expected: seq<Expected>, predicted: Predictions, a: Assignment, n: nat,
                           unmatched: set<FindingKey>) {
    && n <= |expected| && Valid(expected, predicted, a) && GreedyUpTo(expected, predicted, a, n)
    && (forall i | i in a :: i < n)
    && Remaining(predicted, a, n, unmatched) && |unmatched| + |a| == |predicted|
  }

  /** What is left of the predictions. */
  ghost predicate Remaining(predicted: Predictions, a: Assignment, n: nat, unmatched: set<FindingKey>) {
    forall k :: k in unmatched <==> k in predicted && !UsedBefore(a, n, k)
  }

  method MatchOne(expected: seq<Expected>, predicted: Predictions, ghost a: Assignment, n: nat,
                  unmatched: set<FindingKey>)
    returns (selected: Option<FindingKey>, ghost after: Assignment, left: set<FindingKey>)
    requires n < |expected| && Matching(expected, predicted, a, n, unmatched)
    ensures Matching(expected, predicted, after, n + 1, left)
    ensures after == if selected.Some? then a[n := selected.value] else a
    ensures selected.Some? ==> selected.value in predicted
  {
    var candidates := set k | k in unmatched && Fits(expected[n], k);
    assert forall k | k in unmatched && Fits(expected[n], k) :: k in candidates;
    if candidates == {} {
      SkipOne(expected, predicted, a, n, unmatched);
      return None, a, unmatched;
    }
    ghost var best := MostSevere(candidates, predicted);
    var choice :| choice in candidates && forall k | k in candidates :: Rank(predicted[k]) <= Rank(predicted[choice]);
    TakeOne(expected, predicted, a, n, unmatched, choice);
    return Some(choice), a[n := choice], unmatched - {choice};
  }

  lemma UsedAfter(a: Assignment, n: nat, choice: FindingKey, i: nat, k: FindingKey)
    requires i <= n && n !in a
    ensures UsedBefore(a[n := choice], i, k) <==> UsedBefore(a, i, k)
  {
    if UsedBefore(a, i, k) {
      var j :| j in a && j < i && a[j] == k;
      assert j in a[n := choice] && a[n := choice][j] == k;
    }
  }

  lemma StillGreedy(expected: seq<Expected>, predicted: Predictions, a: Assignment, n: nat, choice: FindingKey, i: nat)
    requires i < n < |expected| && n !in a && choice in predicted
    requires GreedyAt(expected, predicted, a, i)
    ensures GreedyAt(expected, predicted, a[n := choice], i)
  {
    forall k
      ensures UsedBefore(a[n := choice], i, k) <==> UsedBefore(a, i, k)
    {
      UsedAfter(a, n, choice, i, k);
    }
    hide UsedBefore, Fits;
  }

  lemma SkipOne(expected: seq<Expected>, predicted: Predictions, a: Assignment, n: nat, unmatched: set<FindingKey>)
    requires n < |expected| && Matching(expected, predicted, a, n, unmatched)
    requires forall k | k in unmatched :: !Fits(expected[n], k)
    ensures Matching(expected, predicted, a, n + 1, unmatched)
  {
    hide Fits, Valid;
    assert GreedyAt(expected, predicted, a, n);
    forall k
      ensures UsedBefore(a, n + 1, k) <==> UsedBefore(a, n, k)
    {
      if UsedBefore(a, n + 1, k) {
        var j :| j in a && j < n + 1 && a[j] == k;
        assert j < n;
      }
    }
    hide UsedBefore, GreedyAt;
  }

  lemma TakeOne(expected: seq<Expected>, predicted: Predictions, a: Assignment, n: nat, unmatched: set<FindingKey>,
                choice: FindingKey)
    requires n < |expected| && Matching(expected, predicted, a, n, unmatched)
    requires choice in unmatched && Fits(expected[n], choice)
    requires forall k | k in unmatched && Fits(expected[n], k) :: Rank(predicted[k]) <= Rank(predicted[choice])
    ensures Matching(expected, predicted, a[n := choice], n + 1, unmatched - {choice})
  {
    assert choice in predicted && !UsedBefore(a, n, choice) && n !in a;
    ValidAfter(expected, predicted, a, n, choice);
    RemainingAfter(predicted, a, n, unmatched, choice);
    GreedyAfter(expected, predicted, a, n, unmatched, choice);
    OneMore(a, n, choice);
    assert |unmatched - {choice}| == |unmatched| - 1;
    hide Fits, Valid, Remaining, GreedyUpTo, UsedBefore;
  }

  lemma GreedyAfter(expected: seq<Expected>, predicted: Predictions, a: Assignment, n: nat, unmatched: set<FindingKey>,
                    choice: FindingKey)
    requires n < |expected| && n !in a && Remaining(predicted, a, n, unmatched) && GreedyUpTo(expected, predicted, a, n)
    requires choice in unmatched && choice in predicted && Fits(expected[n], choice)
    requires forall k | k in unmatched && Fits(expected[n], k) :: Rank(predicted[k]) <= Rank(predicted[choice])
    ensures GreedyUpTo(expected, predicted, a[n := choice], n + 1)
  {
    var after := a[n := choice];
    NewGreedy(expected, predicted, a, n, unmatched, choice);
    forall i: nat | i < n
      ensures GreedyAt(expected, predicted, after, i)
    {
      assert GreedyAt(expected, predicted, a, i);
      StillGreedy(expected, predicted, a, n, choice, i);
    }
    hide GreedyAt;
  }

  lemma OneMore(a: Assignment, n: nat, choice: FindingKey)
    requires n !in a
    ensures |a[n := choice]| == |a| + 1
  {
    assert a[n := choice].Keys == a.Keys + {n};
    assert |a[n := choice].Keys| == |a.Keys| + 1;
  }

  lemma ValidAfter(expected: seq<Expected>, predicted: Predictions, a: Assignment, n: nat, choice: FindingKey)
    requires n < |expected| && Valid(expected, predicted, a) && (forall i | i in a :: i < n)
    requires choice in predicted && !UsedBefore(a, n, choice) && Fits(expected[n], choice)
    ensures Valid(expected, predicted, a[n := choice])
  {
    hide Fits;
  }

  lemma RemainingAfter(predicted: Predictions, a: Assignment, n: nat, unmatched: set<FindingKey>, choice: FindingKey)
    requires (forall i | i in a :: i < n) && Remaining(predicted, a, n, unmatched) && choice in unmatched
    ensures Remaining(predicted, a[n := choice], n + 1, unmatched - {choice})
  {
    var after := a[n := choice];
    forall k
      ensures UsedBefore(after, n + 1, k) <==> UsedBefore(a, n, k) || k == choice
    {
      UsedAfter(a, n, choice, n, k);
      assert n in after && after[n] == choice;
      if UsedBefore(after, n, k) {
        var j :| j in after && j < n && after[j] == k;
        assert j < n + 1;
      }
    }
    hide UsedBefore;
  }

  lemma NewGreedy(expected: seq<Expected>, predicted: Predictions, a: Assignment, n: nat, unmatched: set<FindingKey>,
                  choice: FindingKey)
    requires n < |expected| && n !in a && Remaining(predicted, a, n, unmatched)
    requires choice in unmatched && choice in predicted
    requires forall k | k in unmatched && Fits(expected[n], k) :: Rank(predicted[k]) <= Rank(predicted[choice])
    ensures GreedyAt(expected, predicted, a[n := choice], n)
  {
    forall k
      ensures UsedBefore(a[n := choice], n, k) <==> UsedBefore(a, n, k)
    {
      UsedAfter(a, n, choice, n, k);
    }
    hide UsedBefore, Fits;
  }

  // ---- One case ------------------------------------------------------------------------

  datatype Replayed = Replayed(
    expected: nat, findings: nat, tp: nat, fp: int, fn: int, severityHits: nat, highHits: nat, highTotal: nat,
    cleanHit: bool, failed: bool)

  /** The counts of a case whose expected findings were matched by `a`. */
  function Scored(expected: seq<Expected>, predicted: Predictions, a: Assignment): Replayed {
    Replayed(
      |expected|, |predicted|, |a|, |predicted| - |a|, |expected| - |a|,
      Hits(expected, predicted, a, |expected|, false), Hits(expected, predicted, a, |expected|, true),
        HighTotal(expected),
      expected == [] && predicted == map[], false)
  }

  /** A failed replay misses everything that was expected. */
  function Missed(expected: seq<Expected>): Replayed {
    Replayed(|expected|, 0, 0, 0, |expected|, 0, 0, HighTotal(expected), false, true)
  }

  /** A result of the case: one of the greedy matchings of its findings. */
  ghost predicate Replays(c: Case, r: Replayed) {
    if c.review.None? then r == Missed(c.expected)
    else exists predicted, a ::
      Predicted(c.review.value, predicted) && Greedy(c.expected, predicted, a) && r == Scored(c.expected, predicted, a)
  }

  lemma {:induction false} HitsKept(expected: seq<Expected>, predicted: Predictions, a: Assignment, n: nat,
                                    choice: FindingKey, m: nat, high: bool)
    requires m <= n && m <= |expected|
    ensures Hits(expected, predicted, a[n := choice], m, high) == Hits(expected, predicted, a, m, high)
  {
    if m > 0 {
      HitsKept(expected, predicted, a, n, choice, m - 1, high);
    }
  }

  method ReplayCase(c: Case) returns (r: Replayed)
    ensures Replays(c, r)
  {
    if c.review.None? {
      return Missed(c.expected);
    }
    var predicted := Collect(c.review.value);
    ghost var a;
    r, a := ScoreCase(c.expected, predicted);
  }

  method ScoreCase(expected: seq<Expected>, predicted: Predictions) returns (r: Replayed, ghost a: Assignment)
    ensures Greedy(expected, predicted, a) && r == Scored(expected, predicted, a)
  {
    var unmatched, tp, severityOk, highHits := predicted.Keys, 0, 0, 0;
    a := map[];
    NothingMatched(expected, predicted);
    hide Matching, Greedy, Hits, Passes;
    for n := 0 to |expected|
      invariant Matching(expected, predicted, a, n, unmatched)
      invariant tp == |a| && severityOk == Hits(expected, predicted, a, n, false)
      invariant highHits == Hits(expected, predicted, a, n, true)
    {
      ghost var before, matching := a, unmatched;
      var selected;
      selected, a, unmatched := MatchOne(expected, predicted, a, n, unmatched);
      Counted(expected, predicted, before, n, matching, selected, a, false);
      Counted(expected, predicted, before, n, matching, selected, a, true);
      if selected.Some? {
        tp := tp + 1;
        severityOk := severityOk + (if Passes(expected[n], predicted, selected, false) then 1 else 0);
        highHits := highHits + (if Passes(expected[n], predicted, selected, true) then 1 else 0);
      }
    }
    MatchingDone(expected, predicted, a, unmatched);
    r := Replayed(
      |expected|, |predicted|, tp, |unmatched|, |expected| - tp, severityOk, highHits, HighTotal(expected),
      expected == [] && predicted == map[], false);
  }

  /** The selected prediction is severe enough; for the high count the expectation must be high as well. */
  predicate Passes(e: Expected, predicted: Predictions, selected: Option<FindingKey>, high: bool) {
    && selected.Some? && selected.value in predicted
    && Rank(predicted[selected.value]) >= Rank(e.minimum) && (high ==> E.IsHigh(e.minimum))
  }

  lemma NothingMatched(expected: seq<Expected>, predicted: Predictions)
    ensures Matching(expected, predicted, map[], 0, predicted.Keys)
    ensures forall high :: Hits(expected, predicted, map[], 0, high) == 0
  {
    assert |predicted.Keys| == |predicted|;
  }

  lemma MatchingDone(expected: seq<Expected>, predicted: Predictions, a: Assignment, unmatched: set<FindingKey>)
    requires Matching(expected, predicted, a, |expected|, unmatched)
    ensures Greedy(expected, predicted, a) && |unmatched| == |predicted| - |a|
  {
  }

  /** What one expected finding adds to the counts. */
  lemma Counted(
    expected: seq<Expected>, predicted: Predictions, a: Assignment, n: nat, unmatched: set<FindingKey>,
    selected: Option<FindingKey>, after: Assignment, high: bool)
    requires n < |expected| && Matching(expected, predicted, a, n, unmatched)
    requires after == if selected.Some? then a[n := selected.value] else a
    ensures |after| == if selected.Some? then |a| + 1 else |a|
    ensures selected.None? ==> !Passes(expected[n], predicted, selected, high)
    ensures Hits(expected, predicted, after, n + 1, high)
      == Hits(expected, predicted, a, n, high) + (if Passes(expected[n], predicted, selected, high) then 1 else 0)
  {
    assert n !in a;
    hide Matching, E.IsHigh;
    if selected.Some? {
      OneMore(a, n, selected.value);
      HitsKept(expected, predicted, a, n, selected.value, n, high);
    }
  }

  // ---- The greedy matching is maximum only when rules come first -----------------------------

  /** No two expectations are the same. */
  ghost predicate DistinctExpectations(expected: seq<Expected>) {
    forall i, j | 0 <= i < j < |expected| :: expected[i].path != expected[j].path
      || expected[i].line != expected[j].line || expected[i].ruleId != expected[j].ruleId
  }

  predicate SamePlace(e: Expected, f: Expected) {
    e.path == f.path && e.line == f.line
  }

  /** At no place does an expectation for any rule come before one for a particular rule. */
  ghost predicate RulesFirst(expected: seq<Expected>) {
    forall i, j | 0 <= i < j < |expected| && SamePlace(expected[i], expected[j]) :: expected[i].ruleId != ""
  }

  /** For each expected finding another matching serves, one that the greedy matching serves. */
  ghost function Stand(expected: seq<Expected>, predicted: Predictions, a: Assignment, other: Assignment,
                       i: nat): (s: nat)
    requires DistinctExpectations(expected) && RulesFirst(expected)
    requires Greedy(expected, predicted, a) && Valid(expected, predicted, other) && i in other
    ensures s in a && (s == i || (i !in a && a[s] == other[i] && s !in other && SamePlace(expected[s], expected[i])))
  {
    if i in a then i
    else
      assert GreedyAt(expected, predicted, a, i);
      var j :| j in a && j < i && a[j] == other[i];
      assert SamePlace(expected[j], expected[i]);
      assert expected[j].ruleId != "";
      j
  }

  lemma {:induction false} InjectionBound<V(!new)>(m: map<nat, V>, targets: set<V>)
    requires forall i | i in m :: m[i] in targets
    requires forall i, j | i in m && j in m && m[i] == m[j] :: i == j
    ensures |m| <= |targets|
  {
    if m.Keys != {} {
      var i :| i in m;
      var rest := map k | k in m && k != i :: m[k];
      assert rest.Keys == m.Keys - {i};
      InjectionBound(rest, targets - {m[i]});
    }
  }

  /** With particular rules first, no matching serves more expected findings than the greedy one. */
  lemma GreedyIsMaximum(expected: seq<Expected>, predicted: Predictions, a: Assignment, other: Assignment)
    requires DistinctExpectations(expected) && RulesFirst(expected)
    requires Greedy(expected, predicted, a) && Valid(expected, predicted, other)
    ensures |other| <= |a|
  {
    var m := map i | i in other :: Stand(expected, predicted, a, other, i);
    assert m.Keys == other.Keys;
    InjectionBound(m, a.Keys);
  }

  /** A rule that no expectation names. */
  lemma {:induction false} FreshRule(expected: seq<Expected>) returns (rule: string)
    ensures rule != "" && forall e | e in expected :: |e.ruleId| < |rule|
  {
    if expected == [] {
      return "x";
    }
    var rest := FreshRule(expected[..|expected| - 1]);
    rule := rest + expected[|expected| - 1].ruleId + "x";
    assert forall e | e in expected :: e in expected[..|expected| - 1] || e == expected[|expected| - 1];
  }

  /** Otherwise there are predictions for which it serves fewer than it could. */
  lemma WildcardTakesRule(expected: seq<Expected>, i: nat, j: nat)
    returns (predicted: Predictions, a: Assignment, other: Assignment)
    requires DistinctExpectations(expected)
    requires i < j < |expected| && SamePlace(expected[i], expected[j]) && expected[i].ruleId == ""
    ensures Greedy(expected, predicted, a) && Valid(expected, predicted, other) && |other| > |a|
  {
    var e := expected[j];
    var unheard := FreshRule(expected);
    assert expected[j] in expected;
    var named, unnamed := FindingKey(e.path, e.line, e.ruleId), FindingKey(e.path, e.line, unheard);
    predicted := map[named := Critical, unnamed := Low];
    a, other := map[i := named], map[i := unnamed, j := named];
    forall n: nat | n < |expected|
      ensures GreedyAt(expected, predicted, a, n)
    {
      assert expected[n] in expected;
      if n != i {
        forall k | k in predicted && Fits(expected[n], k)
          ensures UsedBefore(a, n, k)
        {
          assert n == j && k == named;
          assert i in a && i < n && a[i] == k;
        }
      }
    }
  }

  /**
   * So the case scores depend on the order of the expectations exactly when an any-rule expectation precedes another at
   * its place.
   */
  lemma MaximumExactly(expected: seq<Expected>)
    requires DistinctExpectations(expected)
    ensures RulesFirst(expected) <==>
      forall predicted, a, other | Greedy(expected, predicted, a) && Valid(expected, predicted, other) :: |other| <= |a|
  {
    if RulesFirst(expected) {
      forall predicted, a, other | Greedy(expected, predicted, a) && Valid(expected, predicted, other)
        ensures |other| <= |a|
      {
        GreedyIsMaximum(expected, predicted, a, other);
      }
    } else {
      var i, j :| 0 <= i < j < |expected| && SamePlace(expected[i], expected[j]) && expected[i].ruleId == "";
      var predicted, a, other := WildcardTakesRule(expected, i, j);
    }
  }

  // ---- Totals ------------------------------------------------------------------------------

  /** What every replayed case satisfies. */
  ghost predicate Accounted(r: Replayed) {
    && r.fp >= 0 && r.fn >= 0
    && r.tp + r.fn == r.expected && r.tp + r.fp == r.findings
    && r.severityHits <= r.tp && r.highHits <= r.highTotal
    && (r.cleanHit <==> r.expected == 0 && r.findings == 0 && !r.failed)
  }

  lemma {:induction false} HitsBounded(expected: seq<Expected>, predicted: Predictions, a: Assignment, n: nat,
                                       matched: set<nat>)
    requires n <= |expected| && matched == (set i | i in a && i < n)
    ensures Hits(expected, predicted, a, n, false) <= |matched|
    ensures Hits(expected, predicted, a, n, true) <= HighTotal(expected[..n])
  {
    if n > 0 {
      var before := set i | i in a && i < n - 1;
      HitsBounded(expected, predicted, a, n - 1, before);
      assert matched == if n - 1 in a then before + {n - 1} else before;
      assert expected[..n][..n - 1] == expected[..n - 1];
    }
  }

  /** The expected findings that were matched with at least their minimum severity. */
  ghost function Met(expected: seq<Expected>, predicted: Predictions, a: Assignment, n: nat): set<nat>
    requires n <= |expected|
  {
    set i: nat | i < n && i in a && a[i] in predicted && Rank(predicted[a[i]]) >= Rank(expected[i].minimum)
  }

  /** Those among the first `n` that are high or critical. */
  ghost function Severe(expected: seq<Expected>, n: nat): set<nat>
    requires n <= |expected|
  {
    set i: nat | i < n && expected[i].minimum in {High, Critical}
  }

  /** The counts of a case are counts: of expectations met, of severe ones met, and of severe ones. */
  lemma {:induction false} HitsExactly(expected: seq<Expected>, predicted: Predictions, a: Assignment, n: nat)
    requires n <= |expected|
    ensures Hits(expected, predicted, a, n, false) == |Met(expected, predicted, a, n)|
    ensures Hits(expected, predicted, a, n, true) == |Met(expected, predicted, a, n) * Severe(expected, n)|
    ensures HighTotal(expected[..n]) == |Severe(expected, n)|
  {
    hide Met, Severe, Hit, HighTotal;
    if n == 0 {
      NoneMet(expected, predicted, a);
    } else {
      HitsExactly(expected, predicted, a, n - 1);
      MetNext(expected, predicted, a, n - 1);
      SevereNext(expected, n - 1);
      var hit := Hit(expected[n - 1], predicted, a, n - 1, false);
      var high := Hit(expected[n - 1], predicted, a, n - 1, true);
      BothNext(Met(expected, predicted, a, n - 1), Severe(expected, n - 1), n - 1, hit,
        expected[n - 1].minimum in {High, Critical});
      OneHit(expected[n - 1], predicted, a, n - 1);
    }
  }

  lemma NoneMet(expected: seq<Expected>, predicted: Predictions, a: Assignment)
    ensures Met(expected, predicted, a, 0) == {} && Severe(expected, 0) == {} && HighTotal(expected[..0]) == 0
  {
  }

  lemma MetNext(expected: seq<Expected>, predicted: Predictions, a: Assignment, n: nat)
    requires n < |expected|
    ensures Met(expected, predicted, a, n + 1)
         == Met(expected, predicted, a, n) + if Hit(expected[n], predicted, a, n, false) then {n} else {}
    ensures forall i | i in Met(expected, predicted, a, n) :: i < n
  {
  }

  lemma SevereNext(expected: seq<Expected>, n: nat)
    requires n < |expected|
    ensures Severe(expected, n + 1) == Severe(expected, n) + if expected[n].minimum in {High, Critical} then {n} else {}
    ensures forall i | i in Severe(expected, n) :: i < n
    ensures HighTotal(expected[..n + 1])
         == HighTotal(expected[..n]) + if expected[n].minimum in {High, Critical} then 1 else 0
  {
    assert expected[..n + 1][..n] == expected[..n];
  }

  lemma OneHit(e: Expected, predicted: Predictions, a: Assignment, i: nat)
    ensures Hit(e, predicted, a, i, true) <==> Hit(e, predicted, a, i, false) && e.minimum in {High, Critical}
  {
  }

  lemma BothNext(met: set<nat>, severe: set<nat>, n: nat, hit: bool, high: bool)
    requires (forall i | i in met :: i < n) && (forall i | i in severe :: i < n)
    ensures var met', severe' := met + if hit then {n} else {}, severe + if high then {n} else {};
      && |met'| == |met| + (if hit then 1 else 0) && |severe'| == |severe| + (if high then 1 else 0)
      && |met' * severe'| == |met * severe| + if hit && high then 1 else 0
  {
    WithOne(met, n, hit);
    WithOne(severe, n, high);
    WithOne(met * severe, n, hit && high);
    MeetAtOne(met, severe, n, hit, high);
  }

  lemma WithOne(s: set<nat>, n: nat, present: bool)
    requires n !in s
    ensures |s + if present then {n} else {}| == |s| + if present then 1 else 0
  {
    if present {
      assert |s + {n}| == |s| + 1;
    } else {
      assert s + {} == s;
    }
  }

  lemma MeetAtOne(met: set<nat>, severe: set<nat>, n: nat, hit: bool, high: bool)
    requires n !in met && n !in severe
    ensures (met + if hit then {n} else {}) * (severe + if high then {n} else {})
         == met * severe + if hit && high then {n} else {}
  {
  }

  lemma {:induction false} Below(s: set<nat>, n: nat)
    requires forall i | i in s :: i < n
    ensures |s| <= n
  {
    if n == 0 {
      assert s == {};
    } else {
      Below(s - {n - 1}, n - 1);
    }
  }

  /** No more matches than expected findings or predictions. */
  lemma ValidFits(expected: seq<Expected>, predicted: Predictions, a: Assignment)
    requires Valid(expected, predicted, a)
    ensures |a| <= |expected| && |a| <= |predicted|
  {
    Below(a.Keys, |expected|);
    InjectionBound(a, predicted.Keys);
    assert |a| == |a.Keys| && |predicted| == |predicted.Keys|;
  }

  lemma ScoredAccounted(expected: seq<Expected>, predicted: Predictions, a: Assignment)
    requires Valid(expected, predicted, a)
    ensures Accounted(Scored(expected, predicted, a))
  {
    ValidFits(expected, predicted, a);
    HitsBounded(expected, predicted, a, |expected|, a.Keys);
    assert expected[..|expected|] == expected;
    hide Valid, Hits, HighTotal;
    assert predicted == map[] <==> |predicted| == 0;
  }

  lemma ReplayAccounted(c: Case, r: Replayed)
    requires Replays(c, r)
    ensures Accounted(r) && r.expected == |c.expected| && (r.failed <==> c.review.None?)
  {
    hide Predicted, Accounted, Hits, HighTotal;
    if c.review.Some? {
      var predicted, a :| Predicted(c.review.value, predicted) && Greedy(c.expected, predicted, a)
        && r == Scored(c.expected, predicted, a);
      ScoredAccounted(c.expected, predicted, a);
    } else {
      MissedAccounted(c.expected);
    }
  }

  lemma MissedAccounted(expected: seq<Expected>)
    ensures Accounted(Missed(expected))
  {
  }

  datatype Totals = Totals(
    cases: nat, errors: nat, tp: nat, fp: nat, fn: nat, severityHits: nat, highHits: nat, highTotal: nat,
    cleanHits: nat, cleanTotal: nat, positiveCases: nat, expectedTotal: nat, predictedTotal: nat)

  ghost predicate AllAccounted(rs: seq<Replayed>) {
    forall r | r in rs :: Accounted(r)
  }

  function Plus(t: Totals, r: Replayed): Totals
    requires r.fp >= 0 && r.fn >= 0
  {
    Totals(
      t.cases + 1, t.errors + E.Bit(r.failed), t.tp + r.tp, t.fp + r.fp, t.fn + r.fn, t.severityHits + r.severityHits,
      t.highHits + r.highHits, t.highTotal + r.highTotal, t.cleanHits + E.Bit(r.cleanHit),
      t.cleanTotal + E.Bit(r.expected == 0),
      t.positiveCases + E.Bit(r.expected > 0), t.expectedTotal + r.expected, t.predictedTotal + r.findings)
  }

  function TotalsOf(rs: seq<Replayed>): Totals
    requires AllAccounted(rs)
  {
    if rs == [] then Totals(0, 0, 0, 0, 0, 0, 0, 0, 0, 0, 0, 0, 0)
    else assert rs[|rs| - 1] in rs; Plus(TotalsOf(rs[..|rs| - 1]), rs[|rs| - 1])
  }

  function Sum(rs: seq<Replayed>, count: Replayed -> int): int {
    if rs == [] then 0 else Sum(rs[..|rs| - 1], count) + count(rs[|rs| - 1])
  }

  /** Each total is the sum of its own count. */
  lemma {:induction false} TotalsAreSums(rs: seq<Replayed>)
    requires AllAccounted(rs)
    ensures var t := TotalsOf(rs);
      && t.cases == |rs| && t.errors == Sum(rs, (r: Replayed) => E.Bit(r.failed))
      && t.tp == Sum(rs, (r: Replayed) => r.tp) && t.fp == Sum(rs, (r: Replayed) => r.fp)
      && t.fn == Sum(rs, (r: Replayed) => r.fn)
      && t.severityHits == Sum(rs, (r: Replayed) => r.severityHits)
      && t.highHits == Sum(rs, (r: Replayed) => r.highHits) && t.highTotal == Sum(rs, (r: Replayed) => r.highTotal)
      && t.cleanHits == Sum(rs, (r: Replayed) => E.Bit(r.cleanHit))
      && t.cleanTotal == Sum(rs, (r: Replayed) => E.Bit(r.expected == 0))
      && t.positiveCases == Sum(rs, (r: Replayed) => E.Bit(r.expected > 0))
      && t.expectedTotal == Sum(rs, (r: Replayed) => r.expected)
      && t.predictedTotal == Sum(rs, (r: Replayed) => r.findings)
  {
    hide E.Bit, Accounted;
    if rs != [] {
      TotalsAreSums(rs[..|rs| - 1]);
    }
  }

  /** Expected findings are found or missed, predictions right or wrong, over the whole dataset. */
  ghost predicate Conserved(t: Totals) {
    && t.tp + t.fn == t.expectedTotal && t.tp + t.fp == t.predictedTotal
    && t.severityHits <= t.tp && t.highHits <= t.highTotal && t.cleanHits <= t.cleanTotal && t.errors <= t.cases
    && t.cleanTotal + t.positiveCases == t.cases && (t.positiveCases == 0 <==> t.expectedTotal == 0)
    && (PerfectTotals(t) ==> t.cleanHits == t.cleanTotal)
    && (t.expectedTotal == 0 && t.cleanHits == t.cleanTotal ==> t.predictedTotal == 0 && t.errors == 0)
  }

  ghost predicate Perfect(r: Replayed) {
    !r.failed && r.fp == 0 && r.fn == 0 && r.severityHits == r.tp
  }

  ghost predicate PerfectTotals(t: Totals) {
    t.errors == 0 && t.fp == 0 && t.fn == 0 && t.severityHits == t.tp
  }

  lemma {:induction false} TotalsConserve(rs: seq<Replayed>)
    requires AllAccounted(rs)
    ensures Conserved(TotalsOf(rs)) && TotalsOf(rs).cases == |rs|
    ensures PerfectTotals(TotalsOf(rs)) <==> forall r | r in rs :: Perfect(r)
  {
    if rs != [] {
      var front, last := rs[..|rs| - 1], rs[|rs| - 1];
      TotalsConserve(front);
      assert Accounted(last) by {
        assert last in rs;
      }
      assert forall r :: r in rs <==> r in front || r == last;
    }
  }

  // ---- Metrics ------------------------------------------------------------------------------

  datatype Metrics = Metrics(
    score: real, precision: real, recall: real, f1: real, severityAccuracy: real, highSeverityRecall: real,
      cleanAccuracy: real,
    successRate: real, falsePositiveRate: real, positiveCases: nat, cleanCases: nat, errors: nat)

  /** The weighted mean of the components that apply. */
  function Weighted(t: Totals, f1: real, severity: real, clean: real): real {
    if t.expectedTotal > 0 && t.cleanTotal > 0 then (f1 * 0.65 + severity * 0.15 + clean * 0.20) / (0.65 + 0.15 + 0.20)
    else if t.expectedTotal > 0 then (f1 * 0.65 + severity * 0.15) / (0.65 + 0.15)
    else if t.cleanTotal > 0 then clean * 0.20 / 0.20
    else 0.0
  }

  /** Failed replays lower the score in proportion. */
  function Score(t: Totals, f1: real, severity: real, clean: real, success: real): real {
    Weighted(t, f1, severity, clean) * success
  }

  function Precision(t: Totals): real {
    E.Ratio(t.tp, t.tp + t.fp, if t.tp + t.fn == 0 then 1.0 else 0.0)
  }

  function Recall(t: Totals): real {
    E.Ratio(t.tp, t.tp + t.fn, 1.0)
  }

  function SeverityAccuracy(t: Totals): real {
    E.Ratio(t.severityHits, t.tp, if t.fn == 0 then 1.0 else 0.0)
  }

  function CleanAccuracy(t: Totals): real {
    E.Ratio(t.cleanHits, t.cleanTotal, 1.0)
  }

  function SuccessRate(t: Totals): real
    requires t.errors <= t.cases
  {
    E.Ratio(t.cases - t.errors, t.cases, 0.0)
  }

  function MetricsOf(t: Totals): Metrics
    requires t.errors <= t.cases
  {
    var f1 := E.F1(Precision(t), Recall(t));
    Metrics(
      Score(t, f1, SeverityAccuracy(t), CleanAccuracy(t), SuccessRate(t)), Precision(t), Recall(t), f1,
        SeverityAccuracy(t),
      E.Ratio(t.highHits, t.highTotal, 1.0), CleanAccuracy(t), SuccessRate(t), E.Ratio(t.fp, t.tp + t.fp, 0.0),
      t.positiveCases, t.cleanTotal, t.errors)
  }

  ghost predicate MetricsInUnit(m: Metrics) {
    && InUnit(m.score) && InUnit(m.precision) && InUnit(m.recall) && InUnit(m.f1) && InUnit(m.severityAccuracy)
    && InUnit(m.highSeverityRecall) && InUnit(m.cleanAccuracy) && InUnit(m.successRate) && InUnit(m.falsePositiveRate)
  }

  /** A mean with positive weights is one exactly when every part is. */
  lemma WeightedInUnit(t: Totals, f1: real, severity: real, clean: real)
    requires InUnit(f1) && InUnit(severity) && InUnit(clean)
    ensures InUnit(Weighted(t, f1, severity, clean))
    ensures Weighted(t, f1, severity, clean) == 1.0 <==>
      (t.expectedTotal > 0 ==> f1 == 1.0 && severity == 1.0) && (t.cleanTotal > 0 ==> clean == 1.0)
        && t.expectedTotal + t.cleanTotal > 0
  {
  }

  lemma ProductOne(a: real, b: real)
    requires InUnit(a) && InUnit(b)
    ensures InUnit(a * b) && (a * b == 1.0 <==> a == 1.0 && b == 1.0)
  {
    E.ProductSign(a, b);
    E.ProductSign(a, 1.0 - b);
    assert a * (1.0 - b) == a - a * b;
  }

  /** What it means for the rates to be one. */
  ghost predicate RatesMean(t: Totals, f1: real, severity: real, clean: real, success: real) {
    && InUnit(f1) && InUnit(severity) && InUnit(clean) && InUnit(success)
    && (t.expectedTotal > 0 ==> (f1 == 1.0 && severity == 1.0 <==> t.fp == 0 && t.fn == 0 && t.severityHits == t.tp))
    && (t.cleanTotal > 0 ==> (clean == 1.0 <==> t.cleanHits == t.cleanTotal))
    && (t.cases > 0 ==> (success == 1.0 <==> t.errors == 0))
  }

  lemma F1Means(t: Totals)
    requires Conserved(t)
    ensures var precision, recall := Precision(t), Recall(t);
      && InUnit(precision) && InUnit(recall) && InUnit(E.F1(precision, recall))
      && (t.expectedTotal > 0 ==> (E.F1(precision, recall) == 1.0 <==> t.fp == 0 && t.fn == 0))
  {
    E.RatioInUnit(t.tp, t.tp + t.fp, if t.tp + t.fn == 0 then 1.0 else 0.0);
    E.RatioInUnit(t.tp, t.tp + t.fn, 1.0);
    E.F1InUnit(Precision(t), Recall(t));
    hide E.F1;
  }

  lemma SeverityMeans(t: Totals)
    requires Conserved(t)
    ensures InUnit(SeverityAccuracy(t)) && (t.tp > 0 ==> (SeverityAccuracy(t) == 1.0 <==> t.severityHits == t.tp))
  {
    E.RatioInUnit(t.severityHits, t.tp, if t.fn == 0 then 1.0 else 0.0);
  }

  lemma Rates(t: Totals)
    requires Conserved(t)
    ensures RatesMean(t, E.F1(Precision(t), Recall(t)), SeverityAccuracy(t), CleanAccuracy(t), SuccessRate(t))
  {
    F1Means(t);
    SeverityMeans(t);
    E.RatioInUnit(t.cleanHits, t.cleanTotal, 1.0);
    E.RatioInUnit(t.cases - t.errors, t.cases, 0.0);
    hide E.F1, E.Ratio, Precision, Recall, SeverityAccuracy;
  }

  lemma ScoreInUnit(t: Totals, f1: real, severity: real, clean: real, success: real)
    requires RatesMean(t, f1, severity, clean, success)
    ensures InUnit(Score(t, f1, severity, clean, success))
    ensures Score(t, f1, severity, clean, success) == 1.0 <==> Weighted(t, f1, severity, clean) == 1.0 && success == 1.0
  {
    WeightedInUnit(t, f1, severity, clean);
    hide Weighted;
    ProductOne(Weighted(t, f1, severity, clean), success);
  }

  lemma ScoreOne(t: Totals, f1: real, severity: real, clean: real, success: real)
    requires Conserved(t) && t.cases > 0 && RatesMean(t, f1, severity, clean, success)
    ensures Score(t, f1, severity, clean, success) == 1.0 <==> PerfectTotals(t)
  {
    WeightedInUnit(t, f1, severity, clean);
    ScoreInUnit(t, f1, severity, clean, success);
    hide Weighted, Score;
  }

  lemma OtherRates(t: Totals)
    requires Conserved(t)
    ensures InUnit(E.Ratio(t.highHits, t.highTotal, 1.0)) && InUnit(E.Ratio(t.fp, t.tp + t.fp, 0.0))
  {
    E.RatioInUnit(t.highHits, t.highTotal, 1.0);
    E.RatioInUnit(t.fp, t.tp + t.fp, 0.0);
  }

  lemma RatesInUnit(t: Totals, f1: real, severity: real, clean: real, success: real)
    requires RatesMean(t, f1, severity, clean, success)
    ensures InUnit(f1) && InUnit(severity) && InUnit(clean) && InUnit(success)
  {
  }

  /** Every rate and the score lie between zero and one. */
  lemma MetricsBounded(t: Totals)
    requires Conserved(t)
    ensures MetricsInUnit(MetricsOf(t))
  {
    hide E.F1, E.Ratio, Precision, Recall, SeverityAccuracy, CleanAccuracy, SuccessRate, Score, InUnit, RatesMean;
    F1Means(t);
    Rates(t);
    OtherRates(t);
    RatesInUnit(t, E.F1(Precision(t), Recall(t)), SeverityAccuracy(t), CleanAccuracy(t), SuccessRate(t));
    ScoreInUnit(t, E.F1(Precision(t), Recall(t)), SeverityAccuracy(t), CleanAccuracy(t), SuccessRate(t));
  }

  /** The score of a nonempty dataset is one exactly when nothing went wrong. */
  lemma ScorePerfect(t: Totals)
    requires Conserved(t) && t.cases > 0
    ensures MetricsOf(t).score == 1.0 <==> PerfectTotals(t)
  {
    hide E.F1, E.Ratio, Precision, Recall, SeverityAccuracy, CleanAccuracy, SuccessRate, Score, RatesMean;
    Rates(t);
    ScoreOne(t, E.F1(Precision(t), Recall(t)), SeverityAccuracy(t), CleanAccuracy(t), SuccessRate(t));
  }

  /**
   * What each metric is: every rate the quotient of its two totals, or its stated value where there
   * is nothing to count, and the score thirteen parts F1, three parts severity accuracy and four
   * parts clean accuracy, of those that apply, times the share of replays that worked.
   */
  lemma MetricsMean(t: Totals)
    requires Conserved(t)
    ensures
      var m := MetricsOf(t);
      var onlyWhenNothing := if t.tp + t.fn == 0 then 1.0 else 0.0;
      && E.RateOf(m.precision, t.tp, t.tp + t.fp, onlyWhenNothing) && E.RateOf(m.recall, t.tp, t.tp + t.fn, 1.0)
      && E.HarmonicMean(m.f1, m.precision, m.recall)
      && E.RateOf(m.severityAccuracy, t.severityHits, t.tp, if t.fn == 0 then 1.0 else 0.0)
      && E.RateOf(m.highSeverityRecall, t.highHits, t.highTotal, 1.0)
      && E.RateOf(m.cleanAccuracy, t.cleanHits, t.cleanTotal, 1.0)
      && E.RateOf(m.successRate, t.cases - t.errors, t.cases, 0.0)
      && E.RateOf(m.falsePositiveRate, t.fp, t.tp + t.fp, 0.0)
      && m.errors == t.errors && m.positiveCases == t.positiveCases && m.cleanCases == t.cleanTotal
      && MeanScore(t, m)
  {
    hide E.F1, E.Ratio, E.RateOf, E.HarmonicMean, InUnit, Score, Weighted, MeanScore;
    UnitEnds();
    E.RatioIsRate(t.tp, t.tp + t.fp, if t.tp + t.fn == 0 then 1.0 else 0.0);
    E.RatioIsRate(t.tp, t.tp + t.fn, 1.0);
    E.RatioIsRate(t.severityHits, t.tp, if t.fn == 0 then 1.0 else 0.0);
    E.RatioIsRate(t.highHits, t.highTotal, 1.0);
    E.RatioIsRate(t.cleanHits, t.cleanTotal, 1.0);
    E.RatioIsRate(t.cases - t.errors, t.cases, 0.0);
    E.RatioIsRate(t.fp, t.tp + t.fp, 0.0);
    F1Mean(t);
    ScoreMeans(t);
  }

  lemma UnitEnds()
    ensures InUnit(0.0) && InUnit(1.0)
  {
  }

  lemma F1Mean(t: Totals)
    requires Conserved(t)
    ensures E.HarmonicMean(E.F1(Precision(t), Recall(t)), Precision(t), Recall(t))
  {
    F1Means(t);
    hide Precision, Recall, E.F1;
    E.F1InUnit(Precision(t), Recall(t));
  }

  ghost predicate MeanScore(t: Totals, m: Metrics) {
    if t.expectedTotal > 0 && t.cleanTotal > 0
    then 20.0 * m.score == (13.0 * m.f1 + 3.0 * m.severityAccuracy + 4.0 * m.cleanAccuracy) * m.successRate
    else if t.expectedTotal > 0 then 16.0 * m.score == (13.0 * m.f1 + 3.0 * m.severityAccuracy) * m.successRate
    else if t.cleanTotal > 0 then m.score == m.cleanAccuracy * m.successRate
    else m.score == 0.0
  }

  lemma ScoreMeans(t: Totals)
    requires t.errors <= t.cases
    ensures MeanScore(t, MetricsOf(t))
  {
    hide E.F1, E.Ratio, Precision, Recall, SeverityAccuracy, CleanAccuracy, SuccessRate;
    var m := MetricsOf(t);
    WeightedParts(t, m.f1, m.severityAccuracy, m.cleanAccuracy);
    hide Weighted;
    var w := Weighted(t, m.f1, m.severityAccuracy, m.cleanAccuracy);
    assert m.score == w * m.successRate;
    if t.expectedTotal > 0 {
      TimesBoth(w, if t.cleanTotal > 0 then 20.0 else 16.0, m.successRate);
    }
  }

  lemma TimesBoth(w: real, k: real, x: real)
    ensures k * (w * x) == (k * w) * x
  {
  }

  lemma WeightedParts(t: Totals, f1: real, severity: real, clean: real)
    ensures var w := Weighted(t, f1, severity, clean);
      if t.expectedTotal > 0 && t.cleanTotal > 0 then 20.0 * w == 13.0 * f1 + 3.0 * severity + 4.0 * clean
      else if t.expectedTotal > 0 then 16.0 * w == 13.0 * f1 + 3.0 * severity
      else if t.cleanTotal > 0 then w == clean
      else w == 0.0
  {
  }

  function PositiveCases(cases: seq<Case>): nat {
    if cases == [] then 0 else PositiveCases(cases[..|cases| - 1]) + E.Bit(cases[|cases| - 1].expected != [])
  }

  lemma PlusOne(rs: seq<Replayed>, r: Replayed)
    requires AllAccounted(rs) && Accounted(r)
    ensures AllAccounted(rs + [r]) && TotalsOf(rs + [r]) == Plus(TotalsOf(rs), r)
  {
    assert (rs + [r])[..|rs|] == rs;
  }

  /** A result for every case, in order. */
  ghost predicate ReplaysAll(cases: seq<Case>, results: seq<Replayed>) {
    |results| == |cases| && forall i | 0 <= i < |cases| :: Replays(cases[i], results[i])
  }

  /** Which cases are clean is settled by the dataset, whatever the reviewer does. */
  lemma {:induction false} DatasetCounts(cases: seq<Case>, results: seq<Replayed>)
    requires ReplaysAll(cases, results)
    ensures AllAccounted(results)
    ensures TotalsOf(results).positiveCases == PositiveCases(cases)
    ensures TotalsOf(results).cleanTotal == |cases| - PositiveCases(cases)
    ensures TotalsOf(results).errors <= TotalsOf(results).cases
  {
    hide Replays, Accounted;
    if cases != [] {
      var n := |cases| - 1;
      DatasetCounts(cases[..n], results[..n]);
      ReplayAccounted(cases[n], results[n]);
      AccountedSigns(results[n]);
      PlusOne(results[..n], results[n]);
      assert results == results[..n] + [results[n]];
    }
  }

  lemma AccountedSigns(r: Replayed)
    requires Accounted(r)
    ensures r.fp >= 0 && r.fn >= 0
  {
  }

  /** Replays every case, counting as it goes. */
  method ReplayAll(cases: seq<Case>) returns (totals: Totals, results: seq<Replayed>)
    ensures ReplaysAll(cases, results) && AllAccounted(results) && totals == TotalsOf(results)
  {
    totals, results := Totals(0, 0, 0, 0, 0, 0, 0, 0, 0, 0, 0, 0, 0), [];
    hide Replays, Accounted, Plus;
    for i := 0 to |cases|
      invariant ReplaysAll(cases[..i], results) && AllAccounted(results) && totals == TotalsOf(results)
    {
      var r := ReplayCase(cases[i]);
      OneMoreReplay(cases, i, results, r);
      AccountedSigns(r);
      hide *;
      totals, results := Plus(totals, r), results + [r];
    }
    assert cases[..|cases|] == cases;
  }

  lemma OneMoreReplay(cases: seq<Case>, i: nat, results: seq<Replayed>, r: Replayed)
    requires i < |cases| && ReplaysAll(cases[..i], results) && AllAccounted(results) && Replays(cases[i], r)
    ensures Accounted(r) && ReplaysAll(cases[..i + 1], results + [r]) && AllAccounted(results + [r])
    ensures r.fp >= 0 && r.fn >= 0 && TotalsOf(results + [r]) == Plus(TotalsOf(results), r)
  {
    hide Replays, Accounted, Plus;
    ReplayAccounted(cases[i], r);
    AccountedSigns(r);
    PlusOne(results, r);
  }

  /** Replays the dataset against a reviewer and computes its metrics. */
  method Run(cases: seq<Case>) returns (m: Metrics, results: seq<Replayed>)
    ensures ReplaysAll(cases, results) && AllAccounted(results)
    ensures Conserved(TotalsOf(results)) && m == MetricsOf(TotalsOf(results)) && MetricsInUnit(m)
    ensures cases != [] ==> (m.score == 1.0 <==> forall r | r in results :: Perfect(r))
    ensures m.positiveCases == PositiveCases(cases) && m.cleanCases == |cases| - PositiveCases(cases)
  {
    var totals;
    totals, results := ReplayAll(cases);
    DatasetCounts(cases, results);
    TotalsConserve(results);
    MetricsBounded(totals);
    if cases != [] {
      ScorePerfect(totals);
    }
    CountsCopied(totals);
    hide *;
    m := MetricsOf(totals);
  }

  lemma CountsCopied(t: Totals)
    requires t.errors <= t.cases
    ensures MetricsOf(t).positiveCases == t.positiveCases && MetricsOf(t).cleanCases == t.cleanTotal
  {
  }
}
