/** Scoring of one evaluation case and of a whole dataset. */
module Evaluation {
  import opened Models
  import opened Matching

  datatype Repair = Passed | Rejected | Raised

  datatype CaseResult = CaseResult(
    expected: nat, predicted: nat, tp: nat, fp: nat, fn: nat,
    severityHits: nat, highTotal: nat, highHits: nat,
    cleanHit: bool, executionSuccess: bool,
    repairAttempted: nat, repairPassed: nat, e2eSuccess: bool,
    matches: seq<Match>, failed: bool)

  predicate IsHigh(s: Severity) {
    s.High? || s.Critical?
  }

  function HighCount(expected: seq<Truth>): nat {
    if expected == [] then 0
    else HighCount(expected[..|expected| - 1]) + if IsHigh(expected[|expected| - 1].severity) then 1 else 0
  }

  /** How many of the expected findings are high or critical. */
  lemma {:induction false} HighCountExactly(expected: seq<Truth>)
    ensures HighCount(expected) == |set i: nat | i < |expected| && expected[i].severity in {High, Critical}|
  {
    var high := set i: nat | i < |expected| && expected[i].severity in {High, Critical};
    if expected == [] {
      assert high == {};
    } else {
      var n, front := |expected| - 1, expected[..|expected| - 1];
      HighCountExactly(front);
      var before := set i: nat | i < n && front[i].severity in {High, Critical};
      assert high == before + if expected[n].severity in {High, Critical} then {n} else {};
    }
  }

  lemma {:induction false} HighCountGrows(expected: seq<Truth>, i: nat, j: nat)
    requires i <= j <= |expected|
    ensures HighCount(expected[..i]) <= HighCount(expected[..j]) <= HighCount(expected[..i]) + j - i
    decreases j
  {
    if i < j {
      assert expected[..j][..j - 1] == expected[..j - 1];
      HighCountGrows(expected, i, j - 1);
    }
  }

  /** What every case result satisfies, whatever the reviewer and the repairer did. */
  ghost predicate Accounted(r: CaseResult) {
    && r.tp + r.fn == r.expected
    && r.tp + r.fp == r.predicted
    && r.severityHits <= r.tp
    && r.highHits <= r.highTotal <= r.expected
    && r.repairPassed <= r.repairAttempted <= r.tp
    && (r.cleanHit ==> r.expected == 0)
    && (r.e2eSuccess ==> r.expected > 0 && r.fn == 0 && r.repairPassed == r.expected)
  }

  /** Matches in order of the expected finding, within both lists, none repeated. */
  predicate InOrder(matches: seq<Match>, expected: nat, predicted: nat) {
    && (forall i | 0 <= i < |matches| :: matches[i].expectedIndex < expected && matches[i].predictedIndex < predicted)
    && (forall i, j | 0 <= i < j < |matches| :: matches[i].expectedIndex < matches[j].expectedIndex)
    && (forall i, j | 0 <= i < j < |matches| :: matches[i].predictedIndex != matches[j].predictedIndex)
  }

  lemma DistinctBelow(xs: seq<nat>, bound: nat)
    requires forall i, j | 0 <= i < j < |xs| :: xs[i] != xs[j]
    requires forall i | 0 <= i < |xs| :: xs[i] < bound
    ensures |xs| <= bound
  {
    var m: map<nat, nat> := map i: nat | i in Range(|xs|) :: xs[i];
    ImageSize(m, Range(|xs|));
    SubsetSize((set i | i in Range(|xs|) :: m[i]), Range(bound));
  }

  lemma InOrderFits(matches: seq<Match>, expected: nat, predicted: nat)
    requires InOrder(matches, expected, predicted)
    ensures |matches| <= expected && |matches| <= predicted
  {
    DistinctBelow(seq(|matches|, i requires 0 <= i < |matches| => matches[i].expectedIndex), expected);
    DistinctBelow(seq(|matches|, i requires 0 <= i < |matches| => matches[i].predictedIndex), predicted);
  }

  function Bit(b: bool): nat {
    if b then 1 else 0
  }

  /** The severe truths among those up to and including the last match seen. */
  lemma HighSeen(expected: seq<Truth>, seen: nat, next: nat)
    requires seen <= next < |expected|
    ensures HighCount(expected[..seen]) + Bit(IsHigh(expected[next].severity)) <= HighCount(expected[..next + 1])
    ensures HighCount(expected[..next + 1]) <= HighCount(expected)
  {
    hide HighCount, IsHigh;
    HighCountGrows(expected, seen, next);
    HighCountGrows(expected, next + 1, |expected|);
    HighCountNext(expected, next);
    assert expected[..|expected|] == expected;
  }

  lemma HighCountNext(expected: seq<Truth>, n: nat)
    requires n < |expected|
    ensures HighCount(expected[..n + 1]) == HighCount(expected[..n]) + Bit(IsHigh(expected[n].severity))
  {
    hide IsHigh;
    assert expected[..n + 1][..n] == expected[..n];
  }

  /** The places of the matches that pass a test. */
  function Hits(matches: seq<Match>, test: Match -> bool): set<nat> {
    set i: nat | i < |matches| && test(matches[i])
  }

  lemma HitsNext(matches: seq<Match>, m: Match, test: Match -> bool)
    ensures |Hits(matches + [m], test)| == |Hits(matches, test)| + Bit(test(m))
  {
    var more := Hits(matches + [m], test);
    assert more == Hits(matches, test) + if test(m) then {|matches|} else {};
  }

  lemma NoHits(test: Match -> bool)
    ensures |Hits([], test)| == 0
  {
    assert Hits([], test) == {};
  }

  /** The reviewer reported the matched finding with the expected severity. */
  predicate SeverityAgrees(expected: seq<Truth>, findings: seq<Finding>, m: Match) {
    m.expectedIndex < |expected| && m.predictedIndex < |findings| &&
    findings[m.predictedIndex].severity == expected[m.expectedIndex].severity
  }

  predicate HighMatched(expected: seq<Truth>, m: Match) {
    m.expectedIndex < |expected| && expected[m.expectedIndex].severity in {High, Critical}
  }

  predicate Ends(repairer: Option<Match -> Repair>, m: Match, outcome: Repair) {
    repairer.Some? && repairer.value(m) == outcome
  }

  /**
   * The credited matches are counted exactly: those with the right severity, the severe ones, those
   * sent to repair and those repaired.  A repairer that raises ends the case after the match it
   * raised on, and otherwise every match is credited.
   */
  ghost predicate Credited(expected: seq<Truth>, findings: seq<Finding>, matches: seq<Match>,
                           repairer: Option<Match -> Repair>, r: CaseResult) {
    && r.matches <= matches
    && r.severityHits == |Hits(r.matches, m => SeverityAgrees(expected, findings, m))|
    && r.highHits == |Hits(r.matches, m => HighMatched(expected, m))|
    && r.repairAttempted == (if repairer.Some? then |r.matches| else 0)
    && r.repairPassed == |Hits(r.matches, m => Ends(repairer, m, Passed))|
    && (if r.failed then r.matches != [] && RaisesFirst(repairer, matches, |r.matches| - 1)
        else r.matches == matches && forall i | 0 <= i < |matches| :: !Ends(repairer, matches[i], Raised))
  }

  predicate RaisesFirst(repairer: Option<Match -> Repair>, matches: seq<Match>, k: nat) {
    && k < |matches| && Ends(repairer, matches[k], Raised)
    && forall i | 0 <= i < k :: !Ends(repairer, matches[i], Raised)
  }

  /** The counters after the first `n` matches. */
  ghost predicate Counted(expected: seq<Truth>, findings: seq<Finding>, repairer: Option<Match -> Repair>,
                          seen: seq<Match>, severityHits: nat, highHits: nat, passed: nat) {
    && severityHits == |Hits(seen, m => SeverityAgrees(expected, findings, m))|
    && highHits == |Hits(seen, m => HighMatched(expected, m))|
    && passed == |Hits(seen, m => Ends(repairer, m, Passed))|
  }

  lemma NoneCounted(expected: seq<Truth>, findings: seq<Finding>, repairer: Option<Match -> Repair>)
    ensures Counted(expected, findings, repairer, [], 0, 0, 0)
  {
    NoHits(m => SeverityAgrees(expected, findings, m));
    NoHits(m => HighMatched(expected, m));
    NoHits(m => Ends(repairer, m, Passed));
  }

  lemma CountedNext(expected: seq<Truth>, findings: seq<Finding>, repairer: Option<Match -> Repair>, seen: seq<Match>,
                    severityHits: nat, highHits: nat, passed: nat, m: Match)
    requires Counted(expected, findings, repairer, seen, severityHits, highHits, passed)
    ensures Counted(expected, findings, repairer, seen + [m],
                    severityHits + Bit(SeverityAgrees(expected, findings, m)), highHits + Bit(HighMatched(expected, m)),
                    passed + Bit(Ends(repairer, m, Passed)))
  {
    hide *;
    CountedMeans(expected, findings, repairer, seen, severityHits, highHits, passed);
    HitsNext(seen, m, n => SeverityAgrees(expected, findings, n));
    HitsNext(seen, m, n => HighMatched(expected, n));
    HitsNext(seen, m, n => Ends(repairer, n, Passed));
    CountedMeans(expected, findings, repairer, seen + [m], severityHits + Bit(SeverityAgrees(expected, findings, m)),
      highHits + Bit(HighMatched(expected, m)), passed + Bit(Ends(repairer, m, Passed)));
  }

  lemma CountedMeans(expected: seq<Truth>, findings: seq<Finding>, repairer: Option<Match -> Repair>, seen: seq<Match>,
                     severityHits: nat, highHits: nat, passed: nat)
    ensures Counted(expected, findings, repairer, seen, severityHits, highHits, passed) <==>
            && severityHits == |Hits(seen, m => SeverityAgrees(expected, findings, m))|
            && highHits == |Hits(seen, m => HighMatched(expected, m))|
            && passed == |Hits(seen, m => Ends(repairer, m, Passed))|
  {
    hide Hits, SeverityAgrees, HighMatched, Ends;
  }

  /** Where the scoring of a case stands after `n` matches, none of which raised. */
  ghost predicate Scoring(expected: seq<Truth>, findings: seq<Finding>, matches: seq<Match>,
                          repairer: Option<Match -> Repair>, n: nat, severityHits: nat, highHits: nat, passed: nat)
    requires n <= |matches|
  {
    && Counted(expected, findings, repairer, matches[..n], severityHits, highHits, passed)
    && severityHits <= n && HighWithin(expected, matches, n, highHits)
    && passed <= (if repairer.Some? then n else 0)
    && forall j | 0 <= j < n :: !Ends(repairer, matches[j], Raised)
  }

  /** The severe matches among the first `n` are among the severe truths up to the last of them. */
  ghost predicate HighWithin(expected: seq<Truth>, matches: seq<Match>, n: nat, highHits: nat)
    requires n <= |matches|
  {
    var seen := if n == 0 then 0 else matches[n - 1].expectedIndex + 1;
    seen <= |expected| && highHits <= HighCount(expected[..seen]) <= HighCount(expected) <= |expected|
  }

  lemma ScoringStarts(expected: seq<Truth>, findings: seq<Finding>, matches: seq<Match>,
                      repairer: Option<Match -> Repair>)
    ensures Scoring(expected, findings, matches, repairer, 0, 0, 0, 0)
  {
    NoneCounted(expected, findings, repairer);
    HighCountGrows(expected, 0, |expected|);
    assert expected[..|expected|] == expected && matches[..0] == [];
  }

  lemma HighWithinNext(expected: seq<Truth>, findings: nat, matches: seq<Match>, n: nat, highHits: nat)
    requires n < |matches| && InOrder(matches, |expected|, findings) && HighWithin(expected, matches, n, highHits)
    ensures HighWithin(expected, matches, n + 1, highHits + Bit(HighMatched(expected, matches[n])))
  {
    hide HighCount;
    HighSeen(expected, if n == 0 then 0 else matches[n - 1].expectedIndex + 1, matches[n].expectedIndex);
  }

  /** One more match, whatever its repair ends in. */
  lemma ScoringNext(expected: seq<Truth>, findings: seq<Finding>, matches: seq<Match>,
                    repairer: Option<Match -> Repair>, n: nat, severityHits: nat, highHits: nat, passed: nat)
    requires n < |matches| && InOrder(matches, |expected|, |findings|)
    requires Scoring(expected, findings, matches, repairer, n, severityHits, highHits, passed)
    ensures var m := matches[n];
      var severityHits', highHits' := severityHits + Bit(SeverityAgrees(expected, findings, m)),
                                      highHits + Bit(HighMatched(expected, m));
      var passed' := passed + Bit(Ends(repairer, m, Passed));
      && Counted(expected, findings, repairer, matches[..n + 1], severityHits', highHits', passed')
      && severityHits' <= n + 1 && HighWithin(expected, matches, n + 1, highHits')
      && passed' <= (if repairer.Some? then n + 1 else 0)
      && (!Ends(repairer, m, Raised) ==>
            Scoring(expected, findings, matches, repairer, n + 1, severityHits', highHits', passed'))
  {
    hide Counted, HighWithin, InOrder, SeverityAgrees, HighMatched, Ends;
    CountedNext(expected, findings, repairer, matches[..n], severityHits, highHits, passed, matches[n]);
    assert matches[..n + 1] == matches[..n] + [matches[n]];
    HighWithinNext(expected, |findings|, matches, n, highHits);
    NoRepairer(repairer, matches[n]);
  }

  lemma NoRepairer(repairer: Option<Match -> Repair>, m: Match)
    ensures repairer.None? ==> forall o :: !Ends(repairer, m, o)
  {
  }

  /** The same in terms of the truth and the finding of the match. */
  lemma ScoreOne(expected: seq<Truth>, findings: seq<Finding>, matches: seq<Match>,
                 repairer: Option<Match -> Repair>, n: nat, severityHits: nat, highHits: nat, passed: nat)
    requires n < |matches| && InOrder(matches, |expected|, |findings|)
    requires Scoring(expected, findings, matches, repairer, n, severityHits, highHits, passed)
    ensures matches[n].expectedIndex < |expected| && matches[n].predictedIndex < |findings|
    ensures
      var truth, finding := expected[matches[n].expectedIndex], findings[matches[n].predictedIndex];
      var hits, high := severityHits + Bit(finding.severity == truth.severity), highHits + Bit(IsHigh(truth.severity));
      if repairer.None? then Scoring(expected, findings, matches, repairer, n + 1, hits, high, passed)
      else
        var outcome := repairer.value(matches[n]);
        if outcome == Raised then CutOff(expected, findings, matches, repairer, n, hits, high, passed)
        else Scoring(expected, findings, matches, repairer, n + 1, hits, high, passed + Bit(outcome == Passed))
  {
    hide Scoring, Counted, HighWithin;
    ScoringNext(expected, findings, matches, repairer, n, severityHits, highHits, passed);
    NothingRaised(expected, findings, matches, repairer, n, severityHits, highHits, passed);
  }

  lemma NothingRaised(expected: seq<Truth>, findings: seq<Finding>, matches: seq<Match>,
                      repairer: Option<Match -> Repair>, n: nat, severityHits: nat, highHits: nat, passed: nat)
    requires n <= |matches|
    requires Scoring(expected, findings, matches, repairer, n, severityHits, highHits, passed)
    ensures forall j | 0 <= j < n :: !Ends(repairer, matches[j], Raised)
  {
    hide Ends, Counted;
  }

  /** The counters when the repairer raised on match `n`. */
  ghost predicate CutOff(expected: seq<Truth>, findings: seq<Finding>, matches: seq<Match>,
                         repairer: Option<Match -> Repair>, n: nat, severityHits: nat, highHits: nat, passed: nat)
    requires n < |matches|
  {
    && Counted(expected, findings, repairer, matches[..n + 1], severityHits, highHits, passed)
    && severityHits <= n + 1 && HighWithin(expected, matches, n + 1, highHits) && passed <= n + 1
    && RaisesFirst(repairer, matches, n)
  }

  /** The result of a case whose reviewer worked. */
  function CaseOf(expected: seq<Truth>, findings: seq<Finding>, matches: seq<Match>, severityHits: nat, highHits: nat,
                  attempted: nat, passed: nat, repairedAll: bool, credited: seq<Match>, failed: bool): CaseResult
    requires |matches| <= |expected| && |matches| <= |findings|
  {
    CaseResult(
      |expected|, |findings|, |matches|, |findings| - |matches|, |expected| - |matches|, severityHits,
      HighCount(expected), highHits, expected == [] && findings == [], true, attempted, passed, repairedAll, credited,
      failed)
  }

  /** What the result of a case says, apart from the counts of the credited matches. */
  ghost predicate CaseScored(expected: seq<Truth>, findings: seq<Finding>, matches: seq<Match>,
                             repairer: Option<Match -> Repair>, r: CaseResult) {
    && r.expected == |expected| && r.highTotal == HighCount(expected) && Accounted(r)
    && r.predicted == |findings| && r.tp == |matches| && Credited(expected, findings, matches, repairer, r)
    && (r.cleanHit <==> expected == [] && findings == []) && r.executionSuccess
    && (!r.failed && repairer.Some? ==>
          r.repairAttempted == r.tp && (r.e2eSuccess <==> expected != [] && r.fn == 0 && r.repairPassed == r.tp))
    && (repairer.None? ==> !r.failed && !r.e2eSuccess)
  }

  lemma CutOffScored(expected: seq<Truth>, findings: seq<Finding>, matches: seq<Match>,
                     repairer: Option<Match -> Repair>, n: nat, severityHits: nat, highHits: nat, passed: nat)
    requires n < |matches| && |matches| <= |expected| && |matches| <= |findings|
    requires CutOff(expected, findings, matches, repairer, n, severityHits, highHits, passed)
    ensures CaseScored(expected, findings, matches, repairer,
                       CaseOf(expected, findings, matches, severityHits, highHits, n + 1, passed, false,
                              matches[..n + 1], true))
  {
    hide Hits, SeverityAgrees, HighMatched, HighCount;
  }

  lemma AllScored(expected: seq<Truth>, findings: seq<Finding>, matches: seq<Match>, repairer: Option<Match -> Repair>,
                  severityHits: nat, highHits: nat, attempted: nat, passed: nat)
    requires |matches| <= |expected| && |matches| <= |findings|
    requires Scoring(expected, findings, matches, repairer, |matches|, severityHits, highHits, passed)
    requires attempted == if repairer.Some? then |matches| else 0
    ensures CaseScored(expected, findings, matches, repairer,
                       CaseOf(expected, findings, matches, severityHits, highHits, attempted, passed,
                              expected != [] && |matches| == |expected| && attempted == |expected|
                              && passed == |expected|, matches, false))
  {
    hide Hits, SeverityAgrees, HighMatched, Ends, HighCount;
    assert matches[..|matches|] == matches;
  }

  /** Credits the matches one by one; Raised abandons the rest of the case. */
  method ScoreMatches(expected: seq<Truth>, findings: seq<Finding>, matches: seq<Match>,
                      repairer: Option<Match -> Repair>)
    returns (r: CaseResult)
    requires InOrder(matches, |expected|, |findings|)
    ensures CaseScored(expected, findings, matches, repairer, r)
  {
    hide *;
    InOrderFits(matches, |expected|, |findings|);
    ScoringStarts(expected, findings, matches, repairer);
    var severityHits: nat, highHits: nat, attempted: nat, passed: nat := 0, 0, 0, 0;
    for i := 0 to |matches|
      invariant Scoring(expected, findings, matches, repairer, i, severityHits, highHits, passed)
      invariant attempted == if repairer.Some? then i else 0
    {
      ScoreOne(expected, findings, matches, repairer, i, severityHits, highHits, passed);
      var truth, finding := expected[matches[i].expectedIndex], findings[matches[i].predictedIndex];
      severityHits := severityHits + Bit(finding.severity == truth.severity);
      highHits := highHits + Bit(IsHigh(truth.severity));
      if repairer.Some? {
        attempted := attempted + 1;
        var outcome := repairer.value(matches[i]);
        if outcome == Raised {
          CutOffScored(expected, findings, matches, repairer, i, severityHits, highHits, passed);
          return CaseOf(expected, findings, matches, severityHits, highHits, attempted, passed, false, matches[..i + 1],
            true);
        }
        passed := passed + Bit(outcome == Passed);
      }
    }
    AllScored(expected, findings, matches, repairer, severityHits, highHits, attempted, passed);
    return CaseOf(expected, findings, matches, severityHits, highHits, attempted, passed,
      expected != [] && |matches| == |expected| && attempted == |expected| && passed == |expected|, matches, false);
  }

  /**
   * Scores one case.  `review` is what the reviewer returned (None when it raised);
   * `repairer` says how the repair of each match ends.
   */
  method RunCase(expected: seq<Truth>, review: Option<seq<Finding>>, tolerance: int, table: CweTable,
                 repairer: Option<Match -> Repair>)
    returns (r: CaseResult, ghost matches: seq<Match>)
    ensures r.expected == |expected| && r.highTotal == HighCount(expected) && Accounted(r)
    ensures review.Some? ==> r.predicted == |review.value|
    ensures review.Some? ==> MaximumSize(expected, review.value, tolerance, table, r.tp)
    ensures review.Some? ==> ValidMatches(expected, review.value, tolerance, table, matches) && r.tp == |matches|
    ensures review.Some? ==> NearestTaken(expected, review.value, tolerance, table, matches)
    ensures review.Some? ==> CaseScored(expected, review.value, matches, repairer, r)
    ensures review.Some? ==> (r.cleanHit <==> expected == [] && review.value == [])
    ensures review.None? ==> r.failed && r.predicted == 0 && r.tp == 0 && !r.cleanHit && r.repairAttempted == 0
    ensures r.executionSuccess <==> review.Some?
    ensures !r.failed && repairer.Some?
        ==> r.repairAttempted == r.tp && (r.e2eSuccess <==> expected != [] && r.fn == 0 && r.repairPassed == r.tp)
    ensures repairer.None? ==> !r.e2eSuccess
  {
    if review.None? {
      HighCountGrows(expected, 0, |expected|);
      assert expected[..|expected|] == expected;
      return CaseResult(|expected|, 0, 0, 0, |expected|, 0, HighCount(expected), 0, false, false, 0, 0, false, [],
        true), [];
    }
    var found := OneToOneMatch(expected, review.value, tolerance, table);
    MatchesInOrder(expected, review.value, tolerance, table, found);
    hide MaximumSize, ValidMatches, NearestTaken, OthersCrowdedOut, Credited, HighCount, OneToOne, Accounted;
    matches := found;
    r := ScoreMatches(expected, review.value, found, repairer);
  }

  lemma MatchesInOrder(expected: seq<Truth>, findings: seq<Finding>, tolerance: int, table: CweTable,
                       matches: seq<Match>)
    requires ValidMatches(expected, findings, tolerance, table, matches)
    ensures InOrder(matches, |expected|, |findings|)
  {
    assert forall i | 0 <= i < |matches| :: matches[i] in matches;
  }

  // ---- Dataset totals -----------------------------------------------------

  datatype Totals = Totals(
    cases: nat, riskCases: nat, cleanCases: nat, tp: nat, fp: nat, fn: nat,
    severityHits: nat, highTotal: nat, highHits: nat, cleanHits: nat,
    executionSuccesses: nat, repairAttempted: nat, repairPassed: nat, e2eSuccesses: nat)

  const EMPTY_TOTALS := Totals(0, 0, 0, 0, 0, 0, 0, 0, 0, 0, 0, 0, 0, 0)

  function Accumulate(t: Totals, r: CaseResult): Totals {
    Totals(
      t.cases + 1, t.riskCases + Bit(r.expected > 0), t.cleanCases + Bit(r.expected == 0),
      t.tp + r.tp, t.fp + r.fp, t.fn + r.fn,
      t.severityHits + r.severityHits, t.highTotal + r.highTotal, t.highHits + r.highHits,
      t.cleanHits + Bit(r.cleanHit), t.executionSuccesses + Bit(r.executionSuccess),
      t.repairAttempted + r.repairAttempted, t.repairPassed + r.repairPassed, t.e2eSuccesses + Bit(r.e2eSuccess))
  }

  function TotalsOf(results: seq<CaseResult>): Totals {
    if results == [] then EMPTY_TOTALS
    else Accumulate(TotalsOf(results[..|results| - 1]), results[|results| - 1])
  }

  /** The sum of one count over the cases. */
  function Sum(results: seq<CaseResult>, count: CaseResult -> nat): nat {
    if results == [] then 0 else Sum(results[..|results| - 1], count) + count(results[|results| - 1])
  }

  /** Each total is the sum of its own count. */
  lemma {:induction false} TotalsAreSums(results: seq<CaseResult>)
    ensures var t := TotalsOf(results);
      && t.cases == |results|
      && t.riskCases == Sum(results, (r: CaseResult) => Bit(r.expected > 0))
      && t.cleanCases == Sum(results, (r: CaseResult) => Bit(r.expected == 0))
      && t.tp == Sum(results, (r: CaseResult) => r.tp)
      && t.fp == Sum(results, (r: CaseResult) => r.fp)
      && t.fn == Sum(results, (r: CaseResult) => r.fn)
      && t.severityHits == Sum(results, (r: CaseResult) => r.severityHits)
      && t.highTotal == Sum(results, (r: CaseResult) => r.highTotal)
      && t.highHits == Sum(results, (r: CaseResult) => r.highHits)
      && t.cleanHits == Sum(results, (r: CaseResult) => Bit(r.cleanHit))
      && t.executionSuccesses == Sum(results, (r: CaseResult) => Bit(r.executionSuccess))
      && t.repairAttempted == Sum(results, (r: CaseResult) => r.repairAttempted)
      && t.repairPassed == Sum(results, (r: CaseResult) => r.repairPassed)
      && t.e2eSuccesses == Sum(results, (r: CaseResult) => Bit(r.e2eSuccess))
  {
    hide Bit;
    if results != [] {
      TotalsAreSums(results[..|results| - 1]);
    }
  }

  function ExpectedSum(results: seq<CaseResult>): nat {
    if results == [] then 0 else ExpectedSum(results[..|results| - 1]) + results[|results| - 1].expected
  }

  function PredictedSum(results: seq<CaseResult>): nat {
    if results == [] then 0 else PredictedSum(results[..|results| - 1]) + results[|results| - 1].predicted
  }

  /** Nothing is lost or invented in the totals, and every numerator stays below its denominator. */
  lemma {:induction false} TotalsConserve(results: seq<CaseResult>)
    requires forall r | r in results :: Accounted(r)
    ensures var t := TotalsOf(results);
      && t.tp + t.fn == ExpectedSum(results) && t.tp + t.fp == PredictedSum(results)
      && t.cases == |results| == t.riskCases + t.cleanCases
      && t.severityHits <= t.tp && t.highHits <= t.highTotal && t.cleanHits <= t.cleanCases
      && t.executionSuccesses <= t.cases && t.repairPassed <= t.repairAttempted && t.e2eSuccesses <= t.riskCases
  {
    if results != [] {
      TotalsConserve(results[..|results| - 1]);
      assert Accounted(results[|results| - 1]);
    }
  }

  /** One rate of the metrics block; an empty denominator gives the stated default. */
  function Ratio(numerator: nat, denominator: nat, empty: real): real {
    if denominator == 0 then empty else numerator as real / denominator as real
  }

  function F1(precision: real, recall: real): real {
    if precision + recall == 0.0 then 0.0 else 2.0 * precision * recall / (precision + recall)
  }

  lemma RatioInUnit(numerator: nat, denominator: nat, empty: real)
    requires numerator <= denominator && 0.0 <= empty <= 1.0
    ensures 0.0 <= Ratio(numerator, denominator, empty) <= 1.0
    ensures denominator > 0 ==> (Ratio(numerator, denominator, empty) == 1.0 <==> numerator == denominator)
    ensures denominator > 0 ==> (Ratio(numerator, denominator, empty) == 0.0 <==> numerator == 0)
  {
    if denominator > 0 {
      var q := Ratio(numerator, denominator, empty);
      assert q * denominator as real == numerator as real;
    }
  }

  datatype Rates = Rates(
    precision: real, recall: real, f1: real, severityAccuracy: real, highRiskRecall: real, cleanAccuracy: real,
    executionSuccessRate: real, safeFixRate: real, e2eFixRate: real)

  /** The rates of a dataset. */
  function RatesOf(t: Totals): Rates {
    var precision, recall := Ratio(t.tp, t.tp + t.fp, 0.0), Ratio(t.tp, t.tp + t.fn, 1.0);
    Rates(
      precision, recall, F1(precision, recall), Ratio(t.severityHits, t.tp, 1.0), Ratio(t.highHits, t.highTotal, 1.0),
      Ratio(t.cleanHits, t.cleanCases, 1.0), Ratio(t.executionSuccesses, t.cases, 0.0),
      Ratio(t.repairPassed, t.repairAttempted, 0.0), Ratio(t.e2eSuccesses, t.riskCases, 0.0))
  }

  /** A rate between zero and one with the right quotient, or with the stated value where there is nothing to count. */
  ghost predicate RateOf(rate: real, numerator: nat, denominator: nat, empty: real) {
    && InUnit(rate) && rate * denominator as real == numerator as real
    && (denominator == 0 ==> rate == empty)
  }

  lemma RatioIsRate(numerator: nat, denominator: nat, empty: real)
    requires numerator <= denominator && InUnit(empty)
    ensures RateOf(Ratio(numerator, denominator, empty), numerator, denominator, empty)
  {
    RatioInUnit(numerator, denominator, empty);
  }

  ghost predicate HarmonicMean(mean: real, a: real, b: real) {
    InUnit(mean) && mean * (a + b) == 2.0 * (a * b) && (a + b == 0.0 ==> mean == 0.0)
  }

  /**
   * Every rate is that of its own two totals; a dataset without the cases a rate is about counts as
   * faultless for the recalls and accuracies, and as zero for precision and the success rates.
   */
  lemma RatesMean(results: seq<CaseResult>)
    requires forall r | r in results :: Accounted(r)
    ensures var t, m := TotalsOf(results), RatesOf(TotalsOf(results));
      && RateOf(m.precision, t.tp, t.tp + t.fp, 0.0) && RateOf(m.recall, t.tp, t.tp + t.fn, 1.0)
      && RateOf(m.severityAccuracy, t.severityHits, t.tp, 1.0) && RateOf(m.highRiskRecall, t.highHits, t.highTotal, 1.0)
      && RateOf(m.cleanAccuracy, t.cleanHits, t.cleanCases, 1.0)
      && RateOf(m.executionSuccessRate, t.executionSuccesses, t.cases, 0.0)
      && RateOf(m.safeFixRate, t.repairPassed, t.repairAttempted, 0.0)
      && RateOf(m.e2eFixRate, t.e2eSuccesses, t.riskCases, 0.0)
      && HarmonicMean(m.f1, m.precision, m.recall)
  {
    TotalsConserve(results);
    var t := TotalsOf(results);
    hide Ratio, TotalsOf, F1, RateOf, Accounted, HarmonicMean;
    RatioIsRate(t.tp, t.tp + t.fp, 0.0);
    RatioIsRate(t.tp, t.tp + t.fn, 1.0);
    RatioIsRate(t.severityHits, t.tp, 1.0);
    RatioIsRate(t.highHits, t.highTotal, 1.0);
    RatioIsRate(t.cleanHits, t.cleanCases, 1.0);
    RatioIsRate(t.executionSuccesses, t.cases, 0.0);
    RatioIsRate(t.repairPassed, t.repairAttempted, 0.0);
    RatioIsRate(t.e2eSuccesses, t.riskCases, 0.0);
    F1IsMean(t.tp, t.tp + t.fp, t.tp + t.fn);
  }

  lemma F1IsMean(tp: nat, predicted: nat, expected: nat)
    requires tp <= predicted && tp <= expected
    ensures var p, r := Ratio(tp, predicted, 0.0), Ratio(tp, expected, 1.0);
      HarmonicMean(F1(p, r), p, r)
  {
    hide Ratio, F1;
    RatioInUnit(tp, predicted, 0.0);
    RatioInUnit(tp, expected, 1.0);
    F1InUnit(Ratio(tp, predicted, 0.0), Ratio(tp, expected, 1.0));
  }

  lemma ProductSign(a: real, b: real)
    requires a >= 0.0 && b >= 0.0
    ensures a * b >= 0.0
    ensures a * b == 0.0 <==> a == 0.0 || b == 0.0
  {
  }

  lemma F1InUnit(p: real, r: real)
    requires 0.0 <= p <= 1.0 && 0.0 <= r <= 1.0
    ensures 0.0 <= F1(p, r) <= 1.0
    ensures F1(p, r) == 1.0 <==> p == 1.0 && r == 1.0
    ensures F1(p, r) * (p + r) == 2.0 * (p * r) && (p + r == 0.0 ==> F1(p, r) == 0.0)
  {
    var sum := p + r;
    if sum != 0.0 {
      var q := F1(p, r);
      var gap := p * (1.0 - r) + r * (1.0 - p);
      ProductSign(p, 1.0 - r);
      ProductSign(r, 1.0 - p);
      ProductSign(p, r);
      assert q == 2.0 * p * r / sum;
      assert gap == sum - 2.0 * p * r;
      QuotientInUnit(2.0 * p * r, sum);
    }
  }

  lemma QuotientInUnit(a: real, b: real)
    requires 0.0 <= a <= b && b > 0.0
    ensures 0.0 <= a / b <= 1.0
    ensures a / b == 1.0 <==> a == b
  {
    var q := a / b;
    assert q * b == a;
  }

  /** A dataset scores a perfect F1 exactly when nothing expected was missed and nothing else was reported. */
  lemma PerfectF1(results: seq<CaseResult>)
    requires forall r | r in results :: Accounted(r)
    requires ExpectedSum(results) > 0
    ensures var t := TotalsOf(results);
      var f1 := RatesOf(t).f1;
      0.0 <= f1 <= 1.0 && (f1 == 1.0 <==> t.fp == 0 && t.fn == 0)
  {
    TotalsConserve(results);
    var t := TotalsOf(results);
    hide Accounted, TotalsOf, F1, Ratio;
    RatioInUnit(t.tp, t.tp + t.fp, 0.0);
    RatioInUnit(t.tp, t.tp + t.fn, 1.0);
    F1InUnit(Ratio(t.tp, t.tp + t.fp, 0.0), Ratio(t.tp, t.tp + t.fn, 1.0));
  }
}
