/** Multi-agent review: critique with revisions, independent verification and arbitration. */
module Agents {
  import opened Models
  import Ordering

  function Keys(fs: seq<Finding>): (r: seq<FindingKey>)
    ensures |r| == |fs|
  {
    seq(|fs|, i requires 0 <= i < |fs| => KeyOf(fs[i]))
  }

  ghost predicate UniqueKeys(fs: seq<Finding>) {
    forall i, j | 0 <= i < j < |fs| :: KeyOf(fs[i]) != KeyOf(fs[j])
  }

  ghost predicate IsLast(fs: seq<Finding>, i: nat) {
    i < |fs| && forall j | i < j < |fs| :: KeyOf(fs[j]) != KeyOf(fs[i])
  }

  ghost predicate IsFirst(fs: seq<Finding>, i: nat) {
    i < |fs| && forall j | 0 <= j < i :: KeyOf(fs[j]) != KeyOf(fs[i])
  }

  /** A dictionary filled front to back over the findings: for each key it holds the value of the last one. */
  ghost predicate LastDecides<T(!new)>(fs: seq<Finding>, dict: map<FindingKey, T>, value: Finding -> T) {
    && (forall i: nat | i < |fs| :: KeyOf(fs[i]) in dict)
    && (forall i: nat | IsLast(fs, i) :: dict[KeyOf(fs[i])] == value(fs[i]))
  }

  ghost predicate KeysWithin<T(!new)>(dict: map<FindingKey, T>, fs: seq<Finding>) {
    forall k | k in dict :: k in Keys(fs)
  }

  lemma LastStep<T(!new)>(front: seq<Finding>, f: Finding, dict: map<FindingKey, T>, value: Finding -> T)
    requires LastDecides(front, dict, value)
    ensures LastDecides(front + [f], dict[KeyOf(f) := value(f)], value)
  {
    var more, after := front + [f], dict[KeyOf(f) := value(f)];
    forall i: nat | IsLast(more, i)
      ensures after[KeyOf(more[i])] == value(more[i])
    {
      if i < |front| {
        assert more[|front|] == f;
        assert IsLast(front, i) by {
          forall j | i < j < |front|
            ensures KeyOf(front[j]) != KeyOf(front[i])
          {
            assert more[j] == front[j];
          }
        }
      }
    }
  }

  /** One more entry, for the next finding. */
  lemma NextEntry<T(!new)>(fs: seq<Finding>, n: nat, dict: map<FindingKey, T>, value: Finding -> T)
    requires n < |fs| && LastDecides(fs[..n], dict, value) && KeysWithin(dict, fs)
    ensures LastDecides(fs[..n + 1], dict[KeyOf(fs[n]) := value(fs[n])], value)
    ensures KeysWithin(dict[KeyOf(fs[n]) := value(fs[n])], fs)
  {
    assert fs[..n + 1] == fs[..n] + [fs[n]];
    assert Keys(fs)[n] == KeyOf(fs[n]);
    hide Keys, LastDecides;
    LastStep(fs[..n], fs[n], dict, value);
  }

  // ---- The critic -------------------------------------------------------------------

  datatype Objection = NotAnAddedLine | EvidenceMismatch | VagueExplanation | NoRemediation | NoTest

  datatype Critique = Critique(
    key: FindingKey, accepted: bool, objections: seq<Objection>, adjustment: real, needsEvidence: bool,
      requiresRevision: bool, round: nat)

  predicate OnAddedLine(f: Finding, added: seq<ChangedLine>) {
    exists l | l in added :: l.path == f.path && l.line == f.line
  }

  /** The content of the first added line at the finding's place. */
  function SourceLine(f: Finding, added: seq<ChangedLine>): string {
    if added == [] then ""
    else if added[0].path == f.path && added[0].line == f.line then added[0].content
    else SourceLine(f, added[1..])
  }

  predicate Contains(part: string, s: string) {
    part <= s || (s != "" && Contains(part, s[1..]))
  }

  predicate Quotes(f: Finding, added: seq<ChangedLine>) {
    f.evidence != "" && Contains(Strip(f.evidence), Strip(SourceLine(f, added)))
  }

  function If(condition: bool, o: Objection): seq<Objection> {
    if condition then [o] else []
  }

  function Objections(f: Finding, added: seq<ChangedLine>): seq<Objection> {
    If(!OnAddedLine(f, added), NotAnAddedLine)
    + If(!Quotes(f, added), EvidenceMismatch)
    + If(|Strip(f.explanation)| < 12, VagueExplanation)
    + If(|Strip(f.fix)| < 8, NoRemediation)
    + If(|Strip(f.test)| < 8, NoTest)
  }

  function Challenge(f: Finding, added: seq<ChangedLine>, sources: nat, round: nat): Critique {
    var objections := Objections(f, added);
    Critique(
      KeyOf(f), objections == [], objections,
      if objections != [] then -0.35 else if sources > 1 then 0.08 else 0.03,
      sources < 2 && f.severity in {Critical, High}, objections != [], round)
  }

  /** `part` stands somewhere in `s`. */
  ghost predicate Occurs(part: string, s: string) {
    exists i, j :: 0 <= i <= j <= |s| && s[i..j] == part
  }

  lemma {:induction false} ContainsExactly(part: string, s: string)
    ensures Contains(part, s) <==> Occurs(part, s)
  {
    if part <= s {
      assert s[0..|part|] == part;
    } else if s != "" {
      ContainsExactly(part, s[1..]);
      if Occurs(part, s[1..]) {
        var i, j :| 0 <= i <= j <= |s[1..]| && s[1..][i..j] == part;
        assert s[i + 1..j + 1] == part;
      }
      if Occurs(part, s) {
        var i, j :| 0 <= i <= j <= |s| && s[i..j] == part;
        assert i == 0 ==> part <= s;
        assert s[1..][i - 1..j - 1] == part;
      }
    }
  }

  /** The first added line at the finding's place. */
  ghost predicate LineOf(f: Finding, added: seq<ChangedLine>, i: nat) {
    && i < |added| && added[i].path == f.path && added[i].line == f.line
    && forall j | 0 <= j < i :: added[j].path != f.path || added[j].line != f.line
  }

  lemma {:induction false} SourceLineIs(f: Finding, added: seq<ChangedLine>)
    ensures OnAddedLine(f, added) <==> exists i: nat :: LineOf(f, added, i)
    ensures forall i: nat | LineOf(f, added, i) :: SourceLine(f, added) == added[i].content
    ensures !OnAddedLine(f, added) ==> SourceLine(f, added) == ""
  {
    if added != [] {
      var rest := added[1..];
      SourceLineIs(f, rest);
      OnLaterLine(f, added);
      forall i: nat {
        LineOfLater(f, added, i);
      }
      hide LineOf, OnAddedLine;
      if added[0].path == f.path && added[0].line == f.line {
        assert LineOf(f, added, 0);
      } else if OnAddedLine(f, rest) {
        var i: nat :| LineOf(f, rest, i);
        assert LineOf(f, added, i + 1);
      }
    }
  }

  lemma OnLaterLine(f: Finding, added: seq<ChangedLine>)
    requires added != []
    ensures OnAddedLine(f, added)
       <==> (added[0].path == f.path && added[0].line == f.line) || OnAddedLine(f, added[1..])
  {
    assert forall l :: l in added <==> l == added[0] || l in added[1..];
  }

  lemma LineOfLater(f: Finding, added: seq<ChangedLine>, i: nat)
    requires added != []
    ensures LineOf(f, added, 0) <==> added[0].path == f.path && added[0].line == f.line
    ensures !LineOf(f, added, 0) ==> (LineOf(f, added, i + 1) <==> LineOf(f, added[1..], i))
    ensures LineOf(f, added, 0) ==> !LineOf(f, added, i + 1)
    ensures LineOf(f, added[1..], i) ==> i + 1 < |added| && added[1..][i] == added[i + 1]
  {
    var rest := added[1..];
    assert forall j | 0 <= j < |rest| :: rest[j] == added[j + 1];
    if LineOf(f, added, i + 1) {
      forall j | 0 <= j < i
        ensures rest[j].path != f.path || rest[j].line != f.line
      {
        assert rest[j] == added[j + 1];
      }
    }
    if LineOf(f, rest, i) && !LineOf(f, added, 0) {
      forall j | 0 <= j < i + 1
        ensures added[j].path != f.path || added[j].line != f.line
      {
        assert j > 0 ==> rest[j - 1] == added[j];
      }
    }
  }

  /** The evidence, but for white space around it, stands in the first added line at the finding's place. */
  ghost predicate EvidenceStands(f: Finding, added: seq<ChangedLine>) {
    && f.evidence != ""
    && exists i: nat :: LineOf(f, added, i) && Occurs(Strip(f.evidence), Strip(added[i].content))
  }

  lemma QuotesExactly(f: Finding, added: seq<ChangedLine>)
    ensures OnAddedLine(f, added) ==> (Quotes(f, added) <==> EvidenceStands(f, added))
  {
    hide Contains, Occurs, Strip, SourceLine, OnAddedLine, LineOf;
    SourceLineIs(f, added);
    ContainsExactly(Strip(f.evidence), Strip(SourceLine(f, added)));
  }

  /**
   * What no objection means: the finding is on an added line, quotes it, explains itself in a dozen
   * characters, and has a fix and a test of eight.  The critic raises or lowers the confidence by
   * that and by how many sources there are, and wants more evidence for a grave finding of one source.
   */
  lemma Accepted(f: Finding, added: seq<ChangedLine>, sources: nat, round: nat)
    ensures var c := Challenge(f, added, sources, round);
      && (c.accepted <==>
            && (exists i: nat :: LineOf(f, added, i)) && EvidenceStands(f, added)
            && |Strip(f.explanation)| >= 12 && |Strip(f.fix)| >= 8 && |Strip(f.test)| >= 8)
      && (c.requiresRevision <==> !c.accepted) && (c.accepted <==> c.objections == []) && c.round == round
      && c.adjustment * 100.0 == (if !c.accepted then -35.0 else if sources > 1 then 8.0 else 3.0)
      && (c.needsEvidence <==> sources <= 1 && (f.severity == Critical || f.severity == High))
  {
    hide Quotes, OnAddedLine, Strip, LineOf, EvidenceStands;
    SourceLineIs(f, added);
    QuotesExactly(f, added);
  }

  /** Which objections are raised, each on its own. */
  lemma ObjectionsExactly(f: Finding, added: seq<ChangedLine>)
    ensures var o := Objections(f, added);
      && (NotAnAddedLine in o <==> !OnAddedLine(f, added)) && (EvidenceMismatch in o <==> !Quotes(f, added))
      && (VagueExplanation in o <==> |Strip(f.explanation)| < 12) && (NoRemediation in o <==> |Strip(f.fix)| < 8)
      && (NoTest in o <==> |Strip(f.test)| < 8)
  {
    hide Quotes, OnAddedLine, Strip;
  }

  // ---- Deliberation -------------------------------------------------------------------

  /** The setting of a deliberation: the diff, how many sources a key has, and the answers to revision requests. */
  datatype Panel = Panel(added: seq<ChangedLine>, sources: FindingKey -> nat, respond: (nat, nat) -> seq<Finding>)
  {
    function Verdict(f: Finding, round: nat): Critique {
      Challenge(f, added, sources(KeyOf(f)), round)
    }
  }

  /** The critiques are exactly the verdicts on the findings, a key's last finding deciding. */
  ghost predicate Verdicts(panel: Panel, critiques: map<FindingKey, Critique>, fs: seq<Finding>, round: nat) {
    KeysWithin(critiques, fs) && LastDecides(fs, critiques, f => panel.Verdict(f, round))
  }

  /** The findings the critic objects to, in order. */
  function ToRevise(fs: seq<Finding>, added: seq<ChangedLine>): (r: seq<Finding>)
    ensures forall f :: f in r <==> f in fs && Objections(f, added) != []
  {
    if fs == [] then []
    else
      var front, last := fs[..|fs| - 1], fs[|fs| - 1];
      assert fs == front + [last];
      ToRevise(front, added) + if Objections(last, added) != [] then [last] else []
  }

  /** One round of critiques. */
  method CritiqueAll(panel: Panel, fs: seq<Finding>, round: nat, before: map<FindingKey, Critique>)
    returns (critiques: map<FindingKey, Critique>, revisions: seq<Finding>)
    requires KeysWithin(before, fs)
    ensures Verdicts(panel, critiques, fs, round) && KeysWithin(critiques, fs) && revisions == ToRevise(fs, panel.added)
  {
    hide *;
    critiques, revisions := before, [];
    NoneCritiqued(panel, fs, round, before);
    for i := 0 to |fs|
      invariant Critiqued(panel, critiques, fs, i, round) && revisions == ToRevise(fs[..i], panel.added)
    {
      CritiquedNext(panel, critiques, fs, i, round);
      RevisionNeeded(panel, fs, i, round);
      var critique := panel.Verdict(fs[i], round);
      critiques := critiques[KeyOf(fs[i]) := critique];
      if critique.requiresRevision {
        revisions := revisions + [fs[i]];
      }
    }
    AllCritiqued(panel, critiques, fs, round);
  }

  /** The critiques after the first `n` findings of a round. */
  ghost predicate Critiqued(panel: Panel, critiques: map<FindingKey, Critique>, fs: seq<Finding>, n: nat, round: nat)
    requires n <= |fs|
  {
    KeysWithin(critiques, fs) && LastDecides(fs[..n], critiques, f => panel.Verdict(f, round))
  }

  lemma NoneCritiqued(panel: Panel, fs: seq<Finding>, round: nat, before: map<FindingKey, Critique>)
    requires KeysWithin(before, fs)
    ensures Critiqued(panel, before, fs, 0, round) && ToRevise(fs[..0], panel.added) == []
  {
    hide KeysWithin;
  }

  lemma CritiquedNext(panel: Panel, critiques: map<FindingKey, Critique>, fs: seq<Finding>, n: nat, round: nat)
    requires n < |fs| && Critiqued(panel, critiques, fs, n, round)
    ensures Critiqued(panel, critiques[KeyOf(fs[n]) := panel.Verdict(fs[n], round)], fs, n + 1, round)
  {
    hide LastDecides, KeysWithin, Panel.Verdict;
    NextEntry(fs, n, critiques, f => panel.Verdict(f, round));
  }

  lemma AllCritiqued(panel: Panel, critiques: map<FindingKey, Critique>, fs: seq<Finding>, round: nat)
    requires Critiqued(panel, critiques, fs, |fs|, round)
    ensures Verdicts(panel, critiques, fs, round) && KeysWithin(critiques, fs) && fs[..|fs|] == fs
  {
    hide LastDecides, KeysWithin, Panel.Verdict;
    assert fs[..|fs|] == fs;
  }

  lemma RevisionNeeded(panel: Panel, fs: seq<Finding>, n: nat, round: nat)
    requires n < |fs|
    ensures ToRevise(fs[..n + 1], panel.added)
         == ToRevise(fs[..n], panel.added) + if panel.Verdict(fs[n], round).requiresRevision then [fs[n]] else []
  {
    hide Objections;
    assert fs[..n + 1][..n] == fs[..n];
  }

  /** `answer` is the first of the answers that is about key `k`. */
  ghost predicate IsFirstAnswer(answers: seq<Finding>, k: FindingKey, answer: Finding) {
    exists j: nat :: IsFirst(answers, j) && KeyOf(answers[j]) == k && answers[j] == answer
  }

  function Match(answers: seq<Finding>, k: FindingKey): (r: Option<Finding>)
    ensures r.None? <==> forall a | a in answers :: KeyOf(a) != k
    ensures r.Some? ==> IsFirstAnswer(answers, k, r.value) && KeyOf(r.value) == k
  {
    if answers == [] then None
    else if KeyOf(answers[0]) == k then
      assert IsFirst(answers, 0);
      Some(answers[0])
    else
      var r := Match(answers[1..], k);
      FirstAnswerLater(answers, k, r);
      r
  }

  lemma FirstAnswerLater(answers: seq<Finding>, k: FindingKey, r: Option<Finding>)
    requires answers != [] && KeyOf(answers[0]) != k
    requires r.Some? ==> IsFirstAnswer(answers[1..], k, r.value)
    ensures r.Some? ==> IsFirstAnswer(answers, k, r.value)
  {
    if r.Some? {
      var j: nat :| IsFirst(answers[1..], j) && KeyOf(answers[1..][j]) == k && answers[1..][j] == r.value;
      assert IsFirst(answers, j + 1);
    }
  }

  function Replaced(fs: seq<Finding>, revised: map<FindingKey, Finding>): (r: seq<Finding>)
    ensures |r| == |fs|
  {
    seq(|fs|, i requires 0 <= i < |fs| => if KeyOf(fs[i]) in revised then revised[KeyOf(fs[i])] else fs[i])
  }

  /** Request `i` of the round was about key `k`, and so was one of the answers to it. */
  predicate Answered(panel: Panel, revisions: seq<Finding>, round: nat, i: nat, k: FindingKey) {
    && i < |revisions| && KeyOf(revisions[i]) == k
    && exists a | a in panel.respond(round, i) :: KeyOf(a) == k
  }

  ghost predicate Requested(revisions: seq<Finding>, k: FindingKey) {
    exists f :: f in revisions && KeyOf(f) == k
  }

  ghost predicate LastAnswered(panel: Panel, revisions: seq<Finding>, n: nat, round: nat, i: nat, k: FindingKey) {
    && i < n && Answered(panel, revisions, round, i, k)
    && forall j: nat | i < j < n :: !Answered(panel, revisions, round, j, k)
  }

  ghost predicate AnsweredBefore(panel: Panel, revisions: seq<Finding>, n: nat, round: nat, k: FindingKey) {
    exists i: nat :: i < n && Answered(panel, revisions, round, i, k)
  }

  /** The keys answered by the first `n` requests, each with the first answer to its last answered request. */
  ghost predicate Revisions(panel: Panel, revisions: seq<Finding>, n: nat, round: nat,
                            revised: map<FindingKey, Finding>) {
    && (forall k :: k in revised <==> AnsweredBefore(panel, revisions, n, round, k))
    && (forall i: nat, k | LastAnswered(panel, revisions, n, round, i, k) ::
          k in revised && IsFirstAnswer(panel.respond(round, i), k, revised[k]))
  }

  /** The answers so far, with that to request `n`. */
  function WithAnswer(panel: Panel, revisions: seq<Finding>, n: nat, round: nat, revised: map<FindingKey, Finding>)
    : map<FindingKey, Finding>
    requires n < |revisions|
  {
    var answer := Match(panel.respond(round, n), KeyOf(revisions[n]));
    if answer.Some? then revised[KeyOf(revisions[n]) := answer.value] else revised
  }

  lemma AnswerAdded(panel: Panel, revisions: seq<Finding>, n: nat, round: nat, revised: map<FindingKey, Finding>,
                    k: FindingKey)
    requires n < |revisions|
    ensures var after := WithAnswer(panel, revisions, n, round, revised);
      if Answered(panel, revisions, round, n, k)
      then k in after && IsFirstAnswer(panel.respond(round, n), k, after[k])
      else (k in after <==> k in revised) && (k in after ==> after[k] == revised[k])
  {
    hide IsFirstAnswer;
  }

  lemma RevisionsNext(panel: Panel, revisions: seq<Finding>, n: nat, round: nat, revised: map<FindingKey, Finding>)
    requires n < |revisions| && Revisions(panel, revisions, n, round, revised)
    ensures Revisions(panel, revisions, n + 1, round, WithAnswer(panel, revisions, n, round, revised))
  {
    hide WithAnswer, Match, IsFirstAnswer, Answered, AnsweredBefore, LastAnswered;
    var after, m: nat := WithAnswer(panel, revisions, n, round, revised), n + 1;
    forall k
      ensures k in after <==> AnsweredBefore(panel, revisions, m, round, k)
    {
      AnsweredNext(panel, revisions, n, round, k);
      AnswerAdded(panel, revisions, n, round, revised, k);
    }
    forall i: nat, k | LastAnswered(panel, revisions, m, round, i, k)
      ensures k in after && IsFirstAnswer(panel.respond(round, i), k, after[k])
    {
      LastAnsweredNext(panel, revisions, n, round, i, k);
      AnswerAdded(panel, revisions, n, round, revised, k);
    }
  }

  lemma AnsweredNext(panel: Panel, revisions: seq<Finding>, n: nat, round: nat, k: FindingKey)
    ensures AnsweredBefore(panel, revisions, n + 1, round, k)
       <==> AnsweredBefore(panel, revisions, n, round, k) || Answered(panel, revisions, round, n, k)
  {
    hide Answered;
  }

  lemma LastAnsweredNext(panel: Panel, revisions: seq<Finding>, n: nat, round: nat, i: nat, k: FindingKey)
    requires LastAnswered(panel, revisions, n + 1, round, i, k)
    ensures if i == n then k == KeyOf(revisions[n]) && Answered(panel, revisions, round, n, k)
            else LastAnswered(panel, revisions, n, round, i, k) && !Answered(panel, revisions, round, n, k)
  {
    assert Answered(panel, revisions, round, i, k);
  }

  /** Asks for a revision of every rejected finding; an answer about another finding, or none, leaves it as it is. */
  method Revise(panel: Panel, revisions: seq<Finding>, round: nat) returns (revised: map<FindingKey, Finding>)
    ensures Revisions(panel, revisions, |revisions|, round, revised)
  {
    revised := map[];
    for i := 0 to |revisions|
      invariant Revisions(panel, revisions, i, round, revised)
    {
      RevisionsNext(panel, revisions, i, round, revised);
      var answer := Match(panel.respond(round, i), KeyOf(revisions[i]));
      if answer.Some? {
        revised := revised[KeyOf(revisions[i]) := answer.value];
      }
    }
  }

  lemma {:induction false} LastAnsweredExists(panel: Panel, revisions: seq<Finding>, n: nat, round: nat, i: nat,
                                              k: FindingKey) returns (last: nat)
    requires i < n && Answered(panel, revisions, round, i, k)
    ensures LastAnswered(panel, revisions, n, round, last, k)
    decreases n
  {
    hide Answered;
    if Answered(panel, revisions, round, n - 1, k) {
      return n - 1;
    }
    last := LastAnsweredExists(panel, revisions, n - 1, round, i, k);
  }

  /** What the requests of one round make of a finding: the answer about it, if there is one. */
  ghost predicate Revised(panel: Panel, revisions: seq<Finding>, round: nat, f: Finding, f': Finding) {
    if exists i: nat :: Answered(panel, revisions, round, i, KeyOf(f))
    then exists i: nat ::
           && LastAnswered(panel, revisions, |revisions|, round, i, KeyOf(f))
           && IsFirstAnswer(panel.respond(round, i), KeyOf(f), f')
    else f' == f
  }

  /** The findings of the next round: the critic's objections were sent out, and the answers put in place. */
  ghost predicate NextRound(panel: Panel, fs: seq<Finding>, round: nat, fs': seq<Finding>) {
    && |fs'| == |fs|
    && forall i | 0 <= i < |fs| :: Revised(panel, ToRevise(fs, panel.added), round, fs[i], fs'[i])
  }

  lemma RevisedExactly(panel: Panel, revisions: seq<Finding>, round: nat, revised: map<FindingKey, Finding>, f: Finding)
    requires Revisions(panel, revisions, |revisions|, round, revised)
    ensures Revised(panel, revisions, round, f, if KeyOf(f) in revised then revised[KeyOf(f)] else f)
    ensures KeyOf(f) in revised ==> KeyOf(revised[KeyOf(f)]) == KeyOf(f)
    ensures KeyOf(f) in revised ==> Requested(revisions, KeyOf(f))
  {
    hide IsFirstAnswer;
    if i: nat :| Answered(panel, revisions, round, i, KeyOf(f)) {
      assert AnsweredBefore(panel, revisions, |revisions|, round, KeyOf(f));
      var last := LastAnsweredExists(panel, revisions, |revisions|, round, i, KeyOf(f));
      AnswerKey(panel.respond(round, last), KeyOf(f), revised[KeyOf(f)]);
      assert revisions[i] in revisions;
    }
  }

  lemma AnswerKey(answers: seq<Finding>, k: FindingKey, answer: Finding)
    requires IsFirstAnswer(answers, k, answer)
    ensures KeyOf(answer) == k
  {
  }

  lemma RoundMade(panel: Panel, fs: seq<Finding>, round: nat, revised: map<FindingKey, Finding>)
    requires Revisions(panel, ToRevise(fs, panel.added), |ToRevise(fs, panel.added)|, round, revised)
    ensures NextRound(panel, fs, round, Replaced(fs, revised)) && Keys(Replaced(fs, revised)) == Keys(fs)
    ensures forall i | 0 <= i < |fs| && KeyOf(fs[i]) in revised ::
      Requested(ToRevise(fs, panel.added), KeyOf(fs[i]))
  {
    hide ToRevise, Revised, Revisions, Requested;
    forall i | 0 <= i < |fs|
      ensures Revised(panel, ToRevise(fs, panel.added), round, fs[i], Replaced(fs, revised)[i])
      ensures KeyOf(Replaced(fs, revised)[i]) == KeyOf(fs[i])
      ensures KeyOf(fs[i]) in revised ==> Requested(ToRevise(fs, panel.added), KeyOf(fs[i]))
    {
      RevisedExactly(panel, ToRevise(fs, panel.added), round, revised, fs[i]);
    }
  }

  /** Findings the critic has nothing against stay as the specialists wrote them. */
  ghost predicate AcceptedKept(panel: Panel, specialist: seq<Finding>, fs: seq<Finding>) {
    && |fs| == |specialist|
    && forall i | 0 <= i < |fs| && Objections(specialist[i], panel.added) == [] :: fs[i] == specialist[i]
  }

  lemma SameKey(specialist: seq<Finding>, fs: seq<Finding>, i: nat, j: nat)
    requires UniqueKeys(specialist) && Keys(fs) == Keys(specialist)
    requires i < |fs| && j < |fs| && KeyOf(fs[i]) == KeyOf(fs[j])
    ensures i == j
  {
    assert KeyOf(specialist[i]) == Keys(fs)[i] && KeyOf(specialist[j]) == Keys(fs)[j];
  }

  lemma StillUnique(specialist: seq<Finding>, fs: seq<Finding>)
    requires UniqueKeys(specialist) && Keys(fs) == Keys(specialist)
    ensures UniqueKeys(fs)
  {
    forall i, j | 0 <= i < j < |fs|
      ensures KeyOf(fs[i]) != KeyOf(fs[j])
    {
      if KeyOf(fs[i]) == KeyOf(fs[j]) {
        SameKey(specialist, fs, i, j);
      }
    }
  }

  lemma RevisionKeepsAccepted(panel: Panel, specialist: seq<Finding>, fs: seq<Finding>, revisions: seq<Finding>,
                              revised: map<FindingKey, Finding>)
    requires UniqueKeys(specialist) && Keys(fs) == Keys(specialist) && AcceptedKept(panel, specialist, fs)
    requires forall f | f in revisions :: f in fs && Objections(f, panel.added) != []
    requires forall i | 0 <= i < |fs| && KeyOf(fs[i]) in revised :: Requested(revisions, KeyOf(fs[i]))
    ensures AcceptedKept(panel, specialist, Replaced(fs, revised))
  {
    hide Objections, UniqueKeys, Keys;
    forall i | 0 <= i < |fs| && Objections(specialist[i], panel.added) == []
      ensures Replaced(fs, revised)[i] == specialist[i]
    {
      if KeyOf(fs[i]) in revised {
        assert Requested(revisions, KeyOf(fs[i]));
        var f :| f in revisions && KeyOf(f) == KeyOf(fs[i]);
        var j :| 0 <= j < |fs| && fs[j] == f;
        SameKey(specialist, fs, i, j);
      }
    }
  }

  ghost predicate Rounds(panel: Panel, history: seq<seq<Finding>>) {
    forall r | 0 <= r < |history| - 1 ::
      ToRevise(history[r], panel.added) != [] && NextRound(panel, history[r], r + 1, history[r + 1])
  }

  lemma NoRounds(panel: Panel, specialist: seq<Finding>)
    ensures Rounds(panel, [specialist]) && AcceptedKept(panel, specialist, specialist)
  {
  }

  lemma RoundsGrow(panel: Panel, history: seq<seq<Finding>>, fs: seq<Finding>)
    requires history != [] && Rounds(panel, history) && ToRevise(history[|history| - 1], panel.added) != []
    requires NextRound(panel, history[|history| - 1], |history|, fs)
    ensures Rounds(panel, history + [fs])
  {
    hide ToRevise, NextRound;
  }

  /**
   * `history` has the findings of each round: the specialists' in the first, and from one round
   * to the next, while there are objections and rounds left, the answers to them in place.
   */
  ghost predicate Deliberated(panel: Panel, specialist: seq<Finding>, rounds: nat, history: seq<seq<Finding>>) {
    && 1 <= |history| <= rounds && history[0] == specialist && Rounds(panel, history)
    && (|history| < rounds ==> ToRevise(history[|history| - 1], panel.added) == [])
  }

  method Deliberate(panel: Panel, specialist: seq<Finding>, rounds: nat)
    returns (fs: seq<Finding>, critiques: map<FindingKey, Critique>, completed: nat, ghost history: seq<seq<Finding>>)
    requires rounds >= 1
    ensures Deliberated(panel, specialist, rounds, history)
    ensures completed == |history| && fs == history[completed - 1] && Keys(fs) == Keys(specialist)
    ensures Verdicts(panel, critiques, fs, completed)
    ensures completed < rounds ==> forall f | f in fs :: Objections(f, panel.added) == []
    ensures UniqueKeys(specialist) ==> AcceptedKept(panel, specialist, fs)
  {
    fs, critiques, completed, history := specialist, map[], 1, [specialist];
    NoRounds(panel, specialist);
    hide Objections, Keys, NextRound, ToRevise, Replaced, Revisions, Rounds, Verdicts, AcceptedKept, UniqueKeys;
    hide Requested;
    while true
      invariant 1 <= completed == |history| <= rounds && Keys(fs) == Keys(specialist)
      invariant history[0] == specialist && history[completed - 1] == fs
      invariant Rounds(panel, history)
      invariant KeysWithin(critiques, fs)
      invariant UniqueKeys(specialist) ==> AcceptedKept(panel, specialist, fs)
      decreases rounds - completed
    {
      var revisions;
      critiques, revisions := CritiqueAll(panel, fs, completed, critiques);
      if revisions == [] || completed >= rounds {
        return;
      }
      var revised := Revise(panel, revisions, completed);
      RoundMade(panel, fs, completed, revised);
      if UniqueKeys(specialist) {
        RevisionKeepsAccepted(panel, specialist, fs, revisions, revised);
      }
      RoundsGrow(panel, history, Replaced(fs, revised));
      fs, completed := Replaced(fs, revised), completed + 1;
      history := history + [fs];
    }
  }

  // ---- Verification -----------------------------------------------------------------------

  const THRESHOLD: real := 0.55

  datatype Reason = Objected(o: Objection) | NotReproduced | UnsafeFix | LowConfidence

  datatype Decision = Decision(key: FindingKey, approved: bool, reasons: seq<Reason>, confidence: real)

  /** The rule signatures of the evidence agent and the fix agent's judgement. */
  datatype Checks = Checks(signature: (string, string) -> Option<bool>, fixReady: Finding -> bool)

  predicate Reproduces(checks: Checks, f: Finding, added: seq<ChangedLine>) {
    var line := SourceLine(f, added);
    var signature := checks.signature(f.ruleId, line);
    if signature.Some? then signature.value else line != "" && Quotes(f, added)
  }

  function Clamp(x: real): real {
    if x < 0.0 then 0.0 else if x > 1.0 then 1.0 else x
  }

  /** The nearest value between zero and one. */
  lemma ClampExactly(x: real)
    ensures InUnit(Clamp(x)) && (InUnit(x) ==> Clamp(x) == x)
    ensures (x < 0.0 ==> Clamp(x) == 0.0) && (x > 1.0 ==> Clamp(x) == 1.0)
  {
  }

  /**
   * A finding is reproduced on the first added line at its place: by the signature of its rule if it
   * has one, and otherwise if the line is there and its evidence stands in it.
   */
  lemma ReproducesExactly(checks: Checks, f: Finding, added: seq<ChangedLine>, i: nat)
    requires LineOf(f, added, i)
    ensures Reproduces(checks, f, added) <==>
      match checks.signature(f.ruleId, added[i].content)
      case Some(shown) => shown
      case None => added[i].content != "" && EvidenceStands(f, added)
  {
    hide Quotes, LineOf, EvidenceStands;
    SourceLineIs(f, added);
    QuotesExactly(f, added);
  }

  function Objected(objections: seq<Objection>): (r: seq<Reason>)
    ensures |r| == |objections|
  {
    seq(|objections|, i requires 0 <= i < |objections| => Reason.Objected(objections[i]))
  }

  function Verify(f: Finding, c: Critique, reproducible: bool, fixReady: bool): Decision {
    var confidence := Clamp(f.confidence + c.adjustment);
    var reasons :=
      (if c.accepted then [] else Objected(c.objections))
      + (if reproducible then [] else [NotReproduced])
      + (if fixReady then [] else [UnsafeFix])
      + (if confidence < THRESHOLD then [LowConfidence] else []);
    Decision(KeyOf(f), reasons == [], reasons, confidence)
  }

  /** Without a critic or an evidence agent the missing inputs count as favourable. */
  function CritiqueFor(critiques: map<FindingKey, Critique>, k: FindingKey): Critique {
    if k in critiques then critiques[k] else Critique(k, true, [], 0.0, false, false, 1)
  }

  function ReproductionFor(reproductions: map<FindingKey, bool>, k: FindingKey): bool {
    if k in reproductions then reproductions[k] else true
  }

  function DecisionFor(checks: Checks, f: Finding, critiques: map<FindingKey, Critique>,
                       reproductions: map<FindingKey, bool>): Decision {
    Verify(f, CritiqueFor(critiques, KeyOf(f)), ReproductionFor(reproductions, KeyOf(f)), checks.fixReady(f))
  }

  method Reproduce(checks: Checks, fs: seq<Finding>, added: seq<ChangedLine>)
    returns (reproductions: map<FindingKey, bool>)
    ensures KeysWithin(reproductions, fs) && LastDecides(fs, reproductions, f => Reproduces(checks, f, added))
  {
    reproductions := map[];
    for i := 0 to |fs|
      invariant KeysWithin(reproductions, fs) && LastDecides(fs[..i], reproductions, f => Reproduces(checks, f, added))
    {
      NextEntry(fs, i, reproductions, f => Reproduces(checks, f, added));
      reproductions := reproductions[KeyOf(fs[i]) := Reproduces(checks, fs[i], added)];
    }
    assert fs[..|fs|] == fs;
  }

  method VerifyAll(checks: Checks, fs: seq<Finding>, critiques: map<FindingKey, Critique>,
                   reproductions: map<FindingKey, bool>)
    returns (decisions: map<FindingKey, Decision>)
    ensures KeysWithin(decisions, fs)
    ensures LastDecides(fs, decisions, f => DecisionFor(checks, f, critiques, reproductions))
  {
    decisions := map[];
    for i := 0 to |fs|
      invariant KeysWithin(decisions, fs)
      invariant LastDecides(fs[..i], decisions, f => DecisionFor(checks, f, critiques, reproductions))
    {
      NextEntry(fs, i, decisions, f => DecisionFor(checks, f, critiques, reproductions));
      decisions := decisions[KeyOf(fs[i]) := DecisionFor(checks, fs[i], critiques, reproductions)];
    }
    assert fs[..|fs|] == fs;
  }

  // ---- Arbitration -----------------------------------------------------------------------

  /** Lexicographic order on strings, by code point. */
  predicate TextLeq(a: string, b: string) {
    a == "" || (b != "" && (a[0] < b[0] || (a[0] == b[0] && TextLeq(a[1..], b[1..]))))
  }

  lemma {:induction false} TextLeqTotal(a: string, b: string)
    ensures TextLeq(a, b) || TextLeq(b, a)
    ensures TextLeq(a, b) && TextLeq(b, a) ==> a == b
    ensures TextLeq(a, a)
  {
    if a != "" {
      TextLeqTotal(a[1..], a[1..]);
      if b != "" {
        TextLeqTotal(a[1..], b[1..]);
        assert a == [a[0]] + a[1..] && b == [b[0]] + b[1..];
      }
    }
  }

  lemma {:induction false} TextLeqTransitive(a: string, b: string, c: string)
    requires TextLeq(a, b) && TextLeq(b, c)
    ensures TextLeq(a, c)
  {
    if a != "" && a[0] == b[0] == c[0] {
      TextLeqTransitive(a[1..], b[1..], c[1..]);
    }
  }

  /** Most severe first, then by path and line. */
  predicate Before(a: Finding, b: Finding) {
    || Rank(a.severity) > Rank(b.severity)
    || (Rank(a.severity) == Rank(b.severity)
        && if a.path == b.path then a.line <= b.line else TextLeq(a.path, b.path))
  }

  /** The graver goes first; of equally grave ones the lesser path, and in one path the lesser line. */
  lemma BeforeExactly(a: Finding, b: Finding)
    ensures Rank(Critical) > Rank(High) > Rank(Medium) > Rank(Low)
    ensures Rank(a.severity) > Rank(b.severity) ==> Before(a, b) && !Before(b, a)
    ensures Rank(a.severity) == Rank(b.severity) && a.path == b.path ==> (Before(a, b) <==> a.line <= b.line)
    ensures Rank(a.severity) == Rank(b.severity) && a.path != b.path ==> (Before(a, b) <==> TextLeq(a.path, b.path))
    ensures Before(a, b) && Before(b, a) <==>
      Rank(a.severity) == Rank(b.severity) && a.path == b.path && a.line == b.line
  {
    TextLeqTotal(a.path, b.path);
  }

  lemma BeforeOrders(a: Finding, b: Finding, c: Finding)
    ensures Before(a, b) || Before(b, a)
    ensures Before(a, b) && Before(b, c) ==> Before(a, c)
  {
    TextLeqTotal(a.path, b.path);
    TextLeqTotal(b.path, c.path);
    if TextLeq(a.path, b.path) && TextLeq(b.path, c.path) {
      TextLeqTransitive(a.path, b.path, c.path);
    }
  }

  ghost predicate Ordered(fs: seq<Finding>) {
    forall i, j | 0 <= i < j < |fs| :: Before(fs[i], fs[j])
  }

  /** Python's stable sort. */
  function Sorted(fs: seq<Finding>): seq<Finding> {
    if fs == [] then [] else Inserted(Sorted(fs[..|fs| - 1]), fs[|fs| - 1])
  }

  function Inserted(fs: seq<Finding>, f: Finding): seq<Finding> {
    if fs == [] then [f]
    else if Before(fs[|fs| - 1], f) then fs + [f]
    else Inserted(fs[..|fs| - 1], f) + [fs[|fs| - 1]]
  }

  /** Everything up to `f`'s place is before it, and everything after it is not less. */
  lemma InsertedInOrder(fs: seq<Finding>, f: Finding)
    requires fs != [] && Ordered(fs) && Ordered(Inserted(fs[..|fs| - 1], f))
    requires multiset(Inserted(fs[..|fs| - 1], f)) == multiset(fs[..|fs| - 1]) + multiset{f}
    ensures Ordered(Inserted(fs, f))
  {
    var front, last := fs[..|fs| - 1], fs[|fs| - 1];
    if Before(last, f) {
      forall i | 0 <= i < |fs|
        ensures Before(fs[i], f)
      {
        BeforeOrders(fs[i], last, f);
      }
    } else {
      BeforeOrders(f, last, f);
      var r := Inserted(front, f);
      forall i | 0 <= i < |r|
        ensures Before(r[i], last)
      {
        assert r[i] in multiset(r);
        assert r[i] == f || r[i] in front;
      }
    }
  }

  lemma InsertedKeeps(fs: seq<Finding>, f: Finding)
    ensures multiset(Inserted(fs, f)) == multiset(fs) + multiset{f}
    ensures Ordered(fs) ==> Ordered(Inserted(fs, f))
  {
    if fs != [] {
      var front, last := fs[..|fs| - 1], fs[|fs| - 1];
      assert fs == front + [last];
      InsertedKeeps(front, f);
      if Ordered(fs) {
        InsertedInOrder(fs, f);
      }
    }
  }

  lemma {:induction false} SortedKeeps(fs: seq<Finding>)
    ensures multiset(Sorted(fs)) == multiset(fs) && Ordered(Sorted(fs))
  {
    hide Before, Ordered;
    NoneOrdered();
    if fs != [] {
      SortedKeeps(fs[..|fs| - 1]);
      InsertedKeeps(Sorted(fs[..|fs| - 1]), fs[|fs| - 1]);
      assert fs == fs[..|fs| - 1] + [fs[|fs| - 1]];
    }
  }

  lemma NoneOrdered()
    ensures Ordered([])
  {
  }

  /** The finding as it is reported: with the confidence that was decided for its key. */
  function Reported(f: Finding, decisions: map<FindingKey, Decision>): Finding
    requires KeyOf(f) in decisions
  {
    f.(confidence := decisions[KeyOf(f)].confidence)
  }

  ghost predicate Decided(fs: seq<Finding>, decisions: map<FindingKey, Decision>) {
    forall i: nat | i < |fs| :: KeyOf(fs[i]) in decisions
  }

  /** `f` reports the first finding of an approved key. */
  ghost predicate FromFirst(fs: seq<Finding>, decisions: map<FindingKey, Decision>, f: Finding) {
    exists i: nat :: IsFirst(fs, i) && KeyOf(fs[i]) in decisions && decisions[KeyOf(fs[i])].approved
      && f == Reported(fs[i], decisions)
  }

  /** The first finding of key `k` comes before the first of key `l`. */
  ghost predicate Earlier(fs: seq<Finding>, k: FindingKey, l: FindingKey) {
    exists i: nat, j: nat :: i < j && IsFirst(fs, i) && KeyOf(fs[i]) == k && IsFirst(fs, j) && KeyOf(fs[j]) == l
  }

  /** Entries that rank equal are in the order in which their keys were first found. */
  ghost predicate TiesInOrder(fs: seq<Finding>, report: seq<Finding>) {
    forall i, j | 0 <= i < j < |report| && Before(report[j], report[i]) ::
      Earlier(fs, KeyOf(report[i]), KeyOf(report[j]))
  }

  ghost predicate InOrderFound(fs: seq<Finding>, values: seq<Finding>) {
    forall i, j | 0 <= i < j < |values| :: Earlier(fs, KeyOf(values[i]), KeyOf(values[j]))
  }

  lemma {:induction false} InsertedTies(fs: seq<Finding>, values: seq<Finding>, f: Finding)
    requires TiesInOrder(fs, values) && forall v | v in values :: Earlier(fs, KeyOf(v), KeyOf(f))
    ensures TiesInOrder(fs, Inserted(values, f))
  {
    hide Before, Earlier;
    if values != [] && !Before(values[|values| - 1], f) {
      var front, last := values[..|values| - 1], values[|values| - 1];
      InsertedTies(fs, front, f);
      InsertedKeeps(front, f);
      var r := Inserted(front, f);
      forall i | 0 <= i < |r| && Before(last, r[i])
        ensures Earlier(fs, KeyOf(r[i]), KeyOf(last))
      {
        assert r[i] in multiset(r);
        assert r[i] == f || r[i] in front;
      }
    }
  }

  /** The sort is stable. */
  lemma {:induction false} SortedTies(fs: seq<Finding>, values: seq<Finding>)
    requires InOrderFound(fs, values)
    ensures TiesInOrder(fs, Sorted(values))
  {
    hide Before, Earlier, Inserted;
    if values != [] {
      var front, last := values[..|values| - 1], values[|values| - 1];
      SortedTies(fs, front);
      SortedKeeps(front);
      Ordering.SameElements(front, Sorted(front));
      InsertedTies(fs, Sorted(front), last);
    }
  }

  /** One entry for every approved key, most severe first. */
  ghost predicate Report(fs: seq<Finding>, decisions: map<FindingKey, Decision>, report: seq<Finding>) {
    && Ordered(report) && UniqueKeys(report) && TiesInOrder(fs, report)
    && (forall f | f in report :: FromFirst(fs, decisions, f))
    && (forall f | f in fs && KeyOf(f) in decisions && decisions[KeyOf(f)].approved :: Listed(report, KeyOf(f)))
  }

  ghost predicate Listed(report: seq<Finding>, k: FindingKey) {
    exists f :: f in report && KeyOf(f) == k
  }

  /** The dictionary of merged findings, in insertion order. */
  ghost predicate Merged(fs: seq<Finding>, n: nat, decisions: map<FindingKey, Decision>, values: seq<Finding>)
    requires n <= |fs|
  {
    && UniqueKeys(values) && InOrderFound(fs, values)
    && (forall f | f in values :: FromFirst(fs, decisions, f))
    && (forall i: nat | i < n && KeyOf(fs[i]) in decisions && decisions[KeyOf(fs[i])].approved ::
          Listed(values, KeyOf(fs[i])))
    && (forall f | f in values :: exists i: nat :: i < n && KeyOf(fs[i]) == KeyOf(f))
  }

  function Place(values: seq<Finding>, k: FindingKey): (i: nat)
    ensures i <= |values|
    ensures i < |values| ==> KeyOf(values[i]) == k
    ensures i == |values| ==> forall f | f in values :: KeyOf(f) != k
  {
    if values == [] || KeyOf(values[0]) == k then 0 else 1 + Place(values[1..], k)
  }

  method Arbitrate(fs: seq<Finding>, decisions: map<FindingKey, Decision>) returns (report: seq<Finding>)
    requires Decided(fs, decisions)
    ensures Report(fs, decisions, report)
  {
    var values: seq<Finding> := [];
    for i := 0 to |fs|
      invariant Merged(fs, i, decisions, values)
    {
      var decision := decisions[KeyOf(fs[i])];
      if decision.approved {
        var f := Reported(fs[i], decisions);
        var k := Place(values, KeyOf(f));
        if k == |values| {
          MergedNew(fs, i, decisions, values);
          values := values + [f];
        } else {
          // A namesake has the same decision, so its confidence is never higher than the one merged first.
          SameConfidence(fs, decisions, values[k], f);
          assert !(f.confidence > values[k].confidence);
          MergedOld(fs, i, decisions, values, k);
        }
      } else {
        MergedSkip(fs, i, decisions, values);
      }
    }
    report := Sorted(values);
    MergedReport(fs, decisions, values);
  }

  lemma SameConfidence(fs: seq<Finding>, decisions: map<FindingKey, Decision>, current: Finding, f: Finding)
    requires FromFirst(fs, decisions, current) && KeyOf(f) == KeyOf(current) && KeyOf(f) in decisions
    requires f.confidence == decisions[KeyOf(f)].confidence
    ensures f.confidence == current.confidence
  {
  }

  lemma FoundEarlier(fs: seq<Finding>, i: nat, j: nat, decisions: map<FindingKey, Decision>, v: Finding)
    requires IsFirst(fs, i) && FromFirst(fs, decisions, v) && j < i && KeyOf(fs[j]) == KeyOf(v)
    ensures Earlier(fs, KeyOf(v), KeyOf(fs[i]))
  {
    var k := FirstOf(fs, decisions, v);
    hide KeyOf, FromFirst;
    assert k <= j;
  }

  lemma FirstOf(fs: seq<Finding>, decisions: map<FindingKey, Decision>, v: Finding) returns (k: nat)
    requires FromFirst(fs, decisions, v)
    ensures IsFirst(fs, k) && KeyOf(fs[k]) == KeyOf(v)
  {
    k :| IsFirst(fs, k) && KeyOf(fs[k]) in decisions && v == Reported(fs[k], decisions);
    assert KeyOf(Reported(fs[k], decisions)) == KeyOf(fs[k]);
  }

  lemma MergedEarlier(fs: seq<Finding>, i: nat, decisions: map<FindingKey, Decision>, values: seq<Finding>)
    requires i < |fs| && IsFirst(fs, i) && Merged(fs, i, decisions, values)
    ensures forall v | v in values :: Earlier(fs, KeyOf(v), KeyOf(fs[i]))
  {
    hide Earlier, FromFirst, IsFirst, Listed, UniqueKeys, InOrderFound, KeyOf;
    forall v | v in values
      ensures Earlier(fs, KeyOf(v), KeyOf(fs[i]))
    {
      var j: nat :| j < i && KeyOf(fs[j]) == KeyOf(v);
      FoundEarlier(fs, i, j, decisions, v);
    }
  }

  lemma MergedNew(fs: seq<Finding>, i: nat, decisions: map<FindingKey, Decision>, values: seq<Finding>)
    requires i < |fs| && Merged(fs, i, decisions, values) && KeyOf(fs[i]) in decisions
    requires decisions[KeyOf(fs[i])].approved
    requires forall f | f in values :: KeyOf(f) != KeyOf(fs[i])
    ensures Merged(fs, i + 1, decisions, values + [Reported(fs[i], decisions)])
  {
    var f := Reported(fs[i], decisions);
    var more := values + [f];
    assert IsFirst(fs, i) by {
      forall j | 0 <= j < i
        ensures KeyOf(fs[j]) != KeyOf(fs[i])
      {
        assert KeyOf(fs[j]) == KeyOf(fs[i]) ==> Listed(values, KeyOf(fs[j]));
      }
    }
    assert FromFirst(fs, decisions, f);
    MergedEarlier(fs, i, decisions, values);
    hide Earlier, FromFirst, IsFirst;
    forall j: nat | j < i + 1 && KeyOf(fs[j]) in decisions && decisions[KeyOf(fs[j])].approved
      ensures Listed(more, KeyOf(fs[j]))
    {
      if j < i {
        var g :| g in values && KeyOf(g) == KeyOf(fs[j]);
        assert g in more;
      } else {
        assert f in more;
      }
    }
    forall a, b | 0 <= a < b < |more|
      ensures KeyOf(more[a]) != KeyOf(more[b])
    {
      assert more[a] in values;
    }
  }

  lemma MergedOld(fs: seq<Finding>, i: nat, decisions: map<FindingKey, Decision>, values: seq<Finding>, k: nat)
    requires i < |fs| && Merged(fs, i, decisions, values) && k < |values| && KeyOf(values[k]) == KeyOf(fs[i])
    ensures Merged(fs, i + 1, decisions, values)
  {
    hide FromFirst, UniqueKeys, InOrderFound;
    assert values[k] in values;
    assert Listed(values, KeyOf(fs[i]));
    hide Listed;
  }

  lemma MergedSkip(fs: seq<Finding>, i: nat, decisions: map<FindingKey, Decision>, values: seq<Finding>)
    requires i < |fs| && Merged(fs, i, decisions, values) && KeyOf(fs[i]) in decisions
    requires !decisions[KeyOf(fs[i])].approved
    ensures Merged(fs, i + 1, decisions, values)
  {
  }

  lemma MergedReport(fs: seq<Finding>, decisions: map<FindingKey, Decision>, values: seq<Finding>)
    requires Merged(fs, |fs|, decisions, values)
    ensures Report(fs, decisions, Sorted(values))
  {
    var report := Sorted(values);
    SortedKeeps(values);
    SortedTies(fs, values);
    Ordering.SameElements(values, report);
    assert Ordering.Distinct(values);
    hide Sorted, Before, FromFirst;
    forall a, b | 0 <= a < b < |report|
      ensures KeyOf(report[a]) != KeyOf(report[b])
    {
      assert report[a] in values && report[b] in values;
      assert report[a] != report[b];
    }
    forall f | f in fs && KeyOf(f) in decisions && decisions[KeyOf(f)].approved
      ensures Listed(report, KeyOf(f))
    {
      assert Listed(values, KeyOf(f));
    }
  }

  // ---- The pipeline --------------------------------------------------------------------------

  /** Which verification stages the policy asks for. */
  datatype Policy = Policy(critic: bool, evidence: bool, verifier: bool)

  const EVERY_STAGE := Policy(true, true, true)

  /** What the stages that ran say about a finding. */
  ghost predicate Approvable(policy: Policy, panel: Panel, checks: Checks, f: Finding, confidence: real) {
    && (policy.critic ==> Objections(f, panel.added) == [])
    && (policy.evidence ==> Reproduces(checks, f, panel.added))
    && checks.fixReady(f)
    && confidence == Clamp(f.confidence + (if !policy.critic then 0.0 else if panel.sources(KeyOf(f)) > 1 then 0.08
                                           else 0.03))
    && 0.55 <= confidence <= 1.0
  }

  /** The decision on a key is about its last finding. */
  ghost predicate SoundDecisions(policy: Policy, panel: Panel, checks: Checks, fs: seq<Finding>,
                                 decisions: map<FindingKey, Decision>) {
    && (forall i: nat | i < |fs| :: KeyOf(fs[i]) in decisions)
    && (forall i: nat | IsLast(fs, i) :: SoundDecision(policy, panel, checks, fs[i], decisions[KeyOf(fs[i])]))
  }

  ghost predicate SoundDecision(policy: Policy, panel: Panel, checks: Checks, f: Finding, d: Decision) {
    d.approved <==> Approvable(policy, panel, checks, f, d.confidence)
  }

  lemma VerifiedSoundly(policy: Policy, panel: Panel, checks: Checks, f: Finding, c: Critique, reproducible: bool,
                        round: nat)
    requires c == if policy.critic then panel.Verdict(f, round) else Critique(KeyOf(f), true, [], 0.0, false, false, 1)
    requires reproducible == (policy.evidence ==> Reproduces(checks, f, panel.added))
    ensures var d := Verify(f, c, reproducible, checks.fixReady(f));
      && SoundDecision(policy, panel, checks, f, d)
      && (forall o :: Reason.Objected(o) in d.reasons <==> policy.critic && o in Objections(f, panel.added))
      && (NotReproduced in d.reasons <==> policy.evidence && !Reproduces(checks, f, panel.added))
      && (UnsafeFix in d.reasons <==> !checks.fixReady(f))
      && (LowConfidence in d.reasons <==> d.confidence < 0.55)
  {
    hide Objections, Reproduces, Objected;
    ObjectedEach(c.objections);
  }

  lemma ObjectedEach(objections: seq<Objection>)
    ensures forall r :: r in Objected(objections) <==> r.Objected? && r.o in objections
  {
    forall r: Reason | r.Objected? && r.o in objections
      ensures r in Objected(objections)
    {
      var i :| 0 <= i < |objections| && objections[i] == r.o;
      assert Objected(objections)[i] == r;
    }
  }

  lemma DecisionsSound(
    policy: Policy, panel: Panel, checks: Checks, fs: seq<Finding>, round: nat,
    critiques: map<FindingKey, Critique>, reproductions: map<FindingKey, bool>, decisions: map<FindingKey, Decision>)
    requires if policy.critic then Verdicts(panel, critiques, fs, round) else critiques == map[]
    requires if policy.evidence then LastDecides(fs, reproductions, f => Reproduces(checks, f, panel.added))
      else reproductions == map[]
    requires LastDecides(fs, decisions, f => DecisionFor(checks, f, critiques, reproductions))
    ensures SoundDecisions(policy, panel, checks, fs, decisions)
  {
    hide SoundDecision, Verify, Reproduces, Panel.Verdict;
    forall i: nat | IsLast(fs, i)
      ensures SoundDecision(policy, panel, checks, fs[i], decisions[KeyOf(fs[i])])
    {
      var c, reproducible := CritiqueFor(critiques, KeyOf(fs[i])), ReproductionFor(reproductions, KeyOf(fs[i]));
      VerifiedSoundly(policy, panel, checks, fs[i], c, reproducible, round);
    }
  }

  /** A finding's last namesake. */
  lemma {:induction false} LastNamesake(fs: seq<Finding>, i: nat, n: nat) returns (j: nat)
    requires i < n <= |fs| && forall k | n <= k < |fs| :: KeyOf(fs[k]) != KeyOf(fs[i])
    ensures i <= j < n && IsLast(fs, j) && KeyOf(fs[j]) == KeyOf(fs[i])
    decreases n
  {
    if KeyOf(fs[n - 1]) == KeyOf(fs[i]) {
      return n - 1;
    }
    j := LastNamesake(fs, i, n - 1);
  }

  /** What every reported finding satisfies. */
  ghost predicate Verified(panel: Panel, f: Finding) {
    (exists i: nat :: LineOf(f, panel.added, i)) && 0.55 <= f.confidence <= 1.0
  }

  /**
   * With every stage on, each reported finding lies on an added line with confidence from the threshold to one;
   * with unique keys it is also one the critic, the evidence and the fix agents accept, so it quotes its line.
   */
  lemma ReportIsVerified(panel: Panel, checks: Checks, fs: seq<Finding>, decisions: map<FindingKey, Decision>,
                         report: seq<Finding>, f: Finding)
    requires SoundDecisions(EVERY_STAGE, panel, checks, fs, decisions) && Report(fs, decisions, report) && f in report
    ensures Verified(panel, f)
    ensures UniqueKeys(fs) ==> Quotes(f, panel.added)
    ensures UniqueKeys(fs) ==> exists g | g in fs ::
      f == g.(confidence := f.confidence) && Approvable(EVERY_STAGE, panel, checks, g, f.confidence)
  {
    var i: nat :| IsFirst(fs, i) && KeyOf(fs[i]) in decisions && decisions[KeyOf(fs[i])].approved
      && f == Reported(fs[i], decisions);
    var j := LastNamesake(fs, i, |fs|);
    assert SoundDecision(EVERY_STAGE, panel, checks, fs[j], decisions[KeyOf(fs[j])]);
    hide Approvable, Quotes, LineOf, Ordered, IsFirst, IsLast, TiesInOrder;
    ApprovedOnLine(panel, checks, fs[j], f);
    if UniqueKeys(fs) {
      assert i == j && fs[i] in fs;
      SameSource(f, fs[i], panel.added);
    }
  }

  /** What is approved lies on an added line and quotes it, and so does every finding of its key. */
  lemma ApprovedOnLine(panel: Panel, checks: Checks, g: Finding, f: Finding)
    requires KeyOf(f) == KeyOf(g) && Approvable(EVERY_STAGE, panel, checks, g, f.confidence)
    ensures Verified(panel, f) && Quotes(g, panel.added)
  {
    Accepted(g, panel.added, 0, 1);
    QuotesExactly(g, panel.added);
    SourceLineIs(g, panel.added);
    hide Objections, Quotes, Reproduces, Strip, Occurs, OnAddedLine;
    var i: nat :| LineOf(g, panel.added, i);
    assert LineOf(f, panel.added, i);
  }

  /** From the specialists' findings to the report, through the stages the policy asks for. */
  method Review(policy: Policy, panel: Panel, checks: Checks, specialist: seq<Finding>, rounds: nat)
    returns (report: seq<Finding>, ghost fs: seq<Finding>, ghost decisions: map<FindingKey, Decision>,
             ghost history: seq<seq<Finding>>)
    requires rounds >= 1
    ensures policy.critic ==> Deliberated(panel, specialist, rounds, history) && fs == history[|history| - 1]
    ensures Keys(fs) == Keys(specialist) && (!policy.critic ==> fs == specialist)
    ensures UniqueKeys(specialist) ==> UniqueKeys(fs) && AcceptedKept(panel, specialist, fs)
    ensures !policy.verifier ==> report == fs
    ensures policy.verifier ==> SoundDecisions(policy, panel, checks, fs, decisions) && Report(fs, decisions, report)
    ensures policy.verifier ==> Ordered(report) && UniqueKeys(report)
    ensures policy == EVERY_STAGE ==> forall f | f in report :: Verified(panel, f)
    ensures policy == EVERY_STAGE && UniqueKeys(specialist) ==> forall f | f in report :: Quotes(f, panel.added)
  {
    var findings := specialist;
    var critiques: map<FindingKey, Critique> := map[];
    var reproductions: map<FindingKey, bool> := map[];
    var completed: nat := 0;
    hide Objections, LastDecides, Verdicts, Report, SoundDecisions, Verified, Quotes, UniqueKeys, Ordered, AcceptedKept,
      Keys, KeysWithin, NextRound, ToRevise;
    history := [specialist];
    if policy.critic {
      findings, critiques, completed, history := Deliberate(panel, specialist, rounds);
    }
    if UniqueKeys(specialist) {
      StillUnique(specialist, findings);
    }
    if policy.evidence {
      reproductions := Reproduce(checks, findings, panel.added);
    }
    fs, decisions := findings, map[];
    if !policy.verifier {
      return findings, findings, map[], history;
    }
    var decided := VerifyAll(checks, findings, critiques, reproductions);
    decisions := decided;
    DecisionsSound(policy, panel, checks, findings, completed, critiques, reproductions, decided);
    report := Arbitrate(findings, decided);
    ReportInOrder(findings, decided, report);
    if policy == EVERY_STAGE {
      forall f | f in report
        ensures Verified(panel, f) && (UniqueKeys(findings) ==> Quotes(f, panel.added))
      {
        ReportIsVerified(panel, checks, findings, decided, report, f);
      }
    }
  }

  lemma ReportInOrder(fs: seq<Finding>, decisions: map<FindingKey, Decision>, report: seq<Finding>)
    requires Report(fs, decisions, report)
    ensures Ordered(report) && UniqueKeys(report)
  {
  }

  lemma {:induction false} SameSource(f: Finding, g: Finding, added: seq<ChangedLine>)
    requires KeyOf(f) == KeyOf(g) && f.evidence == g.evidence
    ensures SourceLine(f, added) == SourceLine(g, added) && Quotes(f, added) == Quotes(g, added)
  {
    if added != [] {
      SameSource(f, g, added[1..]);
    }
  }

  /** Each reported entry quotes its line exactly when the first finding of its key does, whatever was verified. */
  lemma EntryQuotesAsFirst(fs: seq<Finding>, decisions: map<FindingKey, Decision>, report: seq<Finding>, f: Finding,
                           added: seq<ChangedLine>, i: nat)
    requires Report(fs, decisions, report) && f in report && IsFirst(fs, i) && KeyOf(fs[i]) == KeyOf(f)
    ensures Quotes(f, added) <==> Quotes(fs[i], added)
  {
    hide Quotes, Ordered, UniqueKeys;
    var k: nat :| IsFirst(fs, k) && KeyOf(fs[k]) in decisions && f == Reported(fs[k], decisions);
    assert KeyOf(Reported(fs[k], decisions)) == KeyOf(fs[k]);
    OnlyFirst(fs, i, k);
    SameSource(f, fs[i], added);
  }

  lemma OnlyFirst(fs: seq<Finding>, i: nat, k: nat)
    requires IsFirst(fs, i) && IsFirst(fs, k) && KeyOf(fs[i]) == KeyOf(fs[k])
    ensures i == k
  {
    assert !(i < k) && !(k < i);
  }

  /** Where the last finding of a key is approvable, the first one quotes its line. */
  ghost predicate FirstsQuote(panel: Panel, checks: Checks, fs: seq<Finding>, decisions: map<FindingKey, Decision>) {
    forall i: nat, j: nat | NamesakeEnds(fs, i, j) && KeyOf(fs[j]) in decisions
          && Approvable(EVERY_STAGE, panel, checks, fs[j], decisions[KeyOf(fs[j])].confidence) ::
      Quotes(fs[i], panel.added)
  }

  /** The first and the last finding of one key. */
  ghost predicate NamesakeEnds(fs: seq<Finding>, i: nat, j: nat) {
    IsFirst(fs, i) && IsLast(fs, j) && KeyOf(fs[i]) == KeyOf(fs[j])
  }

  /**
   * A key's last finding is verified and its first is reported.  So, for any list of findings, everything reported
   * quotes its line exactly when the first finding quotes it wherever the last one is approvable.
   */
  lemma FirstReportedLastVerified(panel: Panel, checks: Checks, fs: seq<Finding>, decisions: map<FindingKey, Decision>,
                                  report: seq<Finding>)
    requires SoundDecisions(EVERY_STAGE, panel, checks, fs, decisions) && Report(fs, decisions, report)
    ensures (forall f | f in report :: Quotes(f, panel.added)) <==> FirstsQuote(panel, checks, fs, decisions)
  {
    hide Quotes, Approvable, Ordered, UniqueKeys;
    if FirstsQuote(panel, checks, fs, decisions) {
      forall f | f in report
        ensures Quotes(f, panel.added)
      {
        ReportedQuotes(panel, checks, fs, decisions, report, f);
      }
    }
    if forall f | f in report :: Quotes(f, panel.added) {
      forall i: nat, j: nat | NamesakeEnds(fs, i, j) && KeyOf(fs[j]) in decisions
        && Approvable(EVERY_STAGE, panel, checks, fs[j], decisions[KeyOf(fs[j])].confidence)
        ensures Quotes(fs[i], panel.added)
      {
        assert SoundDecision(EVERY_STAGE, panel, checks, fs[j], decisions[KeyOf(fs[j])]);
        assert fs[i] in fs;
        assert Listed(report, KeyOf(fs[i]));
        var f :| f in report && KeyOf(f) == KeyOf(fs[i]);
        EntryQuotesAsFirst(fs, decisions, report, f, panel.added, i);
      }
    }
  }

  lemma ReportedQuotes(panel: Panel, checks: Checks, fs: seq<Finding>, decisions: map<FindingKey, Decision>,
                       report: seq<Finding>, f: Finding)
    requires SoundDecisions(EVERY_STAGE, panel, checks, fs, decisions) && Report(fs, decisions, report) && f in report
    requires FirstsQuote(panel, checks, fs, decisions)
    ensures Quotes(f, panel.added)
  {
    hide Quotes, Approvable, Ordered, UniqueKeys;
    var i: nat :| IsFirst(fs, i) && KeyOf(fs[i]) in decisions && decisions[KeyOf(fs[i])].approved
      && f == Reported(fs[i], decisions);
    var j := LastNamesake(fs, i, |fs|);
    assert SoundDecision(EVERY_STAGE, panel, checks, fs[j], decisions[KeyOf(fs[j])]);
    assert NamesakeEnds(fs, i, j);
    EntryQuotesAsFirst(fs, decisions, report, f, panel.added, i);
  }
}
