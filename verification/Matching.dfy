/** One-to-one matching of reported findings against expected ones. */
module Matching {
  import opened Models
  import opened Ordering

  datatype Truth = Truth(path: string, startLine: int, endLine: int, cwe: string, severity: Severity)

  datatype Edge = Edge(predicted: nat, distance: int)

  datatype Match = Match(expectedIndex: nat, predictedIndex: nat, distance: int)

  /** Rule name to CWE; a rule without an entry stands for itself. */
  type CweTable = map<string, string>

  function SlashesOnly(s: string): string {
    seq(|s|, i requires 0 <= i < |s| => if s[i] == '\\' then '/' else s[i])
  }

  function NormalizedPath(path: string): string {
    var value := Strip(SlashesOnly(path));
    if StartsWith(value, "a/") || StartsWith(value, "b/") then value[2..] else value
  }

  function UpperChar(c: char): char {
    if 'a' <= c <= 'z' then c - 'a' + 'A' else c
  }

  function Upper(s: string): string {
    seq(|s|, i requires 0 <= i < |s| => UpperChar(s[i]))
  }

  function CweOf(table: CweTable, ruleId: string): string {
    if ruleId in table then table[ruleId] else ruleId
  }

  function Abs(x: int): nat {
    if x < 0 then -x else x
  }

  function Min(x: int, y: int): int {
    if x <= y then x else y
  }

  /** How far a reported line is from the expected range. */
  function Distance(truth: Truth, line: int): int {
    if truth.startLine <= line <= truth.endLine then 0
    else Min(Abs(line - truth.startLine), Abs(line - truth.endLine))
  }

  /** A prediction may be credited to a truth: same file, same weakness, close enough. */
  predicate Admissible(truth: Truth, finding: Finding, tolerance: int, table: CweTable) {
    && NormalizedPath(finding.path) == NormalizedPath(truth.path)
    && Upper(CweOf(table, finding.ruleId)) == Upper(truth.cwe)
    && Distance(truth, finding.line) <= tolerance
  }

  // ---- What is admissible --------------------------------------------------

  /** How many lines two places are apart. */
  function Gap(a: int, b: int): nat {
    if a <= b then b - a else a - b
  }

  /** The distance from an expected range is that to its nearest line; from a reversed range, to the nearer end. */
  lemma NearestLine(truth: Truth, line: int)
    ensures truth.startLine <= truth.endLine ==>
      && (forall k | truth.startLine <= k <= truth.endLine :: Distance(truth, line) <= Gap(line, k))
      && (exists k :: truth.startLine <= k <= truth.endLine && Distance(truth, line) == Gap(line, k))
    ensures truth.startLine > truth.endLine ==>
      var first, last := Gap(line, truth.startLine), Gap(line, truth.endLine);
      Distance(truth, line) <= first && Distance(truth, line) <= last && Distance(truth, line) in {first, last}
  {
    var nearest :=
      if truth.startLine <= line <= truth.endLine then line
      else if Distance(truth, line) == Abs(line - truth.startLine) then truth.startLine
      else truth.endLine;
    assert Distance(truth, line) == Gap(line, nearest);
  }

  /** Two letters that are the same but for the case of an ASCII letter. */
  predicate SameLetter(c: char, d: char) {
    || c == d
    || ('a' <= c <= 'z' && d as int == c as int - 32)
    || ('a' <= d <= 'z' && c as int == d as int - 32)
  }

  predicate SameText(s: string, t: string) {
    |s| == |t| && forall i | 0 <= i < |s| :: SameLetter(s[i], t[i])
  }

  lemma UpperExactly(s: string, t: string)
    ensures Upper(s) == Upper(t) <==> SameText(s, t)
  {
    if Upper(s) == Upper(t) {
      forall i | 0 <= i < |s|
        ensures SameLetter(s[i], t[i])
      {
        assert UpperChar(s[i]) == Upper(s)[i] == Upper(t)[i] == UpperChar(t[i]);
      }
    }
  }

  /** Backslashes become slashes, and nothing else changes. */
  lemma SlashesExactly(s: string)
    ensures |SlashesOnly(s)| == |s|
    ensures forall i | 0 <= i < |s| :: if s[i] == '\\' then SlashesOnly(s)[i] == '/' else SlashesOnly(s)[i] == s[i]
  {
  }

  /**
   * A path is the same with white space around it and behind either prefix of a diff, with slashes
   * or backslashes.
   */
  lemma PathNormalized(pad: string, path: string, pad': string)
    requires Spaces(pad) && Spaces(pad') && Bare(path) && '\\' !in path
    requires !StartsWith(path, "a/") && !StartsWith(path, "b/")
    ensures NormalizedPath(pad + path + pad') == path
    ensures NormalizedPath(pad + ("a/" + path) + pad') == path && NormalizedPath(pad + ("b/" + path) + pad') == path
  {
    PaddedPath(pad, path, pad');
    PaddedPath(pad, "a/" + path, pad');
    PaddedPath(pad, "b/" + path, pad');
    assert ("a/" + path)[2..] == path && ("b/" + path)[2..] == path;
  }

  lemma PaddedPath(pad: string, path: string, pad': string)
    requires Spaces(pad) && Spaces(pad') && Bare(path) && '\\' !in path
    ensures Strip(SlashesOnly(pad + path + pad')) == path
  {
    hide Strip;
    assert '\\' !in pad && '\\' !in pad' by {
      assert !IsSpace('\\');
    }
    assert SlashesOnly(pad + path + pad') == pad + path + pad';
    StripsPadding(pad, path, pad');
  }

  /**
   * A prediction may be credited to an expected finding exactly if the paths come to the same, the
   * weakness is the same but for case, by the table or by its own name where the table has none,
   * and the line is within the tolerance of the range.
   */
  lemma AdmissibleExactly(truth: Truth, finding: Finding, tolerance: int, table: CweTable)
    ensures Admissible(truth, finding, tolerance, table) <==>
      && NormalizedPath(finding.path) == NormalizedPath(truth.path)
      && (finding.ruleId in table ==> SameText(table[finding.ruleId], truth.cwe))
      && (finding.ruleId !in table ==> SameText(finding.ruleId, truth.cwe))
      && (truth.startLine <= truth.endLine ==>
            exists k :: truth.startLine <= k <= truth.endLine && Gap(finding.line, k) <= tolerance)
      && (truth.startLine > truth.endLine ==> Distance(truth, finding.line) <= tolerance)
  {
    hide NormalizedPath, Upper, SameText, Distance;
    NearestLine(truth, finding.line);
    UpperExactly(CweOf(table, finding.ruleId), truth.cwe);
  }

  function EdgeKey(e: Edge): Key {
    (e.distance, e.predicted)
  }

  /** `list` holds exactly the admissible predictions of `truth`, once each, closest first. */
  ghost predicate EdgeListOf(truth: Truth, predicted: seq<Finding>, tolerance: int, table: CweTable, list: seq<Edge>) {
    && SortedBy(list, EdgeKey)
    && Distinct(list)
    && (forall e :: e in list <==> IsEdge(truth, predicted, tolerance, table, e))
  }

  predicate IsEdge(truth: Truth, predicted: seq<Finding>, tolerance: int, table: CweTable, e: Edge) {
    && e.predicted < |predicted|
    && Admissible(truth, predicted[e.predicted], tolerance, table)
    && e.distance == Distance(truth, predicted[e.predicted].line)
  }

  ghost predicate CandidateGraph(expected: seq<Truth>, predicted: seq<Finding>, tolerance: int, table: CweTable,
                                 edges: seq<seq<Edge>>) {
    && |edges| == |expected|
    && forall t | 0 <= t < |expected| :: EdgeListOf(expected[t], predicted, tolerance, table, edges[t])
  }

  /** The three tests a prediction must pass, and its distance if it does. */
  method TestEdge(truth: Truth, finding: Finding, tolerance: int, table: CweTable) returns (distance: Option<int>)
    ensures distance.Some? <==> Admissible(truth, finding, tolerance, table)
    ensures distance.Some? ==> distance.value == Distance(truth, finding.line)
  {
    if NormalizedPath(finding.path) != NormalizedPath(truth.path) {
      return None;
    }
    if Upper(CweOf(table, finding.ruleId)) != Upper(truth.cwe) {
      return None;
    }
    var d := if truth.startLine <= finding.line <= truth.endLine then 0
      else Min(Abs(finding.line - truth.startLine), Abs(finding.line - truth.endLine));
    return if d <= tolerance then Some(d) else None;
  }

  /** The edges of a truth are those of the predictions seen so far. */
  ghost predicate EdgesBelow(truth: Truth, predicted: seq<Finding>, tolerance: int, table: CweTable, options: seq<Edge>,
                             p: nat) {
    && (forall e :: e in options <==> IsEdge(truth, predicted, tolerance, table, e) && e.predicted < p)
    && (forall i, j | 0 <= i < j < |options| :: options[i].predicted < options[j].predicted)
  }

  lemma EdgesBelowNext(truth: Truth, predicted: seq<Finding>, tolerance: int, table: CweTable, options: seq<Edge>,
                       p: nat, distance: Option<int>)
    requires EdgesBelow(truth, predicted, tolerance, table, options, p) && p < |predicted|
    requires distance.Some? <==> Admissible(truth, predicted[p], tolerance, table)
    requires distance.Some? ==> distance.value == Distance(truth, predicted[p].line)
    ensures EdgesBelow(truth, predicted, tolerance, table, if distance.Some? then options + [Edge(p, distance.value)]
      else options, p + 1)
  {
    hide Admissible, Distance;
    assert forall e | e in options :: e.predicted < p;
  }

  method Options(truth: Truth, predicted: seq<Finding>, tolerance: int, table: CweTable) returns (options: seq<Edge>)
    ensures EdgesBelow(truth, predicted, tolerance, table, options, |predicted|)
  {
    hide Admissible, Distance;
    options := [];
    for p := 0 to |predicted|
      invariant EdgesBelow(truth, predicted, tolerance, table, options, p)
    {
      var distance := TestEdge(truth, predicted[p], tolerance, table);
      EdgesBelowNext(truth, predicted, tolerance, table, options, p, distance);
      if distance.Some? {
        options := options + [Edge(p, distance.value)];
      }
    }
  }

  lemma SortedOptions(truth: Truth, predicted: seq<Finding>, tolerance: int, table: CweTable, options: seq<Edge>)
    requires EdgesBelow(truth, predicted, tolerance, table, options, |predicted|)
    ensures EdgeListOf(truth, predicted, tolerance, table, Sort(options, EdgeKey))
  {
    hide Admissible, Distance, Sort;
    SortOrders(options, EdgeKey);
    SortKeepsElements(options, EdgeKey);
  }

  method CandidateEdges(expected: seq<Truth>, predicted: seq<Finding>, tolerance: int, table: CweTable)
    returns (edges: seq<seq<Edge>>)
    ensures CandidateGraph(expected, predicted, tolerance, table, edges)
  {
    hide EdgeListOf;
    edges := [];
    for t := 0 to |expected|
      invariant CandidateGraph(expected[..t], predicted, tolerance, table, edges)
    {
      var options := Options(expected[t], predicted, tolerance, table);
      SortedOptions(expected[t], predicted, tolerance, table, options);
      var list := Sort(options, EdgeKey);
      GraphExtended(expected[..t], expected[t], predicted, tolerance, table, edges, list);
      assert expected[..t + 1] == expected[..t] + [expected[t]];
      edges := edges + [list];
    }
    assert expected[..|expected|] == expected;
  }

  lemma GraphExtended(expected: seq<Truth>, truth: Truth, predicted: seq<Finding>, tolerance: int, table: CweTable,
                      edges: seq<seq<Edge>>, list: seq<Edge>)
    requires CandidateGraph(expected, predicted, tolerance, table, edges)
    requires EdgeListOf(truth, predicted, tolerance, table, list)
    ensures CandidateGraph(expected + [truth], predicted, tolerance, table, edges + [list])
  {
    hide EdgeListOf;
    forall u | 0 <= u < |expected| + 1
      ensures EdgeListOf((expected + [truth])[u], predicted, tolerance, table, (edges + [list])[u])
    {
      if u < |expected| {
        assert EdgeListOf(expected[u], predicted, tolerance, table, edges[u]);
      }
    }
  }

  // ---- Pairings -----------------------------------------------------------

  /** The predictions a truth may be paired with. */
  ghost function Neighbours(edges: seq<seq<Edge>>, t: nat): set<nat>
    requires t < |edges|
  {
    set e | e in edges[t] :: e.predicted
  }

  ghost predicate AlongEdges(edges: seq<seq<Edge>>, owner: map<nat, nat>) {
    forall p | p in owner :: owner[p] < |edges| && p in Neighbours(edges, owner[p])
  }

  ghost predicate InjectiveOutside(owner: map<nat, nat>, hidden: set<nat>) {
    forall p, q | p in owner && q in owner && p !in hidden && q !in hidden && owner[p] == owner[q] :: p == q
  }

  ghost function OwnedOutside(owner: map<nat, nat>, hidden: set<nat>): set<nat> {
    set p | p in owner && p !in hidden :: owner[p]
  }

  /** A one-to-one pairing of predictions with truths that uses only admissible edges. */
  ghost predicate IsPairing(edges: seq<seq<Edge>>, owner: map<nat, nat>) {
    AlongEdges(edges, owner) && InjectiveOutside(owner, {})
  }

  /** Every edge out of `stuck` ends in `taken`, and `taken` is owned by `stuck` alone. */
  ghost predicate Blocked(edges: seq<seq<Edge>>, owner: map<nat, nat>, stuck: set<nat>, taken: set<nat>) {
    && (forall b | b in stuck :: b < |edges| && Neighbours(edges, b) <= taken)
    && (forall p | p in taken :: p in owner && owner[p] in stuck)
  }

  /** Every prediction seen since `before` is owned, and its owner has no edge out of what was seen. */
  ghost predicate Explored(edges: seq<seq<Edge>>, owner: map<nat, nat>, before: set<nat>, seen: set<nat>) {
    forall p | p in seen - before :: p in owner && owner[p] < |edges| && Neighbours(edges, owner[p]) <= seen
  }

  ghost predicate SameOwners(was: map<nat, nat>, owner: map<nat, nat>, predictions: set<nat>) {
    forall p | p in predictions :: (p in owner <==> p in was) && (p in owner ==> owner[p] == was[p])
  }

  /** `p` is in the list, and everything before it there is owned. */
  ghost predicate NearestFree(list: seq<Edge>, p: nat, owned: set<nat>) {
    exists i :: 0 <= i < |list| && list[i].predicted == p && forall j | 0 <= j < i :: list[j].predicted in owned
  }

  /** No owner could have a nearer prediction that nobody owns. */
  ghost predicate NearestFirst(edges: seq<seq<Edge>>, owner: map<nat, nat>) {
    forall p | p in owner && owner[p] < |edges| :: NearestFree(edges[owner[p]], p, owner.Keys)
  }

  lemma {:induction false} ImageSize(m: map<nat, nat>, keys: set<nat>)
    requires keys <= m.Keys
    ensures |set p | p in keys :: m[p]| <= |keys|
    ensures (forall p, q | p in keys && q in keys && m[p] == m[q] :: p == q) ==> |set p | p in keys :: m[p]| == |keys|
    decreases |keys|
  {
    if keys == {} {
      assert (set p | p in keys :: m[p]) == {};
    } else {
      var k :| k in keys;
      var rest := keys - {k};
      ImageSize(m, rest);
      assert (set p | p in keys :: m[p]) == (set p | p in rest :: m[p]) + {m[k]};
    }
  }

  lemma SubsetSize(a: set<nat>, b: set<nat>)
    requires a <= b
    ensures |a| <= |b|
  {
    assert b == a + (b - a);
  }

  ghost function Range(n: nat): (r: set<nat>)
    ensures forall t: nat :: t in r <==> t < n
    ensures |r| == n
  {
    if n == 0 then {} else Range(n - 1) + {n - 1}
  }

  /** A pairing that uses only edges covered by `taken` and `free` is no larger than the cover. */
  lemma CoverBounds(other: map<nat, nat>, taken: set<nat>, free: set<nat>)
    requires InjectiveOutside(other, {})
    requires forall p | p in other :: p in taken || other[p] in free
    ensures |other| <= |taken| + |free|
  {
    var inside, outside := other.Keys * taken, other.Keys - taken;
    ImageSize(other, outside);
    SubsetSize(set p | p in outside :: other[p], free);
    SubsetSize(inside, taken);
    assert other.Keys == inside + outside;
    assert |other| == |other.Keys| == |inside| + |outside|;
  }

  /** A pairing with a separate edge for every vertex of the cover is at least as large as the cover. */
  lemma CoverIsReached(owner: map<nat, nat>, taken: set<nat>, free: set<nat>)
    requires taken <= owner.Keys
    requires forall t | t in free :: exists p :: p in owner && p !in taken && owner[p] == t
    ensures |taken| + |free| <= |owner|
  {
    var held := owner.Keys - taken;
    ImageSize(owner, held);
    SubsetSize(free, set p | p in held :: owner[p]);
    assert owner.Keys == taken + held;
    assert |owner| == |owner.Keys| == |taken| + |held|;
  }

  /**
   * Koenig's argument: when every truth is either paired or stuck, the pairing
   * uses one edge per vertex of the cover `taken` + (truths not stuck), so no pairing is larger.
   */
  lemma CoverMakesMaximum(edges: seq<seq<Edge>>, owner: map<nat, nat>, stuck: set<nat>, taken: set<nat>,
                          other: map<nat, nat>)
    requires IsPairing(edges, owner) && IsPairing(edges, other)
    requires Blocked(edges, owner, stuck, taken)
    requires forall t: nat | t < |edges| :: t in stuck || t in OwnedOutside(owner, {})
    ensures |other| <= |owner|
  {
    var free := Range(|edges|) - stuck;
    EdgesCovered(edges, owner, stuck, taken, other);
    forall t | t in free
      ensures exists p :: p in owner && p !in taken && owner[p] == t
    {
      PairedOutside(edges, owner, stuck, taken, t);
    }
    hide *;
    CoverBounds(other, taken, free);
    CoverIsReached(owner, taken, free);
  }

  lemma EdgesCovered(edges: seq<seq<Edge>>, owner: map<nat, nat>, stuck: set<nat>, taken: set<nat>,
                     other: map<nat, nat>)
    requires IsPairing(edges, other) && Blocked(edges, owner, stuck, taken)
    ensures InjectiveOutside(other, {}) && taken <= owner.Keys
    ensures forall p | p in other :: p in taken || other[p] in Range(|edges|) - stuck
  {
    hide Range, InjectiveOutside;
    forall p | p in other
      ensures p in taken || other[p] in Range(|edges|) - stuck
    {
      assert p in Neighbours(edges, other[p]);
    }
  }

  lemma PairedOutside(edges: seq<seq<Edge>>, owner: map<nat, nat>, stuck: set<nat>, taken: set<nat>, t: nat)
    requires Blocked(edges, owner, stuck, taken) && t !in stuck && t in OwnedOutside(owner, {})
    ensures exists p :: p in owner && p !in taken && owner[p] == t
  {
    var p :| p in owner && owner[p] == t;
    assert p !in taken;
  }

  // ---- Augmenting paths ---------------------------------------------------

  class Matcher {
    const edges: seq<seq<Edge>>
    const predictions: nat
    var owner: map<nat, nat>
    var visited: set<nat>

    constructor (edges: seq<seq<Edge>>, predictions: nat)
      ensures this.edges == edges && this.predictions == predictions
      ensures owner == map[] && visited == {}
    {
      this.edges, this.predictions := edges, predictions;
      owner, visited := map[], {};
    }

    ghost predicate Valid()
      reads this
    {
      && (forall t: nat | t < |edges| :: Neighbours(edges, t) <= Range(predictions))
      && AlongEdges(edges, owner)
      && visited <= Range(predictions)
    }

    /**
     * Finds a prediction for truth `t`, moving other truths to other predictions if
     * needed.  `stuck` and `taken` are what earlier failed searches explored: this search
     * cannot succeed from inside `stuck` and never moves anything in `taken`.
     */
    method Assign(t: nat, ghost stuck: set<nat>, ghost taken: set<nat>) returns (ok: bool)
      requires Valid() && t < |edges|
      requires InjectiveOutside(owner, visited) && t !in OwnedOutside(owner, visited)
      requires Blocked(edges, owner, stuck, taken)
      requires NearestFirst(edges, owner) && visited <= owner.Keys
      modifies this`owner, this`visited
      ensures Valid() && old(visited) <= visited
      ensures SameOwners(old(owner), owner, taken) && SameOwners(old(owner), owner, old(visited))
      ensures NearestFirst(edges, owner) && old(owner).Keys <= owner.Keys
      ensures ok ==> t !in stuck
      ensures ok ==> InjectiveOutside(owner, old(visited))
      ensures ok ==> OwnedOutside(owner, old(visited)) == OwnedOutside(old(owner), old(visited)) + {t}
      ensures !ok ==> owner == old(owner) && Neighbours(edges, t) <= visited <= owner.Keys
      ensures !ok ==> Explored(edges, owner, old(visited), visited)
      decreases Range(predictions) - visited
    {
      NothingMoved(edges, owner, taken, visited);
      hide Range, OwnedOutside, InjectiveOutside, AlongEdges, Blocked, Explored, SameOwners, Neighbours, NearestFirst;
      for i := 0 to |edges[t]|
        invariant Valid() && old(visited) <= visited <= owner.Keys && owner == old(owner)
        invariant forall j | 0 <= j < i :: edges[t][j].predicted in visited
        invariant Explored(edges, owner, old(visited), visited)
      {
        var p := edges[t][i].predicted;
        EdgeIsNeighbour(edges, t, i);
        if p in visited {
          continue;
        }
        ghost var unseen := visited;
        visited := visited + {p};
        BlockedStep(edges, owner, stuck, taken, t, p);
        if p !in owner {
          TakesFree(edges, owner, taken, old(visited), t, i, unseen);
          owner := owner[p := t];
          return true;
        }
        var previous := owner[p];
        ghost var seen := visited;
        AlongEdgesStep(edges, owner, p, t);
        MayMove(owner, old(visited), seen, p);
        var moved := Assign(previous, stuck, taken);
        if moved {
          TakesOver(edges, old(owner), owner, taken, old(visited), t, i, unseen, seen);
          owner := owner[p := t];
          return true;
        }
        ExploredFurther(edges, owner, old(visited), unseen, p, visited);
      }
      AllSeen(edges, t, visited);
      return false;
    }
  }

  lemma NothingMoved(edges: seq<seq<Edge>>, owner: map<nat, nat>, taken: set<nat>, visited: set<nat>)
    ensures Explored(edges, owner, visited, visited)
    ensures SameOwners(owner, owner, taken) && SameOwners(owner, owner, visited)
  {
  }

  /** `t` takes its `i`-th prediction, which nobody owns. */
  lemma TakesFree(edges: seq<seq<Edge>>, owner: map<nat, nat>, taken: set<nat>, hidden: set<nat>, t: nat, i: nat,
                  unseen: set<nat>)
    requires t < |edges| && i < |edges[t]| && edges[t][i].predicted !in owner
    requires AlongEdges(edges, owner) && NearestFirst(edges, owner)
    requires InjectiveOutside(owner, hidden) && t !in OwnedOutside(owner, hidden)
    requires edges[t][i].predicted !in hidden && edges[t][i].predicted !in taken && unseen <= owner.Keys
    requires forall j | 0 <= j < i :: edges[t][j].predicted in unseen
    ensures var after := owner[edges[t][i].predicted := t];
      && AlongEdges(edges, after) && NearestFirst(edges, after)
      && SameOwners(owner, after, taken) && SameOwners(owner, after, hidden)
      && InjectiveOutside(after, hidden) && OwnedOutside(after, hidden) == OwnedOutside(owner, hidden) + {t}
  {
    hide *;
    var p := edges[t][i].predicted;
    EdgeIsNeighbour(edges, t, i);
    AlongEdgesStep(edges, owner, p, t);
    NearestKept(edges, owner, t, i, unseen);
    OwnedAfterTaking(owner, hidden, p, t);
    NothingMoved(edges, owner, taken, hidden);
    OthersKept(owner, owner, taken, p, t);
    OthersKept(owner, owner, hidden, p, t);
  }

  /** `t` takes its `i`-th prediction, whose owner moved to another one. */
  lemma TakesOver(edges: seq<seq<Edge>>, owner: map<nat, nat>, moved: map<nat, nat>, taken: set<nat>, hidden: set<nat>,
                  t: nat, i: nat, unseen: set<nat>, seen: set<nat>)
    requires t < |edges| && i < |edges[t]| && edges[t][i].predicted in owner
    requires AlongEdges(edges, moved) && NearestFirst(edges, moved) && owner.Keys <= moved.Keys
    requires InjectiveOutside(owner, hidden) && t !in OwnedOutside(owner, hidden)
    requires SameOwners(owner, moved, taken) && SameOwners(owner, moved, seen) && InjectiveOutside(moved, seen)
    requires OwnedOutside(moved, seen) == OwnedOutside(owner, seen) + {owner[edges[t][i].predicted]}
    requires edges[t][i].predicted !in hidden && edges[t][i].predicted !in taken && unseen <= owner.Keys
    requires hidden <= seen && edges[t][i].predicted in seen
    requires forall j | 0 <= j < i :: edges[t][j].predicted in unseen
    ensures var after := moved[edges[t][i].predicted := t];
      && AlongEdges(edges, after) && NearestFirst(edges, after)
      && SameOwners(owner, after, taken) && SameOwners(owner, after, hidden)
      && InjectiveOutside(after, hidden) && OwnedOutside(after, hidden) == OwnedOutside(owner, hidden) + {t}
  {
    hide *;
    var p := edges[t][i].predicted;
    EdgeIsNeighbour(edges, t, i);
    AlongEdgesStep(edges, moved, p, t);
    NearestKept(edges, moved, t, i, unseen);
    FewerKept(owner, moved, hidden, seen);
    OwnersMeaning(owner, moved, seen);
    OwnedAfterMoving(owner, moved, hidden, seen, p, t);
    OthersKept(owner, moved, taken, p, t);
    OthersKept(owner, moved, hidden, p, t);
  }

  lemma EdgeIsNeighbour(edges: seq<seq<Edge>>, t: nat, i: nat)
    requires t < |edges| && i < |edges[t]|
    ensures edges[t][i].predicted in Neighbours(edges, t)
  {
  }

  /** Taking the next edge after owned ones leaves everyone with a nearest prediction. */
  lemma NearestKept(edges: seq<seq<Edge>>, owner: map<nat, nat>, t: nat, i: nat, seen: set<nat>)
    requires NearestFirst(edges, owner) && t < |edges| && i < |edges[t]| && seen <= owner.Keys
    requires forall j | 0 <= j < i :: edges[t][j].predicted in seen
    ensures NearestFirst(edges, owner[edges[t][i].predicted := t])
  {
    var p := edges[t][i].predicted;
    var after := owner[p := t];
    forall q | q in after && after[q] < |edges|
      ensures NearestFree(edges[after[q]], q, after.Keys)
    {
      if q != p {
        NearestFreeStill(edges[after[q]], q, owner.Keys, after.Keys);
      }
    }
  }

  lemma NearestFreeStill(list: seq<Edge>, p: nat, owned: set<nat>, more: set<nat>)
    requires NearestFree(list, p, owned) && owned <= more
    ensures NearestFree(list, p, more)
  {
  }

  lemma AllSeen(edges: seq<seq<Edge>>, t: nat, seen: set<nat>)
    requires t < |edges| && forall j | 0 <= j < |edges[t]| :: edges[t][j].predicted in seen
    ensures Neighbours(edges, t) <= seen
  {
  }

  lemma FewerKept(was: map<nat, nat>, owner: map<nat, nat>, fewer: set<nat>, more: set<nat>)
    requires SameOwners(was, owner, more) && fewer <= more
    ensures SameOwners(was, owner, fewer)
  {
  }

  lemma OwnersMeaning(was: map<nat, nat>, owner: map<nat, nat>, seen: set<nat>)
    requires SameOwners(was, owner, seen)
    ensures forall q | q in seen :: (q in owner <==> q in was) && (q in owner ==> owner[q] == was[q])
  {
  }

  lemma OthersKept(was: map<nat, nat>, owner: map<nat, nat>, predictions: set<nat>, p: nat, t: nat)
    requires SameOwners(was, owner, predictions)
    requires p !in predictions
    ensures SameOwners(was, owner[p := t], predictions)
  {
  }

  lemma ExploredFurther(edges: seq<seq<Edge>>, owner: map<nat, nat>, before: set<nat>, unseen: set<nat>, p: nat,
                        seen: set<nat>)
    requires Explored(edges, owner, before, unseen) && Explored(edges, owner, unseen + {p}, seen)
    requires unseen + {p} <= seen
    requires p in owner && owner[p] < |edges| && Neighbours(edges, owner[p]) <= seen
    ensures Explored(edges, owner, before, seen)
  {
  }

  lemma BlockedStep(edges: seq<seq<Edge>>, owner: map<nat, nat>, stuck: set<nat>, taken: set<nat>, t: nat, p: nat)
    requires Blocked(edges, owner, stuck, taken) && t < |edges| && p in Neighbours(edges, t)
    ensures t in stuck ==> p in taken
    ensures p in taken ==> p in owner && owner[p] in stuck
  {
  }

  lemma AlongEdgesStep(edges: seq<seq<Edge>>, owner: map<nat, nat>, p: nat, t: nat)
    requires AlongEdges(edges, owner) && t < |edges| && p in Neighbours(edges, t)
    ensures AlongEdges(edges, owner[p := t])
    ensures p in owner ==> owner[p] < |edges|
  {
  }

  /** Once `p` is seen, its owner owns nothing else that is not. */
  lemma MayMove(owner: map<nat, nat>, hidden: set<nat>, seen: set<nat>, p: nat)
    requires InjectiveOutside(owner, hidden) && hidden <= seen && p in seen && p !in hidden && p in owner
    ensures InjectiveOutside(owner, seen) && owner[p] !in OwnedOutside(owner, seen)
  {
  }

  lemma OwnedAfterTaking(owner: map<nat, nat>, hidden: set<nat>, p: nat, t: nat)
    requires p !in owner && p !in hidden
    requires InjectiveOutside(owner, hidden) && t !in OwnedOutside(owner, hidden)
    ensures InjectiveOutside(owner[p := t], hidden)
    ensures OwnedOutside(owner[p := t], hidden) == OwnedOutside(owner, hidden) + {t}
  {
    var after := owner[p := t];
    assert after[p] == t;
    forall x | x in OwnedOutside(owner, hidden)
      ensures x in OwnedOutside(after, hidden)
    {
      var q :| q in owner && q !in hidden && owner[q] == x;
      assert q in after && after[q] == x;
    }
  }

  /** A truth is not owned both by a prediction the search had seen and by one it moved to. */
  lemma OnlyOneSide(owner: map<nat, nat>, moved: map<nat, nat>, hidden: set<nat>, seen: set<nat>, p: nat, a: nat,
                    b: nat)
    requires p in owner && p in seen && p !in hidden && InjectiveOutside(owner, hidden) && hidden <= seen
    requires a in owner && a !in hidden && a in seen && a != p
    requires b in moved && b !in seen
    requires OwnedOutside(moved, seen) == OwnedOutside(owner, seen) + {owner[p]}
    ensures owner[a] != moved[b]
  {
    assert moved[b] in OwnedOutside(moved, seen);
    if moved[b] != owner[p] {
      var c :| c in owner && c !in seen && owner[c] == moved[b];
    }
  }

  /** The owners after truth `owner[p]` moved away (to a prediction outside `seen`) and `t` took `p`. */
  lemma OwnedAfterMoving(owner: map<nat, nat>, moved: map<nat, nat>, hidden: set<nat>, seen: set<nat>, p: nat, t: nat)
    requires p in owner && p !in hidden && hidden <= seen && p in seen
    requires InjectiveOutside(owner, hidden) && t !in OwnedOutside(owner, hidden)
    requires forall q | q in seen :: (q in moved <==> q in owner) && (q in moved ==> moved[q] == owner[q])
    requires InjectiveOutside(moved, seen)
    requires OwnedOutside(moved, seen) == OwnedOutside(owner, seen) + {owner[p]}
    ensures InjectiveOutside(moved[p := t], hidden)
    ensures OwnedOutside(moved[p := t], hidden) == OwnedOutside(owner, hidden) + {t}
  {
    var after := moved[p := t];
    forall q | q in after && q !in hidden && q != p
      ensures after[q] in OwnedOutside(owner, hidden)
      ensures q in seen ==> owner[q] == after[q] && q in owner
      ensures q !in seen ==> after[q] in OwnedOutside(moved, seen)
    {
      if q !in seen {
        assert after[q] in OwnedOutside(moved, seen);
        if after[q] != owner[p] {
          var r :| r in owner && r !in seen && owner[r] == after[q];
        }
      }
    }
    forall q, r | q in after && r in after && q !in hidden && r !in hidden && after[q] == after[r]
      ensures q == r
    {
      if q != p && r != p && (q in seen) != (r in seen) {
        OnlyOneSide(owner, moved, hidden, seen, p, if q in seen then q else r, if q in seen then r else q);
      }
    }
    forall x | x in OwnedOutside(owner, hidden) + {t}
      ensures x in OwnedOutside(after, hidden)
    {
      if x == t {
        assert after[p] == t;
      } else {
        var q :| q in owner && q !in hidden && owner[q] == x;
        if q in seen && q != p {
          assert after[q] == x;
        } else {
          assert x in OwnedOutside(moved, seen);
          var r :| r in moved && r !in seen && moved[r] == x;
          assert after[r] == x;
        }
      }
    }
  }

  // ---- The matcher --------------------------------------------------------

  /** A one-to-one pairing of predictions (keys) with truths (values), stated on the findings themselves. */
  ghost predicate OneToOne(expected: seq<Truth>, predicted: seq<Finding>, tolerance: int, table: CweTable,
                           pairing: map<nat, nat>) {
    && (forall p | p in pairing ::
          && p < |predicted| && pairing[p] < |expected|
          && Admissible(expected[pairing[p]], predicted[p], tolerance, table))
    && (forall p, q | p in pairing && q in pairing && pairing[p] == pairing[q] :: p == q)
  }

  /** `n` is the size of the largest one-to-one pairing. */
  ghost predicate MaximumSize(expected: seq<Truth>, predicted: seq<Finding>, tolerance: int, table: CweTable, n: nat) {
    && (exists best :: OneToOne(expected, predicted, tolerance, table, best) && |best| == n)
    && (forall other | OneToOne(expected, predicted, tolerance, table, other) :: |other| <= n)
  }

  ghost predicate ValidMatch(expected: seq<Truth>, predicted: seq<Finding>, tolerance: int, table: CweTable, m: Match) {
    && m.expectedIndex < |expected| && m.predictedIndex < |predicted|
    && Admissible(expected[m.expectedIndex], predicted[m.predictedIndex], tolerance, table)
    && m.distance == Distance(expected[m.expectedIndex], predicted[m.predictedIndex].line)
  }

  /** Admissible matches in order of the expected finding, with no finding used twice. */
  ghost predicate ValidMatches(expected: seq<Truth>, predicted: seq<Finding>, tolerance: int, table: CweTable,
                               matches: seq<Match>) {
    && (forall m | m in matches :: ValidMatch(expected, predicted, tolerance, table, m))
    && (forall i, j | 0 <= i < j < |matches| :: matches[i].expectedIndex < matches[j].expectedIndex)
    && (forall i, j | 0 <= i < j < |matches| :: matches[i].predictedIndex != matches[j].predictedIndex)
  }

  lemma PairingsAreOneToOne(expected: seq<Truth>, predicted: seq<Finding>, tolerance: int, table: CweTable,
                            edges: seq<seq<Edge>>, pairing: map<nat, nat>)
    requires CandidateGraph(expected, predicted, tolerance, table, edges)
    ensures IsPairing(edges, pairing) <==> OneToOne(expected, predicted, tolerance, table, pairing)
  {
    hide Admissible, Distance, SortedBy, Distinct;
    forall p | p in pairing && pairing[p] < |edges|
      ensures p in Neighbours(edges, pairing[p]) <==>
              p < |predicted| && Admissible(expected[pairing[p]], predicted[p], tolerance, table)
    {
      var t := pairing[p];
      assert EdgeListOf(expected[t], predicted, tolerance, table, edges[t]);
      if p < |predicted| && Admissible(expected[t], predicted[p], tolerance, table) {
        assert Edge(p, Distance(expected[t], predicted[p].line)) in edges[t];
      }
    }
  }

  /** Truth `a` is tried before truth `b`: it has fewer options, or as many and comes first. */
  predicate TriedFirst(edges: seq<seq<Edge>>, a: nat, b: nat) {
    && a < |edges| && b < |edges|
    && (|edges[a]| < |edges[b]| || (|edges[a]| == |edges[b]| && a < b))
  }

  /** The truths in the order they are tried. */
  method SearchOrder(edges: seq<seq<Edge>>) returns (order: seq<nat>)
    ensures Distinct(order)
    ensures forall t: nat :: t in order <==> t < |edges|
    ensures forall i, j | 0 <= i < j < |order| :: TriedFirst(edges, order[i], order[j])
  {
    var indices: seq<nat> := seq(|edges|, i => i);
    var byDegree := (i: nat) => (if i < |edges| then |edges[i]| else 0, i);
    order := Sort(indices, byDegree);
    SortOrders(indices, byDegree);
    SortKeepsElements(indices, byDegree);
    forall t: nat
      ensures t in order <==> t < |edges|
    {
      assert t < |edges| ==> indices[t] == t;
      assert t in order <==> t in indices;
    }
    forall i, j | 0 <= i < j < |order|
      ensures TriedFirst(edges, order[i], order[j])
    {
      assert order[i] in order && order[j] in order;
      assert Leq(byDegree(order[i]), byDegree(order[j]));
    }
  }

  /** A failed search from `t` adds what it explored to the blocked part. */
  lemma FailureBlocks(edges: seq<seq<Edge>>, owner: map<nat, nat>, stuck: set<nat>, taken: set<nat>, t: nat,
                      visited: set<nat>)
    requires Blocked(edges, owner, stuck, taken) && AlongEdges(edges, owner)
    requires t < |edges| && Neighbours(edges, t) <= visited
    requires Explored(edges, owner, {}, visited)
    ensures Blocked(edges, owner, stuck + {t} + (set p | p in visited :: owner[p]), taken + visited)
  {
  }

  ghost predicate Settled(order: seq<nat>, k: int, stuck: set<nat>, owned: set<nat>)
    requires 0 <= k <= |order|
  {
    && (forall t | t in owned :: t in order[..k])
    && (forall t | t in order[..k] :: t in stuck || t in owned)
  }

  lemma SettledNext(order: seq<nat>, k: int, stuck: set<nat>, owned: set<nat>, stuck': set<nat>, owned': set<nat>)
    requires 0 <= k < |order| && Distinct(order) && Settled(order, k, stuck, owned)
    requires stuck <= stuck' && owned <= owned' <= owned + {order[k]}
    requires order[k] in stuck' || order[k] in owned'
    ensures Settled(order, k + 1, stuck', owned')
  {
    assert order[..k + 1] == order[..k] + [order[k]];
  }

  /** Everything the truths of `group` may be paired with. */
  ghost function OptionsOf(edges: seq<seq<Edge>>, group: set<nat>): set<nat> {
    set t, e | t in group && t < |edges| && e in edges[t] :: e.predicted
  }

  /** `t` and truths tried before it, all of them paired, have too few options between them. */
  ghost predicate Crowded(edges: seq<seq<Edge>>, owned: set<nat>, t: nat, group: set<nat>) {
    && t in group && |OptionsOf(edges, group)| < |group|
    && (forall a | a in group && a != t :: a in owned && TriedFirst(edges, a, t))
  }

  /** What is left out had to be, given what was tried before it. */
  ghost predicate LeftOut(edges: seq<seq<Edge>>, owned: set<nat>, t: nat) {
    exists group :: Crowded(edges, owned, t, group)
  }

  /** The first `k` truths of the order are paired, or left out with a reason. */
  ghost predicate Treated(edges: seq<seq<Edge>>, order: seq<nat>, k: int, owned: set<nat>)
    requires 0 <= k <= |order|
  {
    forall t | t in order[..k] :: t in owned || LeftOut(edges, owned, t)
  }

  lemma TreatedNext(edges: seq<seq<Edge>>, order: seq<nat>, k: int, owned: set<nat>, owned': set<nat>)
    requires 0 <= k < |order| && Treated(edges, order, k, owned) && owned <= owned'
    requires order[k] in owned' || LeftOut(edges, owned', order[k])
    ensures Treated(edges, order, k + 1, owned')
  {
    assert order[..k + 1] == order[..k] + [order[k]];
    forall t | t in order[..k] && t !in owned
      ensures LeftOut(edges, owned', t)
    {
      var group :| Crowded(edges, owned, t, group);
      assert Crowded(edges, owned', t, group);
    }
  }

  /** A failed search found a group with one option fewer than truths. */
  lemma FailureCrowds(edges: seq<seq<Edge>>, owner: map<nat, nat>, order: seq<nat>, k: int, stuck: set<nat>,
                      visited: set<nat>)
    requires 0 <= k < |order| && order[k] < |edges|
    requires InjectiveOutside(owner, {}) && order[k] !in OwnedOutside(owner, {})
    requires Neighbours(edges, order[k]) <= visited <= owner.Keys && Explored(edges, owner, {}, visited)
    requires Settled(order, k, stuck, OwnedOutside(owner, {}))
    requires forall i, j | 0 <= i < j < |order| :: TriedFirst(edges, order[i], order[j])
    ensures LeftOut(edges, OwnedOutside(owner, {}), order[k])
  {
    hide Settled, TriedFirst, Neighbours, OptionsOf, InjectiveOutside, OwnedOutside, Explored;
    var t, moved := order[k], set p | p in visited :: owner[p];
    VisitedOwners(edges, owner, visited);
    forall a | a in moved
      ensures TriedFirst(edges, a, t)
    {
      TriedBefore(edges, order, k, stuck, OwnedOutside(owner, {}), a);
    }
    assert t !in moved;
    OptionsWithin(edges, moved + {t}, visited);
    SubsetSize(OptionsOf(edges, moved + {t}), visited);
    assert Crowded(edges, OwnedOutside(owner, {}), t, moved + {t});
  }

  lemma VisitedOwners(edges: seq<seq<Edge>>, owner: map<nat, nat>, visited: set<nat>)
    requires InjectiveOutside(owner, {}) && visited <= owner.Keys && Explored(edges, owner, {}, visited)
    ensures |set p | p in visited :: owner[p]| == |visited|
    ensures forall p | p in visited ::
      owner[p] in OwnedOutside(owner, {}) && owner[p] < |edges| && Neighbours(edges, owner[p]) <= visited
  {
    hide Neighbours;
    ImageSize(owner, visited);
    assert forall p | p in visited :: p in visited - {};
  }

  lemma TriedBefore(edges: seq<seq<Edge>>, order: seq<nat>, k: int, stuck: set<nat>, owned: set<nat>, a: nat)
    requires 0 <= k < |order| && Settled(order, k, stuck, owned) && a in owned
    requires forall i, j | 0 <= i < j < |order| :: TriedFirst(edges, order[i], order[j])
    ensures TriedFirst(edges, a, order[k])
  {
    assert a in order[..k];
  }

  lemma OptionsWithin(edges: seq<seq<Edge>>, group: set<nat>, visited: set<nat>)
    requires forall a | a in group :: a < |edges| && Neighbours(edges, a) <= visited
    ensures OptionsOf(edges, group) <= visited
  {
    forall p | p in OptionsOf(edges, group)
      ensures p in visited
    {
      var a, e :| a in group && a < |edges| && e in edges[a] && e.predicted == p;
      assert p in Neighbours(edges, a);
    }
  }

  /** Where the search stands after the first `k` truths. */
  ghost predicate Searched(edges: seq<seq<Edge>>, owner: map<nat, nat>, order: seq<nat>, k: int, stuck: set<nat>,
                           taken: set<nat>)
    requires 0 <= k <= |order|
  {
    && InjectiveOutside(owner, {}) && NearestFirst(edges, owner) && Blocked(edges, owner, stuck, taken)
    && Settled(order, k, stuck, OwnedOutside(owner, {})) && Treated(edges, order, k, OwnedOutside(owner, {}))
  }

  lemma NotYetOwned(edges: seq<seq<Edge>>, owner: map<nat, nat>, order: seq<nat>, k: int, stuck: set<nat>,
                    taken: set<nat>)
    requires 0 <= k < |order| && Distinct(order) && Searched(edges, owner, order, k, stuck, taken)
    ensures order[k] !in OwnedOutside(owner, {})
  {
    assert order[k] !in order[..k];
  }

  lemma PlacedNext(edges: seq<seq<Edge>>, was: map<nat, nat>, owner: map<nat, nat>, order: seq<nat>, k: int,
                   stuck: set<nat>, taken: set<nat>)
    requires 0 <= k < |order| && Distinct(order) && Searched(edges, was, order, k, stuck, taken)
    requires InjectiveOutside(owner, {}) && NearestFirst(edges, owner) && SameOwners(was, owner, taken)
    requires OwnedOutside(owner, {}) == OwnedOutside(was, {}) + {order[k]}
    ensures Searched(edges, owner, order, k + 1, stuck, taken)
  {
    hide InjectiveOutside, NearestFirst, OwnedOutside, Neighbours;
    SettledNext(order, k, stuck, OwnedOutside(was, {}), stuck, OwnedOutside(owner, {}));
    TreatedNext(edges, order, k, OwnedOutside(was, {}), OwnedOutside(owner, {}));
  }

  lemma FailedNext(edges: seq<seq<Edge>>, owner: map<nat, nat>, order: seq<nat>, k: int, stuck: set<nat>,
                   taken: set<nat>, visited: set<nat>)
    requires 0 <= k < |order| && order[k] < |edges| && Distinct(order)
    requires Searched(edges, owner, order, k, stuck, taken) && AlongEdges(edges, owner)
    requires Neighbours(edges, order[k]) <= visited <= owner.Keys && Explored(edges, owner, {}, visited)
    requires forall i, j | 0 <= i < j < |order| :: TriedFirst(edges, order[i], order[j])
    ensures Searched(edges, owner, order, k + 1, stuck + {order[k]} + (set p | p in visited :: owner[p]),
                     taken + visited)
  {
    hide *;
    var owned := OwnedOutside(owner, {});
    var stuck' := stuck + {order[k]} + (set p | p in visited :: owner[p]);
    NotYetOwned(edges, owner, order, k, stuck, taken);
    SearchedMeans(edges, owner, order, k, stuck, taken);
    FailureCrowds(edges, owner, order, k, stuck, visited);
    FailureBlocks(edges, owner, stuck, taken, order[k], visited);
    SettledNext(order, k, stuck, owned, stuck', owned);
    TreatedNext(edges, order, k, owned, owned);
    SearchedMeans(edges, owner, order, k + 1, stuck', taken + visited);
  }

  lemma SearchedMeans(edges: seq<seq<Edge>>, owner: map<nat, nat>, order: seq<nat>, k: int, stuck: set<nat>,
                      taken: set<nat>)
    requires 0 <= k <= |order|
    ensures Searched(edges, owner, order, k, stuck, taken) <==>
            && InjectiveOutside(owner, {}) && NearestFirst(edges, owner) && Blocked(edges, owner, stuck, taken)
            && Settled(order, k, stuck, OwnedOutside(owner, {})) && Treated(edges, order, k, OwnedOutside(owner, {}))
  {
  }

  /**
   * Pairs as many truths as possible.  Every truth takes the nearest prediction nobody else
   * owns, and one is left out only when it is crowded out by truths tried before it.
   */
  method MaximumPairing(edges: seq<seq<Edge>>, predictions: nat) returns (owner: map<nat, nat>)
    requires forall t: nat | t < |edges| :: Neighbours(edges, t) <= Range(predictions)
    ensures IsPairing(edges, owner) && NearestFirst(edges, owner)
    ensures forall other | IsPairing(edges, other) :: |other| <= |owner|
    ensures forall t: nat | t < |edges| && t !in OwnedOutside(owner, {}) :: LeftOut(edges, OwnedOutside(owner, {}), t)
  {
    hide Range, OwnedOutside, InjectiveOutside, AlongEdges, Blocked, Explored, Neighbours, NearestFirst;
    hide Searched, SameOwners, Distinct, TriedFirst, LeftOut, IsPairing;
    var matcher := new Matcher(edges, predictions);
    var order := SearchOrder(edges);
    ghost var stuck: set<nat>, taken: set<nat> := {}, {};
    NothingSearched(edges, predictions, order);
    for k := 0 to |order|
      invariant matcher.edges == edges && matcher.predictions == predictions && fresh(matcher)
      invariant matcher.Valid() && Searched(edges, matcher.owner, order, k, stuck, taken)
    {
      assert order[k] in order;
      SearchedMeans(edges, matcher.owner, order, k, stuck, taken);
      NotYetOwned(edges, matcher.owner, order, k, stuck, taken);
      ghost var was := matcher.owner;
      matcher.visited := {};
      var placed := matcher.Assign(order[k], stuck, taken);
      if placed {
        PlacedNext(edges, was, matcher.owner, order, k, stuck, taken);
      } else {
        FailedNext(edges, matcher.owner, order, k, stuck, taken, matcher.visited);
        stuck := stuck + {order[k]} + set p | p in matcher.visited :: matcher.owner[p];
        taken := taken + matcher.visited;
      }
    }
    owner := matcher.owner;
    AllSearched(edges, owner, order, stuck, taken);
  }

  lemma NothingSearched(edges: seq<seq<Edge>>, predictions: nat, order: seq<nat>)
    ensures Searched(edges, map[], order, 0, {}, {}) && AlongEdges(edges, map[])
  {
  }

  lemma AllSearched(edges: seq<seq<Edge>>, owner: map<nat, nat>, order: seq<nat>, stuck: set<nat>, taken: set<nat>)
    requires AlongEdges(edges, owner) && Searched(edges, owner, order, |order|, stuck, taken)
    requires forall t: nat :: t in order <==> t < |edges|
    ensures IsPairing(edges, owner) && NearestFirst(edges, owner)
    ensures forall other | IsPairing(edges, other) :: |other| <= |owner|
    ensures forall t: nat | t < |edges| && t !in OwnedOutside(owner, {}) :: LeftOut(edges, OwnedOutside(owner, {}), t)
  {
    hide AlongEdges, InjectiveOutside, NearestFirst, Blocked, OwnedOutside, LeftOut;
    assert order[..|order|] == order;
    forall other | IsPairing(edges, other)
      ensures |other| <= |owner|
    {
      CoverMakesMaximum(edges, owner, stuck, taken, other);
    }
  }

  function MatchKey(m: Match): Key {
    (m.expectedIndex, m.predictedIndex)
  }

  /** The first edge of `list` that leads to prediction `p`. */
  method EdgeDistance(list: seq<Edge>, p: nat) returns (distance: int)
    requires exists e :: e in list && e.predicted == p
    ensures Edge(p, distance) in list
  {
    var i := 0;
    while list[i].predicted != p
      invariant i < |list|
      invariant forall j | 0 <= j <= i :: j < i ==> list[j].predicted != p
      decreases |list| - i
    {
      i := i + 1;
    }
    return list[i].distance;
  }

  lemma NeighboursInRange(expected: seq<Truth>, predicted: seq<Finding>, tolerance: int, table: CweTable,
                          edges: seq<seq<Edge>>, t: nat)
    requires CandidateGraph(expected, predicted, tolerance, table, edges) && t < |edges|
    ensures Neighbours(edges, t) <= Range(|predicted|)
  {
    hide Admissible, Distance, SortedBy, Distinct;
    assert EdgeListOf(expected[t], predicted, tolerance, table, edges[t]);
  }

  // ---- Which predictions and which truths ------------------------------------

  ghost predicate TakenPrediction(matches: seq<Match>, p: nat) {
    exists m :: m in matches && m.predictedIndex == p
  }

  ghost predicate MatchedTruth(matches: seq<Match>, t: nat) {
    exists m :: m in matches && m.expectedIndex == t
  }

  /** A prediction nearer to a matched truth than the one it got is matched as well. */
  ghost predicate NearestTaken(expected: seq<Truth>, predicted: seq<Finding>, tolerance: int, table: CweTable,
                               matches: seq<Match>) {
    forall m, q: nat | m in matches && m.expectedIndex < |expected| && q < |predicted|
                       && Admissible(expected[m.expectedIndex], predicted[q], tolerance, table)
                       && Nearer(Distance(expected[m.expectedIndex], predicted[q].line), q, m) ::
      TakenPrediction(matches, q)
  }

  predicate Nearer(distance: int, q: nat, m: Match) {
    distance < m.distance || (distance == m.distance && q < m.predictedIndex)
  }

  /** The predictions admissible for a truth of the group. */
  ghost function AdmissibleFor(expected: seq<Truth>, predicted: seq<Finding>, tolerance: int, table: CweTable,
                               group: set<nat>): set<nat> {
    set p, t | 0 <= p < |predicted| && t in group && t < |expected|
               && Admissible(expected[t], predicted[p], tolerance, table) :: p
  }

  /** Truth `a` has fewer admissible predictions than `b`, or as many and comes first. */
  ghost predicate Before(expected: seq<Truth>, predicted: seq<Finding>, tolerance: int, table: CweTable, a: nat,
                         b: nat) {
    var options, options' := |AdmissibleFor(expected, predicted, tolerance, table, {a})|,
                             |AdmissibleFor(expected, predicted, tolerance, table, {b})|;
    options < options' || (options == options' && a < b)
  }

  /**
   * `t` and some matched truths that go before it have fewer admissible predictions than
   * there are of them, so no pairing that serves those truths has room for `t`.
   */
  ghost predicate CrowdedOut(expected: seq<Truth>, predicted: seq<Finding>, tolerance: int, table: CweTable,
                             matches: seq<Match>, t: nat, group: set<nat>) {
    && t in group && |AdmissibleFor(expected, predicted, tolerance, table, group)| < |group|
    && (forall a | a in group && a != t ::
          MatchedTruth(matches, a) && Before(expected, predicted, tolerance, table, a, t))
  }

  ghost predicate OthersCrowdedOut(expected: seq<Truth>, predicted: seq<Finding>, tolerance: int, table: CweTable,
                                   matches: seq<Match>) {
    forall t: nat | t < |expected| && !MatchedTruth(matches, t) ::
      exists group :: CrowdedOut(expected, predicted, tolerance, table, matches, t, group)
  }

  lemma OptionsAreAdmissible(expected: seq<Truth>, predicted: seq<Finding>, tolerance: int, table: CweTable,
                             edges: seq<seq<Edge>>, group: set<nat>)
    requires CandidateGraph(expected, predicted, tolerance, table, edges)
    ensures OptionsOf(edges, group) == AdmissibleFor(expected, predicted, tolerance, table, group)
  {
    hide Admissible, Distance, SortedBy, Distinct;
    forall p: nat
      ensures p in OptionsOf(edges, group) <==> p in AdmissibleFor(expected, predicted, tolerance, table, group)
    {
      if p in OptionsOf(edges, group) {
        var t, e :| t in group && t < |edges| && e in edges[t] && e.predicted == p;
        assert EdgeListOf(expected[t], predicted, tolerance, table, edges[t]);
      }
      if p in AdmissibleFor(expected, predicted, tolerance, table, group) {
        var t :| t in group && t < |expected| && Admissible(expected[t], predicted[p], tolerance, table);
        assert EdgeListOf(expected[t], predicted, tolerance, table, edges[t]);
        assert Edge(p, Distance(expected[t], predicted[p].line)) in edges[t];
      }
    }
  }

  lemma {:induction false} PredictedCount(list: seq<Edge>)
    requires forall i, j | 0 <= i < j < |list| :: list[i].predicted != list[j].predicted
    ensures |set e | e in list :: e.predicted| == |list|
  {
    if list == [] {
      assert (set e | e in list :: e.predicted) == {};
    } else {
      var last, rest := list[|list| - 1], list[..|list| - 1];
      PredictedCount(rest);
      assert list == rest + [last];
      assert (set e | e in list :: e.predicted) == (set e | e in rest :: e.predicted) + {last.predicted};
    }
  }

  lemma EdgesAreOptions(expected: seq<Truth>, predicted: seq<Finding>, tolerance: int, table: CweTable,
                        edges: seq<seq<Edge>>, t: nat)
    requires CandidateGraph(expected, predicted, tolerance, table, edges) && t < |edges|
    ensures |edges[t]| == |AdmissibleFor(expected, predicted, tolerance, table, {t})|
  {
    hide Admissible, Distance, SortedBy, AdmissibleFor;
    OptionsAreAdmissible(expected, predicted, tolerance, table, edges, {t});
    var list := edges[t];
    assert EdgeListOf(expected[t], predicted, tolerance, table, list);
    forall i, j | 0 <= i < j < |list|
      ensures list[i].predicted != list[j].predicted
    {
      assert list[i] in list && list[j] in list;
    }
    PredictedCount(list);
    assert OptionsOf(edges, {t}) == set e | e in list :: e.predicted;
  }

  lemma LeftOutMeans(expected: seq<Truth>, predicted: seq<Finding>, tolerance: int, table: CweTable,
                     edges: seq<seq<Edge>>, owned: set<nat>, matches: seq<Match>, t: nat)
    requires CandidateGraph(expected, predicted, tolerance, table, edges) && LeftOut(edges, owned, t)
    requires forall a | a in owned :: MatchedTruth(matches, a)
    ensures exists group :: CrowdedOut(expected, predicted, tolerance, table, matches, t, group)
  {
    hide CandidateGraph, MatchedTruth, AdmissibleFor, OptionsOf;
    var group :| Crowded(edges, owned, t, group);
    OptionsAreAdmissible(expected, predicted, tolerance, table, edges, group);
    forall a | a in group && a != t
      ensures Before(expected, predicted, tolerance, table, a, t)
    {
      EdgesAreOptions(expected, predicted, tolerance, table, edges, a);
      EdgesAreOptions(expected, predicted, tolerance, table, edges, t);
    }
    assert CrowdedOut(expected, predicted, tolerance, table, matches, t, group);
  }

  /** Along a sorted edge list, everything nearer comes before. */
  lemma NearerIsOwned(expected: seq<Truth>, predicted: seq<Finding>, tolerance: int, table: CweTable,
                      edges: seq<seq<Edge>>, m: Match, q: nat, owned: set<nat>)
    requires CandidateGraph(expected, predicted, tolerance, table, edges)
    requires m.expectedIndex < |edges| && ValidMatch(expected, predicted, tolerance, table, m)
    requires NearestFree(edges[m.expectedIndex], m.predictedIndex, owned)
    requires q < |predicted| && Admissible(expected[m.expectedIndex], predicted[q], tolerance, table)
    requires Nearer(Distance(expected[m.expectedIndex], predicted[q].line), q, m)
    ensures q in owned
  {
    hide Admissible, Distance, Distinct;
    var truth, list := expected[m.expectedIndex], edges[m.expectedIndex];
    var i :| 0 <= i < |list| && list[i].predicted == m.predictedIndex
             && forall j | 0 <= j < i :: list[j].predicted in owned;
    assert EdgeListOf(truth, predicted, tolerance, table, list);
    var e := Edge(q, Distance(truth, predicted[q].line));
    assert e in list && list[i] in list;
    var j :| 0 <= j < |list| && list[j] == e;
    assert i < j ==> Leq(EdgeKey(list[i]), EdgeKey(list[j]));
  }

  /** What the sorted match list says about who is paired with whom. */
  ghost predicate MatchesOf(owner: map<nat, nat>, matches: seq<Match>) {
    && (forall m | m in matches :: m.predictedIndex in owner && owner[m.predictedIndex] == m.expectedIndex)
    && (forall p | p in owner :: TakenPrediction(matches, p))
  }

  lemma NearestMatched(expected: seq<Truth>, predicted: seq<Finding>, tolerance: int, table: CweTable,
                       edges: seq<seq<Edge>>, owner: map<nat, nat>, matches: seq<Match>)
    requires CandidateGraph(expected, predicted, tolerance, table, edges)
    requires ValidMatches(expected, predicted, tolerance, table, matches) && MatchesOf(owner, matches)
    requires NearestFirst(edges, owner)
    ensures NearestTaken(expected, predicted, tolerance, table, matches)
  {
    hide Admissible, Distance, ValidMatch, NearestFree, TakenPrediction, EdgeListOf, Nearer;
    forall m, q: nat | m in matches && m.expectedIndex < |expected| && q < |predicted|
                       && Admissible(expected[m.expectedIndex], predicted[q], tolerance, table)
                       && Nearer(Distance(expected[m.expectedIndex], predicted[q].line), q, m)
      ensures TakenPrediction(matches, q)
    {
      NearerIsOwned(expected, predicted, tolerance, table, edges, m, q, owner.Keys);
    }
  }

  lemma OthersLeftOut(expected: seq<Truth>, predicted: seq<Finding>, tolerance: int, table: CweTable,
                      edges: seq<seq<Edge>>, owner: map<nat, nat>, matches: seq<Match>)
    requires CandidateGraph(expected, predicted, tolerance, table, edges) && MatchesOf(owner, matches)
    requires forall t: nat | t < |edges| && t !in OwnedOutside(owner, {}) :: LeftOut(edges, OwnedOutside(owner, {}), t)
    ensures OthersCrowdedOut(expected, predicted, tolerance, table, matches)
  {
    hide LeftOut, CrowdedOut, EdgeListOf;
    forall a | a in OwnedOutside(owner, {})
      ensures MatchedTruth(matches, a)
    {
      var p :| p in owner && owner[p] == a;
      assert TakenPrediction(matches, p);
    }
    forall t: nat | t < |expected| && !MatchedTruth(matches, t)
      ensures exists group :: CrowdedOut(expected, predicted, tolerance, table, matches, t, group)
    {
      LeftOutMeans(expected, predicted, tolerance, table, edges, OwnedOutside(owner, {}), matches, t);
    }
  }

  /**
   * The largest possible set of admissible matches, nearest predictions first; a truth goes
   * unmatched only when truths that go before it leave it no room.
   */
  method OneToOneMatch(expected: seq<Truth>, predicted: seq<Finding>, tolerance: int, table: CweTable)
    returns (matches: seq<Match>)
    ensures ValidMatches(expected, predicted, tolerance, table, matches)
    ensures MaximumSize(expected, predicted, tolerance, table, |matches|)
    ensures NearestTaken(expected, predicted, tolerance, table, matches)
    ensures OthersCrowdedOut(expected, predicted, tolerance, table, matches)
  {
    hide CandidateGraph, OneToOne, ValidMatch, ValidMatches, Neighbours, MatchesOf, NearestTaken, OthersCrowdedOut;
    hide AlongEdges, InjectiveOutside, NearestFirst, OwnedOutside, LeftOut, Sort, Range, TakenPrediction;
    var edges := CandidateEdges(expected, predicted, tolerance, table);
    forall t: nat | t < |edges|
      ensures Neighbours(edges, t) <= Range(|predicted|)
    {
      NeighboursInRange(expected, predicted, tolerance, table, edges, t);
    }
    var owner := MaximumPairing(edges, |predicted|);
    forall other | OneToOne(expected, predicted, tolerance, table, other)
      ensures |other| <= |owner|
    {
      PairingsAreOneToOne(expected, predicted, tolerance, table, edges, other);
    }
    PairingsAreOneToOne(expected, predicted, tolerance, table, edges, owner);
    var found := MatchList(edges, owner);
    forall m | m in found
      ensures ValidMatch(expected, predicted, tolerance, table, m)
    {
      MatchesAreValid(expected, predicted, tolerance, table, edges, m);
    }
    matches := Sort(found, MatchKey);
    SortedMatches(expected, predicted, tolerance, table, owner, found);
    NearestMatched(expected, predicted, tolerance, table, edges, owner, matches);
    OthersLeftOut(expected, predicted, tolerance, table, edges, owner, matches);
  }

  /** One match per owned prediction, each along an edge of the graph. */
  method MatchList(edges: seq<seq<Edge>>, owner: map<nat, nat>) returns (found: seq<Match>)
    requires AlongEdges(edges, owner)
    ensures |found| == |owner|
    ensures forall m | m in found :: m.predictedIndex in owner && owner[m.predictedIndex] == m.expectedIndex
    ensures forall m | m in found ::
      m.expectedIndex < |edges| && Edge(m.predictedIndex, m.distance) in edges[m.expectedIndex]
    ensures forall i, j | 0 <= i < j < |found| :: found[i].predictedIndex != found[j].predictedIndex
    ensures forall p | p in owner :: TakenPrediction(found, p)
  {
    hide TakenPrediction, Neighbours;
    found := [];
    var remaining := owner.Keys;
    while remaining != {}
      invariant forall p | p in owner && p !in remaining :: TakenPrediction(found, p)
      invariant remaining <= owner.Keys && |found| + |remaining| == |owner|
      invariant forall m | m in found ::
        m.predictedIndex in owner && owner[m.predictedIndex] == m.expectedIndex && m.predictedIndex !in remaining
      invariant forall m | m in found ::
        m.expectedIndex < |edges| && Edge(m.predictedIndex, m.distance) in edges[m.expectedIndex]
      invariant forall i, j | 0 <= i < j < |found| :: found[i].predictedIndex != found[j].predictedIndex
      decreases remaining
    {
      var p :| p in remaining;
      var t := owner[p];
      HasEdge(edges, owner, p);
      var distance := EdgeDistance(edges[t], p);
      assert forall m | m in found :: m.predictedIndex != p;
      TakenStill(found, Match(t, p, distance));
      found := found + [Match(t, p, distance)];
      remaining := remaining - {p};
    }
  }

  lemma HasEdge(edges: seq<seq<Edge>>, owner: map<nat, nat>, p: nat)
    requires AlongEdges(edges, owner) && p in owner
    ensures owner[p] < |edges| && exists e :: e in edges[owner[p]] && e.predicted == p
  {
    assert p in Neighbours(edges, owner[p]);
  }

  lemma TakenStill(found: seq<Match>, m: Match)
    ensures TakenPrediction(found + [m], m.predictedIndex)
    ensures forall p | TakenPrediction(found, p) :: TakenPrediction(found + [m], p)
  {
    assert m in found + [m];
    forall p | TakenPrediction(found, p)
      ensures TakenPrediction(found + [m], p)
    {
      var n :| n in found && n.predictedIndex == p;
      assert n in found + [m];
    }
  }

  lemma MatchesAreValid(expected: seq<Truth>, predicted: seq<Finding>, tolerance: int, table: CweTable,
                        edges: seq<seq<Edge>>, m: Match)
    requires CandidateGraph(expected, predicted, tolerance, table, edges)
    requires m.expectedIndex < |edges| && Edge(m.predictedIndex, m.distance) in edges[m.expectedIndex]
    ensures ValidMatch(expected, predicted, tolerance, table, m)
  {
    hide Admissible, Distance, SortedBy, Distinct;
    assert EdgeListOf(expected[m.expectedIndex], predicted, tolerance, table, edges[m.expectedIndex]);
  }

  /** Two different matches of one pairing differ on both sides. */
  lemma DifferentMatches(owner: map<nat, nat>, found: seq<Match>, a: Match, b: Match)
    requires InjectiveOutside(owner, {})
    requires forall m | m in found :: m.predictedIndex in owner && owner[m.predictedIndex] == m.expectedIndex
    requires forall i, j | 0 <= i < j < |found| :: found[i].predictedIndex != found[j].predictedIndex
    requires a in found && b in found && a != b
    ensures a.predictedIndex != b.predictedIndex && a.expectedIndex != b.expectedIndex
  {
    var i :| 0 <= i < |found| && found[i] == a;
    var j :| 0 <= j < |found| && found[j] == b;
    assert i < j || j < i;
  }

  lemma TakenIn(found: seq<Match>, matches: seq<Match>, p: nat)
    requires TakenPrediction(found, p) && forall m | m in found :: m in matches
    ensures TakenPrediction(matches, p)
  {
  }

  lemma SortedMatches(expected: seq<Truth>, predicted: seq<Finding>, tolerance: int, table: CweTable,
                      owner: map<nat, nat>, found: seq<Match>)
    requires InjectiveOutside(owner, {})
    requires forall m | m in found :: ValidMatch(expected, predicted, tolerance, table, m)
    requires forall m | m in found :: m.predictedIndex in owner && owner[m.predictedIndex] == m.expectedIndex
    requires forall i, j | 0 <= i < j < |found| :: found[i].predictedIndex != found[j].predictedIndex
    requires forall p | p in owner :: TakenPrediction(found, p)
    ensures ValidMatches(expected, predicted, tolerance, table, Sort(found, MatchKey))
    ensures MatchesOf(owner, Sort(found, MatchKey)) && |Sort(found, MatchKey)| == |found|
  {
    hide ValidMatch, Sort, InjectiveOutside, TakenPrediction;
    var matches := Sort(found, MatchKey);
    SortOrders(found, MatchKey);
    SortKeepsElements(found, MatchKey);
    forall p | p in owner
      ensures TakenPrediction(matches, p)
    {
      TakenIn(found, matches, p);
    }
    forall i, j | 0 <= i < j < |matches|
      ensures matches[i].predictedIndex != matches[j].predictedIndex
      ensures matches[i].expectedIndex < matches[j].expectedIndex
    {
      assert matches[i] in found && matches[j] in found;
      assert Leq(MatchKey(matches[i]), MatchKey(matches[j]));
      DifferentMatches(owner, found, matches[i], matches[j]);
    }
  }
}
