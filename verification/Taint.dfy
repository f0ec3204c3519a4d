/** Fixed-point taint propagation over the assignments of a module. */
module Taint {
  import opened Models

  type Name = string

  /** An assigned expression: whether it is a taint source itself, and the names it mentions. */
  datatype Value = Value(source: bool, names: set<Name>)

  /** The syntax nodes in walk order; each target is given by the names in it. */
  datatype Node =
    | Assign(targets: seq<set<Name>>, value: Value)
    | AnnAssign(target: set<Name>, annotated: Option<Value>)
    | AugAssign(target: set<Name>, added: Value)
    | Other

  datatype Outcome = Tainted(names: set<Name>) | UnboundValue

  // ---- What the names stand for ---------------------------------------------

  /** An assignment the analysis acts on: every name of `targets` receives `value`. */
  datatype Rule = Rule(targets: set<Name>, value: Value)

  function Union(sets: seq<set<Name>>): set<Name> {
    if sets == [] then {} else Union(sets[..|sets| - 1]) + sets[|sets| - 1]
  }

  function Targets(node: Node): set<Name> {
    match node
    case Assign(targets, _) => Union(targets)
    case AnnAssign(target, _) => target
    case AugAssign(target, _) => target
    case Other => {}
  }

  /** The `value` variable after visiting a node; an augmented assignment leaves it alone. */
  function Carried(held: Option<Option<Value>>, node: Node): Option<Option<Value>> {
    match node
    case Assign(_, value) => Some(Some(value))
    case AnnAssign(_, annotated) => Some(annotated)
    case _ => held
  }

  /** The `value` variable when node `i` is reached for the first time; None while it is unbound. */
  function HeldAt(nodes: seq<Node>, i: nat): Option<Option<Value>>
    requires i <= |nodes|
  {
    if i == 0 then None else Carried(HeldAt(nodes, i - 1), nodes[i - 1])
  }

  /** Some augmented assignment comes before any other assignment. */
  predicate StartsUnbound(nodes: seq<Node>) {
    exists i :: 0 <= i < |nodes| && nodes[i].AugAssign? && HeldAt(nodes, i).None?
  }

  /** The value the analysis uses at node `i`: the node's own, or for an augmented assignment the last one seen. */
  function ValueAt(nodes: seq<Node>, i: nat): Option<Value>
    requires i < |nodes|
  {
    var held := Carried(HeldAt(nodes, i), nodes[i]);
    if nodes[i].Other? || held.None? then None else held.value
  }

  predicate Active(nodes: seq<Node>, i: int) {
    0 <= i < |nodes| && ValueAt(nodes, i).Some?
  }

  predicate Fires(value: Value, tainted: set<Name>) {
    value.source || exists n :: n in value.names && n in tainted
  }

  /** `tainted` already holds everything one more pass could add. */
  ghost predicate Closed(nodes: seq<Node>, tainted: set<Name>)
  {
    forall i | Active(nodes, i) && Fires(ValueAt(nodes, i).value, tainted) :: Targets(nodes[i]) <= tainted
  }

  /**
   * A chain of assignments from a source to `name`: the first assigns a source, each later
   * one mentions a name the one before assigned, and the last assigns `name`.
   */
  ghost predicate Chain(nodes: seq<Node>, chain: seq<nat>, name: Name)
    decreases |chain|
  {
    && chain != []
    && var last := chain[|chain| - 1];
       && Active(nodes, last)
       && name in Targets(nodes[last])
       && if |chain| == 1 then ValueAt(nodes, last).value.source
          else exists via :: via in ValueAt(nodes, last).value.names && Chain(nodes, chain[..|chain| - 1], via)
  }

  ghost predicate Reachable(nodes: seq<Node>, name: Name)
  {
    exists chain :: Chain(nodes, chain, name)
  }

  lemma {:induction false} ClosedHoldsChains(nodes: seq<Node>, tainted: set<Name>, chain: seq<nat>, name: Name)
    requires Closed(nodes, tainted) && Chain(nodes, chain, name)
    ensures name in tainted
    decreases |chain|
  {
    var last := chain[|chain| - 1];
    if |chain| > 1 {
      var via :| via in ValueAt(nodes, last).value.names && Chain(nodes, chain[..|chain| - 1], via);
      ClosedHoldsChains(nodes, tainted, chain[..|chain| - 1], via);
    }
    assert Fires(ValueAt(nodes, last).value, tainted);
  }

  lemma FiringReaches(nodes: seq<Node>, tainted: set<Name>, i: nat, name: Name)
    requires Active(nodes, i) && name in Targets(nodes[i])
    requires Fires(ValueAt(nodes, i).value, tainted)
    requires forall n | n in tainted :: Reachable(nodes, n)
    ensures Reachable(nodes, name)
  {
    if ValueAt(nodes, i).value.source {
      assert Chain(nodes, [i], name);
    } else {
      var via :| via in ValueAt(nodes, i).value.names && via in tainted;
      var chain :| Chain(nodes, chain, via);
      assert (chain + [i])[..|chain + [i]| - 1] == chain;
      assert Chain(nodes, chain + [i], name);
    }
  }

  // ---- The analysis -----------------------------------------------------------

  ghost function AllTargets(nodes: seq<Node>): set<Name> {
    set i, n | 0 <= i < |nodes| && n in Targets(nodes[i]) :: n
  }

  /** Adds the names of one node's targets, one target and one name at a time. */
  method AddTargets(targets: seq<set<Name>>, tainted: set<Name>) returns (grown: set<Name>, changed: bool)
    ensures grown == tainted + Union(targets)
    ensures changed <==> grown != tainted
  {
    grown, changed := tainted, false;
    for t := 0 to |targets|
      invariant grown == tainted + Union(targets[..t])
      invariant changed <==> grown != tainted
    {
      var unseen := targets[t] - grown;
      assert targets[..t + 1][..t] == targets[..t];
      ghost var goal := grown + targets[t];
      while unseen != {}
        invariant unseen !! grown && grown + unseen == goal && tainted <= grown
        invariant changed <==> grown != tainted
        decreases unseen
      {
        var name :| name in unseen;
        grown, unseen := grown + {name}, unseen - {name};
        changed := true;
      }
    }
    assert targets[..|targets|] == targets;
  }

  ghost predicate AllReachable(nodes: seq<Node>, names: set<Name>) {
    forall n | n in names :: Reachable(nodes, n)
  }

  /** What a node's targets receive is reachable when the taint so far is. */
  lemma TargetsReachable(nodes: seq<Node>, tainted: set<Name>, i: nat)
    requires Active(nodes, i) && Fires(ValueAt(nodes, i).value, tainted) && AllReachable(nodes, tainted)
    ensures AllReachable(nodes, tainted + Targets(nodes[i]))
    ensures Targets(nodes[i]) <= AllTargets(nodes)
  {
    forall n | n in Targets(nodes[i])
      ensures Reachable(nodes, n)
    {
      FiringReaches(nodes, tainted, i, n);
    }
  }

  ghost predicate ClosedAt(nodes: seq<Node>, tainted: set<Name>, i: nat)
    requires i < |nodes|
  {
    Active(nodes, i) && Fires(ValueAt(nodes, i).value, tainted) ==> Targets(nodes[i]) <= tainted
  }

  /** The value variable is what the walk so far makes it; `held` is what the walk before left in it. */
  ghost predicate Holds(nodes: seq<Node>, i: nat, value: Option<Option<Value>>, held: Option<Option<Value>>)
    requires i <= |nodes|
  {
    && (if HeldAt(nodes, i).Some? then value == HeldAt(nodes, i) else value == held)
    && (forall j | 0 <= j < i && nodes[j].AugAssign? :: held.Some? || HeldAt(nodes, j).Some?)
  }

  /** Visits one node: takes up its value and taints its targets if the value is tainted. */
  method VisitNode(nodes: seq<Node>, i: nat, tainted: set<Name>, before: Option<Option<Value>>,
                   ghost held: Option<Option<Value>>)
    returns (ok: bool, grown: set<Name>, value: Option<Option<Value>>, changed: bool)
    requires i < |nodes| && Holds(nodes, i, before, held) && AllReachable(nodes, tainted)
    requires held.Some? ==> !StartsUnbound(nodes)
    ensures !ok ==> StartsUnbound(nodes)
    ensures ok ==> Holds(nodes, i + 1, value, held)
    ensures tainted <= grown <= tainted + AllTargets(nodes) && AllReachable(nodes, grown)
    ensures changed <==> grown != tainted
    ensures ok && !changed ==> ClosedAt(nodes, grown, i)
  {
    hide Reachable, Closed;
    ok, grown, value, changed := true, tainted, before, false;
    var node := nodes[i];
    var targets: seq<set<Name>> := [];
    match node {
      case Assign(all, given) =>
        value, targets := Some(Some(given)), all;
      case AnnAssign(target, annotated) =>
        value, targets := Some(annotated), [target];
      case AugAssign(target, _) =>
        targets := [target];
      case Other =>
        return;
    }
    if value.None? {
      ok := false;
      return;
    }
    assert Union(targets) == Targets(node);
    assert node.AugAssign? && HeldAt(nodes, i).None? ==> StartsUnbound(nodes);
    assert value == Carried(HeldAt(nodes, i), node);
    if value.value.None? || !Fires(value.value.value, tainted) {
      return;
    }
    TargetsReachable(nodes, tainted, i);
    grown, changed := AddTargets(targets, tainted);
  }

  /** One walk over the nodes. */
  method Pass(nodes: seq<Node>, tainted: set<Name>, held: Option<Option<Value>>)
    returns (ok: bool, grown: set<Name>, value: Option<Option<Value>>, changed: bool)
    requires held.Some? ==> !StartsUnbound(nodes)
    requires AllReachable(nodes, tainted)
    ensures ok <==> !StartsUnbound(nodes)
    ensures tainted <= grown <= tainted + AllTargets(nodes) && AllReachable(nodes, grown)
    ensures ok ==> (changed <==> grown != tainted) && (!changed ==> Closed(nodes, grown))
  {
    ok, grown, value, changed := true, tainted, held, false;
    for i := 0 to |nodes|
      invariant ok && tainted <= grown <= tainted + AllTargets(nodes) && AllReachable(nodes, grown)
      invariant changed <==> grown != tainted
      invariant !changed ==> forall j | 0 <= j < i :: ClosedAt(nodes, grown, j)
      invariant Holds(nodes, i, value, held)
    {
      hide AllReachable, ClosedAt, Holds, StartsUnbound, AllTargets;
      var more;
      ok, grown, value, more := VisitNode(nodes, i, grown, value, held);
      changed := changed || more;
      if !ok {
        return;
      }
    }
    forall j | Active(nodes, j) && Fires(ValueAt(nodes, j).value, grown)
      ensures !changed ==> Targets(nodes[j]) <= grown
    {
      assert !changed ==> ClosedAt(nodes, grown, j);
    }
  }

  /**
   * The whole analysis.  It fails exactly when an augmented assignment precedes every other
   * assignment; otherwise it ends with the least closed set, which is the set of names
   * reachable from a source, where an augmented assignment is taken to assign the value carried to it.
   */
  method CollectTainted(nodes: seq<Node>) returns (r: Outcome)
    ensures r.UnboundValue? <==> StartsUnbound(nodes)
    ensures r.Tainted? ==> Closed(nodes, r.names)
    ensures r.Tainted? ==> (forall n :: n in r.names <==> Reachable(nodes, n)) && r.names == Names(nodes)
    ensures r.Tainted? ==> forall s | Closed(nodes, s) :: r.names <= s
  {
    var tainted: set<Name> := {};
    var value: Option<Option<Value>> := None;
    var changed := true;
    while changed
      invariant tainted <= AllTargets(nodes) && AllReachable(nodes, tainted)
      invariant value.Some? ==> !StartsUnbound(nodes)
      invariant !changed ==> !StartsUnbound(nodes) && Closed(nodes, tainted)
      decreases AllTargets(nodes) - tainted, changed
    {
      var ok;
      ghost var before := tainted;
      ok, tainted, value, changed := Pass(nodes, tainted, value);
      if !ok {
        return UnboundValue;
      }
    }
    forall s, n | Closed(nodes, s) && Reachable(nodes, n)
      ensures n in s
    {
      var chain :| Chain(nodes, chain, n);
      ClosedHoldsChains(nodes, s, chain, n);
    }
    r := Tainted(tainted);
    ResultIsNames(nodes, tainted);
  }

  // ---- Augmented assignments ----------------------------------------------------

  /** The program as it is written: an augmented assignment gives its own right-hand side to its target. */
  function Written(node: Node): Node {
    if node.AugAssign? then AnnAssign(node.target, Some(node.added)) else node
  }

  function AsWritten(nodes: seq<Node>): (r: seq<Node>)
    ensures |r| == |nodes|
  {
    seq(|nodes|, i requires 0 <= i < |nodes| => Written(nodes[i]))
  }

  /** The plain assignments alone. */
  function Plain(nodes: seq<Node>): (r: seq<Node>)
    ensures |r| == |nodes|
  {
    seq(|nodes|, i requires 0 <= i < |nodes| => if nodes[i].AugAssign? then Other else nodes[i])
  }

  /** Every augmented assignment with this right-hand side. */
  function Adding(nodes: seq<Node>, added: Value): (r: seq<Node>)
    ensures |r| == |nodes|
  {
    seq(|nodes|, i requires 0 <= i < |nodes| => if nodes[i].AugAssign? then AugAssign(nodes[i].target, added)
      else nodes[i])
  }

  /** The same program up to the right-hand sides of its augmented assignments. */
  ghost predicate SameButAdded(nodes: seq<Node>, other: seq<Node>) {
    && |other| == |nodes|
    && forall i | 0 <= i < |nodes| ::
      if nodes[i].AugAssign? then other[i].AugAssign? && other[i].target == nodes[i].target else other[i] == nodes[i]
  }

  /** The value a node assigns if it is no augmented assignment. */
  function OwnValue(node: Node): Option<Value> {
    match node
    case Assign(_, value) => Some(value)
    case AnnAssign(_, annotated) => annotated
    case _ => None
  }

  lemma ValueIsOwn(nodes: seq<Node>, i: nat)
    requires i < |nodes| && !nodes[i].AugAssign?
    ensures ValueAt(nodes, i) == OwnValue(nodes[i])
  {
  }

  lemma {:induction false} SameHeld(nodes: seq<Node>, other: seq<Node>, i: nat)
    requires SameButAdded(nodes, other) && i <= |nodes|
    ensures HeldAt(other, i) == HeldAt(nodes, i)
  {
    if i > 0 {
      SameHeld(nodes, other, i - 1);
    }
  }

  lemma SameValue(nodes: seq<Node>, other: seq<Node>, i: nat)
    requires SameButAdded(nodes, other) && i < |nodes|
    ensures ValueAt(other, i) == ValueAt(nodes, i) && Targets(other[i]) == Targets(nodes[i])
    ensures (other[i].AugAssign? <==> nodes[i].AugAssign?)
  {
    SameHeld(nodes, other, i);
  }

  // ---- The reachable names as a set ---------------------------------------------------

  ghost function Names(nodes: seq<Node>): set<Name> {
    set n | n in AllTargets(nodes) && Reachable(nodes, n)
  }

  lemma NamesAre(nodes: seq<Node>)
    ensures forall n :: n in Names(nodes) <==> Reachable(nodes, n)
    ensures Closed(nodes, Names(nodes))
  {
    forall n | Reachable(nodes, n)
      ensures n in AllTargets(nodes)
    {
      var chain :| Chain(nodes, chain, n);
      assert n in Targets(nodes[chain[|chain| - 1]]);
    }
    hide Reachable, AllTargets;
    forall i | Active(nodes, i) && Fires(ValueAt(nodes, i).value, Names(nodes))
      ensures Targets(nodes[i]) <= Names(nodes)
    {
      forall n | n in Targets(nodes[i])
        ensures Reachable(nodes, n)
      {
        FiringReaches(nodes, Names(nodes), i, n);
      }
    }
  }

  lemma NamesLeast(nodes: seq<Node>, tainted: set<Name>)
    requires Closed(nodes, tainted)
    ensures Names(nodes) <= tainted
  {
    forall n | n in Names(nodes)
      ensures n in tainted
    {
      var chain :| Chain(nodes, chain, n);
      ClosedHoldsChains(nodes, tainted, chain, n);
    }
  }

  // ---- When the result is right ----------------------------------------------------------

  /** An augmented assignment whose right-hand side is tainted as written has its names in `tainted`. */
  ghost predicate AddedKept(nodes: seq<Node>, written: set<Name>, tainted: set<Name>) {
    forall k | 0 <= k < |nodes| && nodes[k].AugAssign? && Fires(nodes[k].added, written) :: nodes[k].target <= tainted
  }

  /** An augmented assignment at which the carried value is tainted has its names in `written`. */
  ghost predicate CarriedRight(nodes: seq<Node>, tainted: set<Name>, written: set<Name>) {
    forall k | 0 <= k < |nodes| && nodes[k].AugAssign? && ValueAt(nodes, k).Some?
             && Fires(ValueAt(nodes, k).value, tainted) ::
      nodes[k].target <= written
  }

  lemma WrittenValue(nodes: seq<Node>, i: nat)
    requires i < |nodes|
    ensures Targets(AsWritten(nodes)[i]) == Targets(nodes[i])
    ensures ValueAt(AsWritten(nodes), i) == if nodes[i].AugAssign? then Some(nodes[i].added) else ValueAt(nodes, i)
  {
    ValueIsOwn(AsWritten(nodes), i);
    if !nodes[i].AugAssign? {
      ValueIsOwn(nodes, i);
    }
  }

  lemma FiresMore(value: Value, some: set<Name>, more: set<Name>)
    requires Fires(value, some) && some <= more
    ensures Fires(value, more)
  {
  }

  lemma ClosedFor(nodes: seq<Node>, tainted: set<Name>, i: nat)
    requires Closed(nodes, tainted) && i < |nodes| && ValueAt(nodes, i).Some? && Fires(ValueAt(nodes, i).value, tainted)
    ensures Targets(nodes[i]) <= tainted
  {
    assert Active(nodes, i);
  }

  /** Nothing tainted as written is missed exactly when no augmented assignment loses a tainted right-hand side. */
  lemma NothingMissed(nodes: seq<Node>)
    ensures Names(AsWritten(nodes)) <= Names(nodes) <==> AddedKept(nodes, Names(AsWritten(nodes)), Names(nodes))
  {
    var written := AsWritten(nodes);
    var found, right := Names(nodes), Names(written);
    NamesAre(nodes);
    NamesAre(written);
    hide Names, Closed, Fires;
    if AddedKept(nodes, right, found) {
      forall i | Active(written, i) && Fires(ValueAt(written, i).value, right * found)
        ensures Targets(written[i]) <= right * found
      {
        WrittenValue(nodes, i);
        FiresMore(ValueAt(written, i).value, right * found, right);
        FiresMore(ValueAt(written, i).value, right * found, found);
        ClosedFor(written, right, i);
        if !nodes[i].AugAssign? {
          ClosedFor(nodes, found, i);
        }
      }
      ClosedMeans(written, right * found);
      NamesLeast(written, right * found);
    } else {
      var k :| 0 <= k < |nodes| && nodes[k].AugAssign? && Fires(nodes[k].added, right) && !(nodes[k].target <= found);
      WrittenValue(nodes, k);
      ClosedFor(written, right, k);
    }
  }

  lemma ClosedMeans(nodes: seq<Node>, tainted: set<Name>)
    requires forall i | Active(nodes, i) && Fires(ValueAt(nodes, i).value, tainted) :: Targets(nodes[i]) <= tainted
    ensures Closed(nodes, tainted)
  {
  }

  /** Nothing clean is reported exactly when the carried value taints no clean name. */
  lemma NothingSpurious(nodes: seq<Node>)
    ensures Names(nodes) <= Names(AsWritten(nodes)) <==> CarriedRight(nodes, Names(nodes), Names(AsWritten(nodes)))
  {
    var written := AsWritten(nodes);
    var found, right := Names(nodes), Names(written);
    NamesAre(nodes);
    NamesAre(written);
    hide Names, Closed, Fires;
    if CarriedRight(nodes, found, right) {
      forall i | Active(nodes, i) && Fires(ValueAt(nodes, i).value, right * found)
        ensures Targets(nodes[i]) <= right * found
      {
        WrittenValue(nodes, i);
        FiresMore(ValueAt(nodes, i).value, right * found, right);
        FiresMore(ValueAt(nodes, i).value, right * found, found);
        ClosedFor(nodes, found, i);
        if !nodes[i].AugAssign? {
          ClosedFor(written, right, i);
        }
      }
      ClosedMeans(nodes, right * found);
      NamesLeast(nodes, right * found);
    } else {
      var k :| 0 <= k < |nodes| && nodes[k].AugAssign? && ValueAt(nodes, k).Some?
        && Fires(ValueAt(nodes, k).value, found) && !(nodes[k].target <= right);
      ClosedFor(nodes, found, k);
    }
  }

  // ---- When it is right whatever is added -----------------------------------------------------

  ghost predicate AddedTargetsIn(nodes: seq<Node>, names: set<Name>) {
    forall k | 0 <= k < |nodes| && nodes[k].AugAssign? :: nodes[k].target <= names
  }

  lemma PlainValue(nodes: seq<Node>, i: nat)
    requires i < |nodes|
    ensures ValueAt(Plain(nodes), i) == if nodes[i].AugAssign? then None else ValueAt(nodes, i)
    ensures !nodes[i].AugAssign? ==> Targets(Plain(nodes)[i]) == Targets(nodes[i])
  {
    ValueIsOwn(Plain(nodes), i);
    if !nodes[i].AugAssign? {
      ValueIsOwn(nodes, i);
    }
  }

  /** The plain assignments reach no more than all of them, however the others are read. */
  lemma PlainIsLess(nodes: seq<Node>)
    ensures Names(Plain(nodes)) <= Names(nodes) && Names(Plain(nodes)) <= Names(AsWritten(nodes))
  {
    var plain, written := Plain(nodes), AsWritten(nodes);
    NamesAre(nodes);
    NamesAre(written);
    hide Names, Closed, Fires;
    forall i, names | Active(plain, i) && Fires(ValueAt(plain, i).value, names)
      && names in {Names(nodes), Names(written)}
      ensures Targets(plain[i]) <= names
    {
      PlainValue(nodes, i);
      WrittenValue(nodes, i);
      ClosedFor(if names == Names(nodes) then nodes else written, names, i);
    }
    ClosedMeans(plain, Names(nodes));
    ClosedMeans(plain, Names(written));
    NamesLeast(plain, Names(nodes));
    NamesLeast(plain, Names(written));
  }

  /** When the plain assignments taint every augmented name, they are all there is to find. */
  lemma PlainIsAll(nodes: seq<Node>)
    requires AddedTargetsIn(nodes, Names(Plain(nodes)))
    ensures Names(nodes) == Names(Plain(nodes)) == Names(AsWritten(nodes))
  {
    var plain, written := Plain(nodes), AsWritten(nodes);
    var names := Names(plain);
    NamesAre(plain);
    PlainIsLess(nodes);
    hide Names, Closed, Fires;
    forall i | (Active(nodes, i) && Fires(ValueAt(nodes, i).value, names))
      || (Active(written, i) && Fires(ValueAt(written, i).value, names))
      ensures Targets(nodes[i]) <= names && Targets(written[i]) <= names
    {
      WrittenValue(nodes, i);
      PlainValue(nodes, i);
      if !nodes[i].AugAssign? {
        ClosedFor(plain, names, i);
      }
    }
    ClosedMeans(nodes, names);
    ClosedMeans(written, names);
    NamesLeast(nodes, names);
    NamesLeast(written, names);
  }

  /** The right-hand sides of augmented assignments have no influence on the analysis at all. */
  lemma AddedIgnored(nodes: seq<Node>, other: seq<Node>)
    requires SameButAdded(nodes, other)
    ensures Names(other) == Names(nodes) && (StartsUnbound(other) <==> StartsUnbound(nodes))
    ensures Names(Plain(other)) == Names(Plain(nodes))
  {
    assert Plain(other) == Plain(nodes);
    forall i | 0 <= i < |nodes|
      ensures ValueAt(other, i) == ValueAt(nodes, i) && Targets(other[i]) == Targets(nodes[i])
      ensures HeldAt(other, i) == HeldAt(nodes, i) && (other[i].AugAssign? <==> nodes[i].AugAssign?)
    {
      SameHeld(nodes, other, i);
      SameValue(nodes, other, i);
    }
    SameClosed(nodes, other, Names(nodes));
    SameClosed(nodes, other, Names(other));
    NamesAre(nodes);
    NamesAre(other);
    hide Names, Closed;
    NamesLeast(nodes, Names(other));
    NamesLeast(other, Names(nodes));
  }

  lemma SameClosed(nodes: seq<Node>, other: seq<Node>, tainted: set<Name>)
    requires |other| == |nodes|
    requires forall i | 0 <= i < |nodes| ::
      ValueAt(other, i) == ValueAt(nodes, i) && Targets(other[i]) == Targets(nodes[i])
    ensures Closed(nodes, tainted) <==> Closed(other, tainted)
  {
    assert forall i :: Active(nodes, i) <==> Active(other, i);
  }

  /** The analysis does not fail, and finds exactly the names tainted as written. */
  ghost predicate Right(nodes: seq<Node>) {
    !StartsUnbound(nodes) && Names(nodes) == Names(AsWritten(nodes))
  }

  /**
   * Whatever stands on the right of the augmented assignments, the analysis is right, if and only if none of them
   * precedes every other assignment and the plain assignments alone already taint every name assigned by one.
   */
  lemma RightWhateverIsAdded(nodes: seq<Node>)
    ensures (forall other | SameButAdded(nodes, other) :: Right(other))
        <==> !StartsUnbound(nodes) && AddedTargetsIn(nodes, Names(Plain(nodes)))
  {
    hide Names, StartsUnbound;
    if !StartsUnbound(nodes) && AddedTargetsIn(nodes, Names(Plain(nodes))) {
      forall other | SameButAdded(nodes, other)
        ensures Right(other)
      {
        AddedIgnored(nodes, other);
        PlainIsAll(other);
      }
    }
    if forall other | SameButAdded(nodes, other) :: Right(other) {
      var sources, clean := Adding(nodes, Value(true, {})), Adding(nodes, Value(false, {}));
      assert SameButAdded(nodes, sources) && SameButAdded(nodes, clean);
      AddedIgnored(nodes, sources);
      AddedIgnored(nodes, clean);
      assert Right(sources) && Right(clean);
      SourcesReach(nodes);
      CleanReach(nodes);
      assert forall k | 0 <= k < |nodes| && nodes[k].AugAssign? :: nodes[k].target <= Names(AsWritten(sources));
    }
  }

  lemma SourcesReach(nodes: seq<Node>)
    ensures AddedTargetsIn(nodes, Names(AsWritten(Adding(nodes, Value(true, {})))))
  {
    var sources := Adding(nodes, Value(true, {}));
    NamesAre(AsWritten(sources));
    hide Names, Closed;
    forall k | 0 <= k < |nodes| && nodes[k].AugAssign?
      ensures nodes[k].target <= Names(AsWritten(sources))
    {
      WrittenValue(sources, k);
      ClosedFor(AsWritten(sources), Names(AsWritten(sources)), k);
    }
  }

  lemma CleanReach(nodes: seq<Node>)
    ensures Names(AsWritten(Adding(nodes, Value(false, {})))) == Names(Plain(nodes))
  {
    var clean := Adding(nodes, Value(false, {}));
    assert Plain(clean) == Plain(nodes);
    PlainIsLess(clean);
    NamesAre(Plain(clean));
    hide Names, Closed;
    var written, names := AsWritten(clean), Names(Plain(clean));
    forall i | Active(written, i) && Fires(ValueAt(written, i).value, names)
      ensures Targets(written[i]) <= names
    {
      WrittenValue(clean, i);
      PlainValue(clean, i);
      assert !clean[i].AugAssign?;
      ClosedFor(Plain(clean), names, i);
    }
    ClosedMeans(written, names);
    NamesLeast(written, names);
  }

  /** What the analysis returns is this set of names. */
  lemma ResultIsNames(nodes: seq<Node>, names: set<Name>)
    requires forall n :: n in names <==> Reachable(nodes, n)
    ensures names == Names(nodes)
  {
    NamesAre(nodes);
    hide Reachable, Names;
  }

  /** x = 1; x += input(): nothing is found although x is tainted as written. */
  lemma SourceMissed()
    ensures var nodes := [Assign([{"x"}], Value(false, {})), AugAssign({"x"}, Value(true, {}))];
      !StartsUnbound(nodes) && "x" in Names(AsWritten(nodes)) && Names(nodes) == {}
  {
    var nodes := [Assign([{"x"}], Value(false, {})), AugAssign({"x"}, Value(true, {}))];
    assert HeldAt(nodes, 1) == Carried(HeldAt(nodes, 0), nodes[0]);
    assert ValueAt(nodes, 0) == ValueAt(nodes, 1) == Some(Value(false, {}));
    NamesLeast(nodes, {});
    NamesAre(AsWritten(nodes));
    WrittenValue(nodes, 1);
    hide Names;
    ClosedFor(AsWritten(nodes), Names(AsWritten(nodes)), 1);
  }

  /** x = input(); y += 1: the carried value taints y, which is clean as written. */
  lemma CleanTainted()
    ensures var nodes := [Assign([{"x"}], Value(true, {})), AugAssign({"y"}, Value(false, {}))];
      !StartsUnbound(nodes) && "y" in Names(nodes) && "y" !in Names(AsWritten(nodes))
  {
    var nodes := [Assign([{"x"}], Value(true, {})), AugAssign({"y"}, Value(false, {}))];
    assert HeldAt(nodes, 1) == Carried(HeldAt(nodes, 0), nodes[0]);
    assert ValueAt(nodes, 1) == Some(Value(true, {}));
    NamesAre(nodes);
    WrittenValue(nodes, 0);
    WrittenValue(nodes, 1);
    assert Union([{"x"}]) == {"x"};
    NamesLeast(AsWritten(nodes), {"x"});
    hide Names;
    ClosedFor(nodes, Names(nodes), 1);
  }
}
