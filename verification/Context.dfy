/** The dynamic context of one agent-loop iteration: records packed under one token budget. */
module Context {
  import opened Models
  import opened Utf8

  const DIFF_LABEL := "DIFF_CONTEXT:\n"

  /** The dependency-free token estimate: four octets a token, at least one. */
  function EstimateTokens(text: string): nat {
    Max(1, (Size(text) + 3) / 4)
  }

  /** So many tokens hold four octets each. */
  lemma TokensHold(text: string, n: nat)
    requires n >= 1
    ensures EstimateTokens(text) <= n <==> Size(text) <= 4 * n
  {
    hide Size;
  }

  function WithoutNul(s: string): string {
    if s == [] then ""
    else (if s[0] as int == 0 then "" else [s[0]]) + WithoutNul(s[1..])
  }

  /** Every NUL goes and everything else stays, in order. */
  lemma NulsRemoved(a: string, c: char)
    ensures WithoutNul(a + [c]) == if c as int == 0 then WithoutNul(a) else WithoutNul(a) + [c]
    decreases |a|
  {
    if a == [] {
      assert a + [c] == [c] && [c][1..] == [];
    } else {
      NulsRemoved(a[1..], c);
      assert (a + [c])[1..] == a[1..] + [c];
    }
  }

  datatype Tag = Assignment | Tool | Collaboration | Observation | CriticFeedback | Memory

  function Word(tag: Tag): string {
    match tag
    case Assignment => "ASSIGNMENT"
    case Tool => "TOOL"
    case Collaboration => "COLLABORATION"
    case Observation => "OBSERVATION"
    case CriticFeedback => "CRITIC_FEEDBACK"
    case Memory => "MEMORY"
  }

  function Line(tag: Tag, rendered: string): string {
    Word(tag) + ": " + WithoutNul(rendered) + "\n"
  }

  function Lines(tag: Tag, rendered: seq<string>): (r: seq<string>)
    ensures |r| == |rendered|
  {
    seq(|rendered|, i requires 0 <= i < |rendered| => Line(tag, rendered[i]))
  }

  function Join(lines: seq<string>): string {
    if lines == [] then "" else lines[0] + Join(lines[1..])
  }

  /** Concatenation under a name, which a proof can hide. */
  function Then<T>(a: seq<T>, b: seq<T>): seq<T> {
    a + b
  }

  // ---- Dropping what does not fit -------------------------------------------------

  /** The optional lines that are kept: each one that fits in what those before it left. */
  function Kept(lines: seq<string>, room: int): (r: seq<string>)
    ensures |r| <= |lines|
  {
    if lines == [] then []
    else if Size(lines[0]) <= room then [lines[0]] + Kept(lines[1..], room - Size(lines[0]))
    else Kept(lines[1..], room)
  }

  function Left(lines: seq<string>, room: int): int {
    room - Size(Join(Kept(lines, room)))
  }

  lemma {:induction false} JoinConcat(a: seq<string>, b: seq<string>)
    ensures Join(a + b) == Join(a) + Join(b)
  {
    if a == [] {
      assert a + b == b;
    } else {
      assert (a + b)[1..] == a[1..] + b;
      JoinConcat(a[1..], b);
    }
  }

  lemma LeftStep(lines: seq<string>, room: int)
    requires lines != []
    ensures Left(lines, room) == Left(lines[1..], if Size(lines[0]) <= room then room - Size(lines[0]) else room)
  {
    if Size(lines[0]) <= room {
      var rest := Kept(lines[1..], room - Size(lines[0]));
      assert ([lines[0]] + rest)[1..] == rest;
      SizeConcat(lines[0], Join(rest));
    }
  }

  /**
   * Later records never displace earlier ones: adding records at the end keeps what was kept, and gives the
   * new ones the room that is left.
   */
  lemma {:induction false} KeptInOrder(a: seq<string>, b: seq<string>, room: int)
    ensures Kept(a + b, room) == Kept(a, room) + Kept(b, Left(a, room))
  {
    if a == [] {
      assert a + b == b;
    } else {
      assert (a + b)[1..] == a[1..] + b;
      LeftStep(a, room);
      KeptInOrder(a[1..], b, if Size(a[0]) <= room then room - Size(a[0]) else room);
    }
  }

  lemma {:induction false} KeptFits(lines: seq<string>, room: int)
    ensures Size(Join(Kept(lines, room))) <= Max(room, 0)
  {
    if lines != [] {
      LeftStep(lines, room);
      KeptFits(lines[1..], if Size(lines[0]) <= room then room - Size(lines[0]) else room);
    }
  }

  /** Everything is kept exactly when everything fits. */
  lemma {:induction false} KeptAll(lines: seq<string>, room: nat)
    ensures |Kept(lines, room)| == |lines| <==> Size(Join(lines)) <= room
    ensures |Kept(lines, room)| == |lines| ==> Kept(lines, room) == lines
  {
    if lines != [] {
      SizeConcat(lines[0], Join(lines[1..]));
      if Size(lines[0]) <= room {
        KeptAll(lines[1..], room - Size(lines[0]));
      }
    }
  }

  /** The first line: whole when it fits, else cut to whole characters and closed with a newline. */
  function Opening(line: string, budget: nat): string {
    if Size(line) <= budget then line else line[..Fit(line, budget)] + "\n"
  }

  lemma OpeningFits(line: string, budget: nat)
    ensures Size(Opening(line, budget)) <= budget + 1
    ensures Size(line) <= budget ==> Size(Opening(line, budget)) <= budget
    ensures Size(line) > budget ==> Size(Opening(line, budget)) >= budget - 2
  {
    if Size(line) > budget {
      FitFills(line, budget);
      SizeConcat(line[..Fit(line, budget)], "\n");
      SizeOfAscii("\n");
    }
  }

  /** All the state of one iteration, rendered, in the order in which it is packed. */
  datatype Records = Records(
    tools: seq<string>, collaboration: Option<string>, observations: seq<string>, feedback: seq<string>,
      memories: seq<string>)
  {
    /** The lines before the observations, in packing order. */
    function FirstLines(): seq<string> {
      var lines := Then([], Lines(Tool, tools));
      if collaboration.Some? then Then(lines, Lines(Collaboration, [collaboration.value])) else lines
    }

    /** The most recent observation comes first. */
    function UpToObservations(): seq<string> {
      Then(FirstLines(), Lines(Observation, Backwards(observations)))
    }

    function UpToFeedback(): seq<string> {
      Then(UpToObservations(), Lines(CriticFeedback, feedback))
    }

    function All(): seq<string> {
      Then(UpToFeedback(), Lines(Memory, memories))
    }
  }

  function Backwards(s: seq<string>): (r: seq<string>)
    ensures |r| == |s|
  {
    seq(|s|, i requires 0 <= i < |s| => s[|s| - 1 - i])
  }

  function RuntimeText(assignment: string, records: Records, budget: nat): string {
    var opening := Opening(Line(Assignment, assignment), budget);
    opening + Join(Kept(records.All(), budget - Size(opening)))
  }

  /**
   * The runtime part exceeds its budget by at most one octet, and not at all unless the assignment itself had to be
   * cut.
   */
  lemma RuntimeFits(assignment: string, records: Records, budget: nat)
    ensures Size(RuntimeText(assignment, records, budget)) <= budget + 1
    ensures Size(Line(Assignment, assignment)) <= budget ==> Size(RuntimeText(assignment, records, budget)) <= budget
  {
    var opening := Opening(Line(Assignment, assignment), budget);
    OpeningFits(Line(Assignment, assignment), budget);
    KeptFits(records.All(), budget - Size(opening));
    SizeConcat(opening, Join(Kept(records.All(), budget - Size(opening))));
  }

  /** Within its budget: the text itself, or its longest prefix of whole characters. */
  function Guarded(text: string, maximum: nat): string {
    if Size(text) > maximum then text[..Fit(text, maximum)] else text
  }

  lemma GuardedFits(text: string, maximum: nat)
    ensures Size(Guarded(text, maximum)) <= maximum
    ensures EstimateTokens(Guarded(text, maximum)) <= Max(1, (maximum + 3) / 4)
    ensures Size(text) > maximum ==> Size(Guarded(text, maximum)) >= maximum - 3
  {
    FitFills(text, maximum);
  }

  datatype DiffBundle = DiffBundle(text: string, compressed: bool)

  datatype ManagedContext = ManagedContext(
    text: string, estimatedTokens: nat, compressed: bool,
    keptFeedback: nat, keptMemories: nat, keptObservations: nat,
    droppedFeedback: nat, droppedMemories: nat, droppedObservations: nat)

  /** Packing `lines` into `room` after `start` gave `text`, kept `kept` of them and left `left`. */
  ghost predicate Packed(lines: seq<string>, room: int, start: string, text: string, kept: nat, left: int) {
    && text == start + Join(Kept(lines, room))
    && kept == |Kept(lines, room)|
    && left == Left(lines, room)
  }

  /** The text being collected for the runtime part. */
  datatype Collected = Collected(parts: seq<string>, used: nat, wasTruncated: bool)

  /** What the collection started with: the line that has to be there, cut to the budget. */
  datatype Base = Base(line: string, budget: nat) {
    function Room(): int {
      budget - Size(Opening(line, budget))
    }
  }

  /** `c` is what is left of `lines` after the base, `count` of them having been kept. */
  ghost predicate Holds(c: Collected, base: Base, lines: seq<string>, count: nat) {
    && c.used == Size(Join(c.parts))
    && Packed(lines, base.Room(), Opening(base.line, base.budget), Join(c.parts), count, base.budget - c.used)
    && (c.wasTruncated <==> Size(base.line) > base.budget || count < |lines|)
    && count <= |lines|
  }

  /** The effect of appending one line. */
  ghost predicate Appended(c: Collected, next: Collected, line: string, optional: bool, budget: nat, kept: bool) {
    var more := AppendedText(line, optional, budget - c.used);
    && Join(next.parts) == Then(Join(c.parts), more)
    && next.used == c.used + Size(more) == Size(Join(next.parts))
    && (next.wasTruncated <==> c.wasTruncated || Size(line) > budget - c.used)
    && (kept <==> Size(line) <= budget - c.used || (!optional && budget - c.used >= 48))
  }

  function Add(c: Collected, text: string): Collected {
    c.(parts := c.parts + [text], used := c.used + Size(text))
  }

  lemma AddJoins(c: Collected, text: string)
    ensures Join(Add(c, text).parts) == Then(Join(c.parts), text)
    ensures Size(Then(Join(c.parts), text)) == Size(Join(c.parts)) + Size(text)
  {
    JoinConcat(c.parts, [text]);
    assert Join([text]) == text by {
      assert [text][1..] == [] && text + "" == text;
    }
    SizeConcat(Join(c.parts), text);
  }

  /** Appends a line that may be left out, or, if it may not, cuts it to the room there is. */
  method Append(c: Collected, line: string, optional: bool, budget: nat) returns (next: Collected, kept: bool)
    requires c.used == Size(Join(c.parts))
    ensures Appended(c, next, line, optional, budget, kept)
  {
    var encoded := Encode(line);
    var remaining := budget - c.used;
    if |encoded| <= remaining {
      AddJoins(c, line);
      return Add(c, line), true;
    }
    if optional || remaining < 48 {
      assert Join(c.parts) + "" == Join(c.parts);
      return c.(wasTruncated := true), false;
    }
    var clipped := TruncateUtf8(encoded, remaining);
    CutKeepsWholeCharacters(line, remaining, clipped);
    DecodeOfEncode(line[..Fit(line, remaining)]);
    AddJoins(c, Decode(clipped) + "\n");
    next, kept := c.(wasTruncated := true), clipped != [];
    if kept {
      next := Add(next, Decode(clipped) + "\n");
    }
  }

  lemma OpeningHolds(next: Collected, base: Base, kept: bool)
    requires 128 <= base.budget && Appended(Collected([], 0, false), next, base.line, false, base.budget, kept)
    ensures Holds(next, base, [], 0)
  {
    assert Join(next.parts) == AppendedText(base.line, false, base.budget) == Opening(base.line, base.budget);
    assert Opening(base.line, base.budget) + "" == Opening(base.line, base.budget);
  }

  lemma AppendedHolds(c: Collected, next: Collected, base: Base, lines: seq<string>, count: nat, line: string,
                      kept: bool)
    requires Holds(c, base, lines, count) && Appended(c, next, line, true, base.budget, kept)
    ensures Holds(next, base, Then(lines, [line]), if kept then count + 1 else count)
  {
    PackedMore(lines, line, base.Room(), Opening(base.line, base.budget), Join(c.parts), count, base.budget - c.used);
    hide Packed, Join, Size, AppendedText, Opening;
  }

  lemma PackedMore(lines: seq<string>, line: string, room: int, start: string, text: string, kept: nat, left: int)
    requires Packed(lines, room, start, text, kept, left)
    ensures var more := AppendedText(line, true, left);
      Packed(Then(lines, [line]), room, start, Then(text, more),
             if Size(line) <= left then kept + 1 else kept, left - Size(more))
  {
    var sofar, more := Kept(lines, room), AppendedText(line, true, left);
    KeptInOrder(lines, [line], room);
    JoinConcat(sofar, Kept([line], left));
    JoinOne(line, left);
    hide Kept, Join, Size, AppendedText;
    SizeConcat(Join(sofar), more);
    assert start + Join(sofar) + more == start + (Join(sofar) + more);
  }

  /** Appends optional lines one by one, counting those that are kept. */
  method AppendAll(c: Collected, tag: Tag, rendered: seq<string>, base: Base, ghost lines: seq<string>,
                   ghost count: nat)
    returns (next: Collected, kept: nat)
    requires Holds(c, base, lines, count)
    ensures Holds(next, base, Then(lines, Lines(tag, rendered)), count + kept) && kept <= |rendered|
  {
    next, kept := c, 0;
    ghost var all := Lines(tag, rendered);
    ghost var offered := lines;
    assert lines == Then(lines, all[..0]);
    hide *;
    for i := 0 to |rendered|
      invariant kept <= i && Holds(next, base, offered, count + kept) && offered == Then(lines, all[..i])
    {
      var line := Line(tag, rendered[i]);
      OneMore(lines, tag, rendered, i);
      HeldSize(next, base, offered, count + kept);
      var before, done := next, false;
      next, done := Append(before, line, true, base.budget);
      AppendedHolds(before, next, base, offered, count + kept, line, done);
      offered := Then(offered, [line]);
      if done {
        kept := kept + 1;
      }
    }
    assert all[..|rendered|] == all;
  }

  lemma OneMore(lines: seq<string>, tag: Tag, rendered: seq<string>, i: nat)
    requires i < |rendered|
    ensures Then(Then(lines, Lines(tag, rendered)[..i]), [Line(tag, rendered[i])])
      == Then(lines, Lines(tag, rendered)[..i + 1])
  {
    hide Line;
    var all := Lines(tag, rendered);
    assert all[..i + 1] == all[..i] + [all[i]];
  }

  lemma HeldSize(c: Collected, base: Base, lines: seq<string>, count: nat)
    requires Holds(c, base, lines, count)
    ensures c.used == Size(Join(c.parts)) && count <= |lines|
  {
  }

  function AppendedText(line: string, optional: bool, room: int): string {
    if Size(line) <= room then line
    else if optional || room < 48 then ""
    else line[..Fit(line, room)] + "\n"
  }

  lemma JoinOne(line: string, room: int)
    ensures Kept([line], room) == if Size(line) <= room then [line] else []
    ensures Join(Kept([line], room)) == AppendedText(line, true, room)
  {
    assert [line][1..] == [] && line + "" == line;
  }

  /**
   * After the opening and all records, the parts are the runtime text; nothing was dropped exactly when all of it fits.
   */
  lemma HoldsRuntime(c: Collected, assignment: string, records: Records, budget: nat, count: nat)
    requires Holds(c, Base(Line(Assignment, assignment), budget), records.All(), count)
    ensures Join(c.parts) == RuntimeText(assignment, records, budget)
    ensures c.wasTruncated <==> Size(Line(Assignment, assignment) + Join(records.All())) > budget
  {
    hide Line, Size, Join, Kept, Left;
    var line := Line(Assignment, assignment);
    SizeConcat(line, Join(records.All()));
    if Size(line) <= budget {
      KeptAll(records.All(), budget - Size(line));
    }
  }

  /** The stages of packing, one kind of record after the other. */
  lemma Stages(records: Records)
    ensures var tools := Then([], Lines(Tool, records.tools));
      records.FirstLines()
      == if records.collaboration.Some? then Then(tools, Lines(Collaboration, [records.collaboration.value])) else tools
    ensures records.UpToObservations()
      == Then(records.FirstLines(), Lines(Observation, Backwards(records.observations)))
    ensures records.UpToFeedback() == Then(records.UpToObservations(), Lines(CriticFeedback, records.feedback))
    ensures records.All() == Then(records.UpToFeedback(), Lines(Memory, records.memories))
  {
  }

  lemma HoldsCount(c: Collected, base: Base, lines: seq<string>, count: nat)
    requires Holds(c, base, lines, count)
    ensures count == |Kept(lines, base.Room())|
  {
  }

  /** How many records of each kind fit in what the kinds before them left. */
  ghost predicate KeptCounts(records: Records, room: int, observations: nat, feedback: nat, memories: nat) {
    && observations == |Kept(records.UpToObservations(), room)| - |Kept(records.FirstLines(), room)|
    && feedback == |Kept(records.UpToFeedback(), room)| - |Kept(records.UpToObservations(), room)|
    && memories == |Kept(records.All(), room)| - |Kept(records.UpToFeedback(), room)|
  }

  lemma CountsKept(records: Records, room: int, first: nat, observations: nat, feedback: nat, memories: nat)
    requires first == |Kept(records.FirstLines(), room)|
    requires first + observations == |Kept(records.UpToObservations(), room)|
    requires first + observations + feedback == |Kept(records.UpToFeedback(), room)|
    requires first + observations + feedback + memories == |Kept(records.All(), room)|
    ensures KeptCounts(records, room, observations, feedback, memories)
  {
  }

  class ContextManager {
    const maxTokens: nat
    const reservedTokens: nat

    /** Other budgets are refused with an error. */
    constructor (maxTokens: nat, reservedTokens: nat)
      requires 512 <= maxTokens && reservedTokens < maxTokens
      ensures this.maxTokens == maxTokens && this.reservedTokens == reservedTokens
    {
      this.maxTokens, this.reservedTokens := maxTokens, reservedTokens;
    }

    /** The octets the runtime part may use. */
    function RuntimeBytes(): (n: nat)
      ensures 128 <= n
    {
      Max(128, reservedTokens * 4)
    }

    /** The assignment, the tools and the mailbox summary. */
    method CollectFirst(assignment: string, records: Records) returns (c: Collected, ghost count: nat)
      ensures Holds(c, Base(Line(Assignment, assignment), RuntimeBytes()), records.FirstLines(), count)
    {
      var base := Base(Line(Assignment, assignment), RuntimeBytes());
      assert Join([]) == "" && Size("") == 0;
      Stages(records);
      hide *;
      var done, kept;
      c, done := Append(Collected([], 0, false), base.line, false, base.budget);
      OpeningHolds(c, base, done);
      c, kept := AppendAll(c, Tool, records.tools, base, [], 0);
      count := kept;
      if records.collaboration.Some? {
        c, kept := AppendAll(c, Collaboration, [records.collaboration.value], base,
          Then([], Lines(Tool, records.tools)), count);
        count := count + kept;
      }
    }

    /** The runtime part, from the assignment down to the memories. */
    method CollectRuntime(assignment: string, records: Records)
      returns (text: string, cut: bool, observations: nat, feedback: nat, memories: nat)
      ensures text == RuntimeText(assignment, records, RuntimeBytes())
      ensures cut <==> Size(Line(Assignment, assignment) + Join(records.All())) > RuntimeBytes()
      ensures observations <= |records.observations| && feedback <= |records.feedback| && memories <= |records.memories|
      ensures KeptCounts(records, Base(Line(Assignment, assignment), RuntimeBytes()).Room(), observations, feedback,
        memories)
    {
      hide *;
      var base := Base(Line(Assignment, assignment), RuntimeBytes());
      Stages(records);
      var c, first := CollectFirst(assignment, records);
      HoldsCount(c, base, records.FirstLines(), first);
      c, observations := AppendAll(c, Observation, Backwards(records.observations), base, records.FirstLines(), first);
      HoldsCount(c, base, records.UpToObservations(), first + observations);
      c, feedback := AppendAll(c, CriticFeedback, records.feedback, base, records.UpToObservations(),
                               first + observations);
      HoldsCount(c, base, records.UpToFeedback(), first + observations + feedback);
      c, memories := AppendAll(c, Memory, records.memories, base, records.UpToFeedback(),
                               first + observations + feedback);
      HoldsCount(c, base, records.All(), first + observations + feedback + memories);
      HoldsRuntime(c, assignment, records, RuntimeBytes(), first + observations + feedback + memories);
      CountsKept(records, base.Room(), first, observations, feedback, memories);
      text, cut := Join(c.parts), c.wasTruncated;
    }

    method Compose(bundle: DiffBundle, assignment: string, records: Records) returns (m: ManagedContext)
      requires 512 <= maxTokens && reservedTokens < maxTokens
      ensures m.text
           == Guarded(RuntimeText(assignment, records, RuntimeBytes()) + DIFF_LABEL + bundle.text, maxTokens * 4)
      ensures m.estimatedTokens == EstimateTokens(m.text) <= maxTokens
      ensures m.compressed == (
        || bundle.compressed
        || Size(Line(Assignment, assignment) + Join(records.All())) > RuntimeBytes()
        || Size(RuntimeText(assignment, records, RuntimeBytes()) + DIFF_LABEL + bundle.text) > maxTokens * 4)
      ensures KeptCounts(records, Base(Line(Assignment, assignment), RuntimeBytes()).Room(), m.keptObservations,
        m.keptFeedback, m.keptMemories)
      ensures m.keptFeedback + m.droppedFeedback == |records.feedback|
      ensures m.keptMemories + m.droppedMemories == |records.memories|
      ensures m.keptObservations + m.droppedObservations == |records.observations|
    {
      var runtime, cut, observations, feedback, memories := CollectRuntime(assignment, records);
      var text := runtime + DIFF_LABEL + bundle.text;
      var encoded := Encode(text);
      GuardedFits(text, maxTokens * 4);
      if |encoded| > maxTokens * 4 {
        var clipped := TruncateUtf8(encoded, maxTokens * 4);
        CutKeepsWholeCharacters(text, maxTokens * 4, clipped);
        DecodeOfEncode(text[..Fit(text, maxTokens * 4)]);
        text, cut := Decode(clipped), true;
      }
      m := ManagedContext(
        text, EstimateTokens(text), bundle.compressed || cut, feedback, memories, observations,
        |records.feedback| - feedback, |records.memories| - memories, |records.observations| - observations);
    }
  }

  /** The runtime part may use what its reserved tokens hold, and at least what 32 do. */
  lemma RuntimeBudget(m: ContextManager, text: string)
    ensures Size(text) <= m.RuntimeBytes() <==> EstimateTokens(text) <= Max(32, m.reservedTokens)
  {
    hide Size;
  }

  // ---- When the last guard cuts -------------------------------------------------------

  /** The guard leaves the text alone exactly when runtime part, label and diff fit together. */
  lemma GuardIdle(runtime: string, diff: string, maximum: nat)
    ensures Guarded(runtime + DIFF_LABEL + diff, maximum) == runtime + DIFF_LABEL + diff
        <==> Size(runtime) + 14 + Size(diff) <= maximum
  {
    LabelSize();
    hide *;
    GuardIdleFor(runtime, DIFF_LABEL, diff, maximum);
  }

  lemma LabelSize()
    ensures Size(DIFF_LABEL) == 14
  {
    hide Size, Encode;
    SizeOfAscii(DIFF_LABEL);
  }

  lemma GuardIdleFor(runtime: string, middle: string, diff: string, maximum: nat)
    ensures Guarded(runtime + middle + diff, maximum) == runtime + middle + diff
        <==> Size(runtime) + Size(middle) + Size(diff) <= maximum
  {
    var text := runtime + middle + diff;
    SizeConcat(runtime + middle, diff);
    SizeConcat(runtime, middle);
    FitFills(text, maximum);
    if Size(text) > maximum {
      assert |Guarded(text, maximum)| < |text|;
    }
  }

  /**
   * A diff within its share and records fifteen octets short of theirs are never cut.  The octet beyond the
   * share is the newline that closes a compressed diff.
   */
  lemma SharesFit(maxTokens: nat, reservedTokens: nat, assignment: string, records: Records, diff: string)
    requires 512 <= maxTokens && reservedTokens < maxTokens
    requires Size(diff) <= (maxTokens - reservedTokens) * 4 + 1
    requires Size(Line(Assignment, assignment) + Join(records.All())) <= reservedTokens * 4 - 15
    ensures var text := RuntimeText(assignment, records, Max(128, reservedTokens * 4)) + DIFF_LABEL + diff;
      Guarded(text, maxTokens * 4) == text
  {
    var budget := Max(128, reservedTokens * 4);
    var line := Line(Assignment, assignment);
    SizeConcat(line, Join(records.All()));
    KeptAll(records.All(), budget - Size(line));
    assert RuntimeText(assignment, records, budget) == line + Join(records.All());
    GuardIdle(RuntimeText(assignment, records, budget), diff, maxTokens * 4);
  }

  lemma {:induction false} WithoutNulKeeps(s: string)
    requires forall c | c in s :: c as int != 0
    ensures WithoutNul(s) == s
  {
    if s != [] {
      assert s[0] in s && forall c | c in s[1..] :: c in s;
      WithoutNulKeeps(s[1..]);
    }
  }

  /**
   * Without that slack the guard does cut, although every part keeps to its own budget: with 512 tokens, 128 of
   * them reserved, a diff of 1536 octets is returned uncompressed and an assignment line of 500 octets fits.
   */
  lemma SharesDoNotFit(assignment: string, diff: string)
    requires assignment == seq(487, _ => 'x') && diff == seq(1536, _ => 'x')
    ensures EstimateTokens(diff) <= 512 - 128 && Size(Line(Assignment, assignment)) <= 128 * 4
    ensures var text := RuntimeText(assignment, Records([], None, [], [], []), 128 * 4) + DIFF_LABEL + diff;
      Guarded(text, 512 * 4) != text
  {
    var line := Line(Assignment, assignment);
    WithoutNulKeeps(assignment);
    SizeOfAscii(diff);
    SizeOfAscii(line);
    assert |line| == 500;
    var runtime := RuntimeText(assignment, Records([], None, [], [], []), 512);
    assert runtime == line + "" == line;
    GuardIdle(runtime, diff, 2048);
  }
}
