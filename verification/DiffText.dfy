/** The diff parser on the text of a diff, which it splits at more characters than end the lines of a file. */
module DiffText {
  import opened DiffParser
  import opened Lines
  import opened Models

  /** The diff as a text, each line closed with a line feed. */
  function Text(files: seq<FileEdit>): string {
    JoinLines(Render(files))
  }

  function Strays(pieces: seq<string>): seq<Op> {
    if pieces == [] then [] else [Stray(pieces[0])] + Strays(pieces[1..])
  }

  /** What splitting the diff makes of one line of a hunk: the line up to its first boundary, and stray lines. */
  function SplitOp(op: Op): seq<Op> {
    if op.NoNewline? then [op]
    else
      var pieces := Pieces(op.text);
      [op.(text := pieces[0])] + Strays(pieces[1..])
  }

  function SplitOps(ops: seq<Op>): seq<Op> {
    if ops == [] then [] else SplitOp(ops[0]) + SplitOps(ops[1..])
  }

  function SplitSegment(segment: Segment): Segment {
    if segment.Gap? then segment
    else
      var pieces := Pieces(segment.heading);
      segment.(ops := Strays(pieces[1..]) + SplitOps(segment.ops), heading := pieces[0])
  }

  function SplitSegments(segments: seq<Segment>): seq<Segment> {
    if segments == [] then [] else [SplitSegment(segments[0])] + SplitSegments(segments[1..])
  }

  function SplitFile(f: FileEdit): FileEdit {
    f.(segments := SplitSegments(f.segments))
  }

  /** The script whose lines the parser sees. */
  function SplitScript(files: seq<FileEdit>): seq<FileEdit> {
    if files == [] then [] else [SplitFile(files[0])] + SplitScript(files[1..])
  }

  /** File names and old headers hold no line boundary; diff programs quote such names. */
  predicate PlainNames(files: seq<FileEdit>) {
    forall f | f in files :: !HasBoundary(f.oldHeader) && (f.path.Some? ==> !HasBoundary(f.path.value))
  }

  lemma {:induction false} StrayLines(pieces: seq<string>)
    ensures OpLines(Strays(pieces)) == pieces
    ensures OpsNew(Strays(pieces)) == [] && OpsOld(Strays(pieces)) == []
    ensures forall path, n: nat :: OpsAdded(path, Strays(pieces), n) == []
  {
    if pieces != [] {
      StrayLines(pieces[1..]);
      assert Strays(pieces)[1..] == Strays(pieces[1..]);
    }
  }

  lemma OpsStep(ops: seq<Op>)
    requires ops != []
    ensures OpLines(ops) == [OpLine(ops[0])] + OpLines(ops[1..])
    ensures OpsNew(ops) == OpNew(ops[0]) + OpsNew(ops[1..]) && OpsOld(ops) == OpOld(ops[0]) + OpsOld(ops[1..])
  {
  }

  lemma {:induction false} OpsConcat(a: seq<Op>, b: seq<Op>)
    ensures OpLines(a + b) == OpLines(a) + OpLines(b)
    ensures OpsNew(a + b) == OpsNew(a) + OpsNew(b) && OpsOld(a + b) == OpsOld(a) + OpsOld(b)
    decreases |a|
  {
    if a == [] {
      assert a + b == b;
    } else {
      hide *;
      var op := a[0];
      assert (a + b)[0] == op && (a + b)[1..] == a[1..] + b;
      OpsStep(a + b);
      OpsStep(a);
      OpsConcat(a[1..], b);
      AppendMiddle([OpLine(op)], OpLines(a[1..]), OpLines(b));
      AppendMiddle(OpNew(op), OpsNew(a[1..]), OpsNew(b));
      AppendMiddle(OpOld(op), OpsOld(a[1..]), OpsOld(b));
    }
  }

  lemma {:induction false} OpsAddedConcat(path: string, a: seq<Op>, b: seq<Op>, newBefore: nat)
    ensures OpsAdded(path, a + b, newBefore)
         == OpsAdded(path, a, newBefore) + OpsAdded(path, b, newBefore + |OpsNew(a)|)
    decreases |a|
  {
    if a == [] {
      assert a + b == b;
    } else {
      hide *;
      var op := a[0];
      var here := if op.Add? then [ChangedLine(path, newBefore + 1, op.text)] else [];
      var after := newBefore + |OpNew(op)|;
      assert (a + b)[0] == op && (a + b)[1..] == a[1..] + b;
      OpsAddedStep(path, a + b, newBefore);
      OpsAddedStep(path, a, newBefore);
      OpsAddedConcat(path, a[1..], b, after);
      OpsStep(a);
      AppendMiddle(here, OpsAdded(path, a[1..], after), OpsAdded(path, b, newBefore + |OpsNew(a)|));
    }
  }

  /** The pieces of a rendered line are the lines of what it is split into. */
  lemma SplitOpLines(op: Op)
    ensures Pieces(OpLine(op)) == OpLines(SplitOp(op))
    ensures |OpsNew(SplitOp(op))| == |OpNew(op)| && |OpsOld(SplitOp(op))| == |OpOld(op)|
  {
    if op.NoNewline? {
      WholeLine(OpLine(op));
      assert OpLines([op]) == [OpLine(op)];
    } else {
      var pieces := Pieces(op.text);
      var start := if op.Keep? then " " else if op.Add? then "+" else if op.Remove? then "-" else "";
      var first := op.(text := pieces[0]);
      PiecesAfter(start, op.text);
      assert OpLine(op) == start + op.text && OpLine(first) == start + pieces[0];
      StrayLines(pieces[1..]);
      OpsConcat([first], Strays(pieces[1..]));
      OneOp(first);
      hide Pieces, Strays, OpLines, OpsNew, OpsOld;
    }
  }

  lemma OneOp(op: Op)
    ensures OpLines([op]) == [OpLine(op)] && OpsNew([op]) == OpNew(op) && OpsOld([op]) == OpOld(op)
    ensures forall path, n: nat ::
      OpsAdded(path, [op], n) == if op.Add? then [ChangedLine(path, n + 1, op.text)] else []
  {
    assert [op][1..] == [];
  }

  lemma {:induction false} AllPiecesConcat(a: seq<string>, b: seq<string>)
    ensures AllPieces(a + b) == AllPieces(a) + AllPieces(b)
  {
    if a == [] {
      assert a + b == b;
    } else {
      assert (a + b)[1..] == a[1..] + b;
      AllPiecesConcat(a[1..], b);
    }
  }

  lemma SplitOpsStep(ops: seq<Op>)
    requires ops != []
    ensures SplitOps(ops) == SplitOp(ops[0]) + SplitOps(ops[1..])
  {
  }

  lemma AllPiecesStep(line: string, rest: seq<string>)
    ensures AllPieces([line] + rest) == Pieces(line) + AllPieces(rest)
  {
    hide Pieces;
    assert ([line] + rest)[1..] == rest;
  }

  lemma {:induction false} SplitOpsLines(ops: seq<Op>)
    ensures AllPieces(OpLines(ops)) == OpLines(SplitOps(ops))
    ensures |OpsNew(SplitOps(ops))| == |OpsNew(ops)| && |OpsOld(SplitOps(ops))| == |OpsOld(ops)|
    decreases |ops|
  {
    if ops != [] {
      hide *;
      SplitOpsLines(ops[1..]);
      SplitOpLines(ops[0]);
      SplitOpsStep(ops);
      OpsConcat(SplitOp(ops[0]), SplitOps(ops[1..]));
      OpsStep(ops);
      AllPiecesStep(OpLine(ops[0]), OpLines(ops[1..]));
    }
  }

  /** A header is the part before its heading and the heading. */
  lemma HeaderStart(oldBefore: nat, newBefore: nat, hunk: Segment)
    requires hunk.Hunk?
    ensures HunkHeader(oldBefore, newBefore, hunk)
      == HunkHeader(oldBefore, newBefore, hunk.(heading := "")) + hunk.heading
    ensures !HasBoundary(HunkHeader(oldBefore, newBefore, hunk.(heading := "")))
  {
    hide RangeText;
    var oldRange := RangeText(oldBefore, |OpsOld(hunk.ops)|, hunk.shortOld);
    var newRange := RangeText(newBefore, |OpsNew(hunk.ops)|, hunk.shortNew);
    RangeUnbroken(oldBefore, |OpsOld(hunk.ops)|, hunk.shortOld);
    RangeUnbroken(newBefore, |OpsNew(hunk.ops)|, hunk.shortNew);
    forall c | c in HunkHeader(oldBefore, newBefore, hunk.(heading := ""))
      ensures !IsBoundary(c)
    {
      assert c in oldRange || c in newRange || c in "@@ -" || c in " +";
    }
  }

  lemma RangeUnbroken(before: nat, count: nat, short: bool)
    ensures forall c | c in RangeText(before, count, short) :: !IsBoundary(c)
  {
    hide Decimal;
    var digits, more := Decimal(RangeStart(before, count)), Decimal(count);
    forall c | c in RangeText(before, count, short)
      ensures !IsBoundary(c)
    {
      assert c in digits || c in more || c == ',';
    }
  }

  lemma SplitSegmentIs(hunk: Segment)
    requires hunk.Hunk?
    ensures var pieces := Pieces(hunk.heading);
      SplitSegment(hunk)
      == Hunk(Strays(pieces[1..]) + SplitOps(hunk.ops), pieces[0], hunk.shortOld, hunk.shortNew)
  {
    hide Pieces, Strays, SplitOps;
  }

  lemma SplitHeader(oldBefore: nat, newBefore: nat, hunk: Segment)
    requires hunk.Hunk?
    ensures var split := SplitSegment(hunk);
      && split.Hunk?
      && |OpsNew(split.ops)| == |OpsNew(hunk.ops)| && |OpsOld(split.ops)| == |OpsOld(hunk.ops)|
      && Pieces(HunkHeader(oldBefore, newBefore, hunk)) + AllPieces(OpLines(hunk.ops))
         == [HunkHeader(oldBefore, newBefore, split)] + OpLines(split.ops)
  {
    hide *;
    var pieces, split := Pieces(hunk.heading), SplitSegment(hunk);
    var start := HunkHeader(oldBefore, newBefore, hunk.(heading := ""));
    SplitSegmentIs(hunk);
    SplitOpsLines(hunk.ops);
    StrayLines(pieces[1..]);
    OpsConcat(Strays(pieces[1..]), SplitOps(hunk.ops));
    HeaderStart(oldBefore, newBefore, hunk);
    PiecesAfter(start, hunk.heading);
    SameHeader(oldBefore, newBefore, hunk, split);
    AppendMiddle([start + pieces[0]], pieces[1..], OpLines(SplitOps(hunk.ops)));
  }

  lemma SameHeader(oldBefore: nat, newBefore: nat, hunk: Segment, split: Segment)
    requires hunk.Hunk? && split.Hunk? && split == hunk.(ops := split.ops, heading := split.heading)
    requires |OpsNew(split.ops)| == |OpsNew(hunk.ops)| && |OpsOld(split.ops)| == |OpsOld(hunk.ops)|
    ensures HunkHeader(oldBefore, newBefore, split)
         == HunkHeader(oldBefore, newBefore, hunk.(heading := "")) + split.heading
  {
    hide RangeText;
  }

  lemma SegmentLinesStep(segments: seq<Segment>, oldBefore: nat, newBefore: nat)
    requires segments != []
    ensures segments[0].Gap? ==> var n := |segments[0].lines|;
      SegmentLines(HunkHeader, segments, oldBefore, newBefore)
      == SegmentLines(HunkHeader, segments[1..], oldBefore + n, newBefore + n)
    ensures segments[0].Hunk? ==> var ops := segments[0].ops;
      SegmentLines(HunkHeader, segments, oldBefore, newBefore)
      == [HunkHeader(oldBefore, newBefore, segments[0])] + OpLines(ops)
         + SegmentLines(HunkHeader, segments[1..], oldBefore + |OpsOld(ops)|, newBefore + |OpsNew(ops)|)
  {
    hide HunkHeader, OpLines, OpsOld, OpsNew;
  }

  lemma SplitSegmentsStep(segments: seq<Segment>)
    requires segments != []
    ensures var split := SplitSegments(segments);
      split != [] && split[0] == SplitSegment(segments[0]) && split[1..] == SplitSegments(segments[1..])
    ensures segments[0].Gap? ==> SplitSegment(segments[0]) == segments[0]
  {
    hide Pieces, SplitOps, Strays;
  }

  lemma NoSegments(path: string, oldBefore: nat, newBefore: nat)
    ensures SplitSegments([]) == [] && AllPieces([]) == []
    ensures SegmentLines(HunkHeader, [], oldBefore, newBefore) == [] && SegmentsAdded(path, [], newBefore) == []
  {
    hide SplitSegment;
  }

  lemma {:induction false} SplitSegmentsLines(segments: seq<Segment>, oldBefore: nat, newBefore: nat)
    ensures AllPieces(SegmentLines(HunkHeader, segments, oldBefore, newBefore))
         == SegmentLines(HunkHeader, SplitSegments(segments), oldBefore, newBefore)
    decreases |segments|
  {
    hide *;
    if segments == [] {
      NoSegments("", oldBefore, newBefore);
    } else {
      SplitSegmentsStep(segments);
      SegmentLinesStep(segments, oldBefore, newBefore);
      SegmentLinesStep(SplitSegments(segments), oldBefore, newBefore);
      if segments[0].Gap? {
        var n := |segments[0].lines|;
        SplitSegmentsLines(segments[1..], oldBefore + n, newBefore + n);
      } else {
        var ops, header := segments[0].ops, HunkHeader(oldBefore, newBefore, segments[0]);
        var oldAfter, newAfter := oldBefore + |OpsOld(ops)|, newBefore + |OpsNew(ops)|;
        SplitSegmentsLines(segments[1..], oldAfter, newAfter);
        SplitHeader(oldBefore, newBefore, segments[0]);
        AllPiecesThree(header, OpLines(ops), SegmentLines(HunkHeader, segments[1..], oldAfter, newAfter));
      }
    }
  }

  lemma AllPiecesThree(first: string, body: seq<string>, rest: seq<string>)
    ensures AllPieces([first] + body + rest) == Pieces(first) + AllPieces(body) + AllPieces(rest)
  {
    hide Pieces;
    assert ([first] + body + rest)[1..] == body + rest;
    AllPiecesConcat(body, rest);
  }

  lemma SplitFileLines(f: FileEdit)
    requires !HasBoundary(f.oldHeader) && (f.path.Some? ==> !HasBoundary(f.path.value))
    ensures AllPieces(FileLines(HunkHeader, f)) == FileLines(HunkHeader, SplitFile(f))
  {
    var name, path := "--- " + f.oldHeader, "+++ " + PathText(f);
    var rest := SegmentLines(HunkHeader, f.segments, 0, 0);
    var split := SegmentLines(HunkHeader, SplitSegments(f.segments), 0, 0);
    assert FileLines(HunkHeader, f) == [name] + [path] + rest;
    assert FileLines(HunkHeader, SplitFile(f)) == [name] + [path] + split;
    hide *;
    SplitSegmentsLines(f.segments, 0, 0);
    NamesWhole(f);
    WholeLine(name);
    WholeLine(path);
    AppendMiddle([name], [path], rest);
    AppendMiddle([name], [path], split);
    AllPiecesStep(name, [path] + rest);
    AllPiecesStep(path, rest);
  }

  lemma NamesWhole(f: FileEdit)
    requires !HasBoundary(f.oldHeader) && (f.path.Some? ==> !HasBoundary(f.path.value))
    ensures !HasBoundary("--- " + f.oldHeader) && !HasBoundary("+++ " + PathText(f))
  {
    forall c | c in "--- " + f.oldHeader || c in "+++ " + PathText(f)
      ensures !IsBoundary(c)
    {
      assert c in f.oldHeader || (f.path.Some? && c in f.path.value) || c in "+- b/devnul";
    }
  }

  lemma {:induction false} SplitScriptLines(files: seq<FileEdit>)
    requires PlainNames(files)
    ensures AllPieces(Render(files)) == Render(SplitScript(files))
    decreases |files|
  {
    if files != [] {
      assert files[0] in files && forall f | f in files[1..] :: f in files;
      SplitFileLines(files[0]);
      SplitScriptLines(files[1..]);
      AllPiecesConcat(FileLines(HunkHeader, files[0]), Render(files[1..]));
      assert SplitScript(files)[1..] == SplitScript(files[1..]);
      hide FileLines, Pieces;
    }
  }

  /** Splitting the text of a script gives the lines of the split script. */
  lemma SplitText(files: seq<FileEdit>)
    requires PlainNames(files)
    ensures SplitLines(Text(files)) == Render(SplitScript(files))
  {
    hide Render, SplitLines;
    SplitOfJoin(Render(files));
    SplitScriptLines(files);
  }

  // ---- What a split script adds -----------------------------------------------------------------

  predicate Unbroken(text: string) {
    !HasBoundary(text)
  }

  lemma SplitOpAdded(path: string, op: Op, newBefore: nat)
    requires op.Add? ==> Unbroken(op.text)
    ensures OpsAdded(path, SplitOp(op), newBefore) == OpsAdded(path, [op], newBefore)
  {
    OneOp(op);
    if !op.NoNewline? {
      var pieces := Pieces(op.text);
      var first := op.(text := pieces[0]);
      if op.Add? {
        WholeLine(op.text);
      }
      StrayLines(pieces[1..]);
      OneOp(first);
      OpsAddedConcat(path, [first], Strays(pieces[1..]), newBefore);
      hide Pieces, Strays, OpsAdded, Unbroken;
    }
  }

  lemma NoOps(path: string, newBefore: nat)
    ensures SplitOps([]) == [] && OpsAdded(path, [], newBefore) == []
  {
    hide SplitOp;
  }

  lemma {:induction false} SplitOpsAdded(path: string, ops: seq<Op>, newBefore: nat)
    requires TextsAre(OpsAdded(path, ops, newBefore), Unbroken)
    ensures OpsAdded(path, SplitOps(ops), newBefore) == OpsAdded(path, ops, newBefore)
    decreases |ops|
  {
    NoOps(path, newBefore);
    hide *;
    if ops != [] {
      var op, rest := ops[0], ops[1..];
      var after := newBefore + |OpsNew([op])|;
      assert ops == [op] + rest;
      OneOp(op);
      OpsAddedConcat(path, [op], rest, newBefore);
      TextsConcat(OpsAdded(path, [op], newBefore), OpsAdded(path, rest, after), Unbroken);
      AddUnbroken(path, op, newBefore);
      SplitOpAdded(path, op, newBefore);
      SplitOpsAdded(path, rest, after);
      SplitOpLines(op);
      SplitOpsStep(ops);
      OpsAddedConcat(path, SplitOp(op), SplitOps(rest), newBefore);
    }
  }

  lemma AddUnbroken(path: string, op: Op, newBefore: nat)
    requires TextsAre(OpsAdded(path, [op], newBefore), Unbroken)
    ensures op.Add? ==> Unbroken(op.text)
  {
    OneOp(op);
    assert op.Add? ==> ChangedLine(path, newBefore + 1, op.text) in OpsAdded(path, [op], newBefore);
  }

  lemma {:induction false} SplitSegmentsAdded(path: string, segments: seq<Segment>, newBefore: nat)
    requires TextsAre(SegmentsAdded(path, segments, newBefore), Unbroken)
    ensures SegmentsAdded(path, SplitSegments(segments), newBefore) == SegmentsAdded(path, segments, newBefore)
    decreases |segments|
  {
    hide *;
    if segments == [] {
      NoSegments(path, 0, newBefore);
    } else {
      SplitSegmentsStep(segments);
      SegmentsAddedStep(path, segments, newBefore);
      SegmentsAddedStep(path, SplitSegments(segments), newBefore);
      if segments[0].Gap? {
        SplitSegmentsAdded(path, segments[1..], newBefore + |segments[0].lines|);
      } else {
        var ops := segments[0].ops;
        var after := newBefore + |OpsNew(ops)|;
        SplitHeader(0, newBefore, segments[0]);
        TextsConcat(OpsAdded(path, ops, newBefore), SegmentsAdded(path, segments[1..], after), Unbroken);
        SplitSegmentsAdded(path, segments[1..], after);
        SplitHunkAdded(path, segments[0], newBefore);
      }
    }
  }

  lemma SplitHunkAdded(path: string, hunk: Segment, newBefore: nat)
    requires hunk.Hunk? && TextsAre(OpsAdded(path, hunk.ops, newBefore), Unbroken)
    ensures SplitSegment(hunk).Hunk?
    ensures OpsAdded(path, SplitSegment(hunk).ops, newBefore) == OpsAdded(path, hunk.ops, newBefore)
  {
    hide *;
    var pieces := Pieces(hunk.heading);
    SplitSegmentIs(hunk);
    SplitOpsAdded(path, hunk.ops, newBefore);
    StrayLines(pieces[1..]);
    OpsAddedConcat(path, Strays(pieces[1..]), SplitOps(hunk.ops), newBefore);
  }

  /** Where no added text is broken, the split script adds the same lines. */
  lemma {:induction false} SplitScriptAdded(files: seq<FileEdit>)
    requires TextsAre(Added(files), Unbroken)
    ensures Added(SplitScript(files)) == Added(files)
    decreases |files|
  {
    if files != [] {
      var path, segments := PathOf(files[0]), files[0].segments;
      TextsConcat(SegmentsAdded(path, segments, 0), Added(files[1..]), Unbroken);
      SplitSegmentsAdded(path, segments, 0);
      SplitScriptAdded(files[1..]);
      assert SplitScript(files)[1..] == SplitScript(files[1..]);
      hide SegmentsAdded, SplitSegments, TextsAre;
    }
  }

  lemma {:induction false} SplitPaths(files: seq<FileEdit>)
    requires PlainPaths(files)
    ensures PlainPaths(SplitScript(files))
    decreases |files|
  {
    if files != [] {
      hide PlainPath;
      assert files[0] in files && forall f | f in files[1..] :: f in files;
      SplitPaths(files[1..]);
      var split := SplitScript(files);
      assert forall f :: f in split <==> f == split[0] || f in split[1..];
    }
  }

  /** Whatever the text, no reported line holds a boundary. */
  lemma BoundaryUnreported(diff: string)
    ensures TextsAre(Parsed(diff).addedLines, Unbroken)
  {
    var lines := SplitLines(diff);
    NoLineHasBoundary(diff);
    hide SplitLines, Run;
    forall line | line in ClassifyAll(lines) && line.AddedLine?
      ensures Unbroken(line.text)
    {
      ClassifiedFrom(lines, line);
      var raw :| raw in lines && line == Classify(raw);
      assert line.text == raw[1..] && forall c | c in raw[1..] :: c in raw;
    }
    ReportedTexts(START, ClassifyAll(lines), Unbroken);
  }

  // ---- Main results on texts ----------------------------------------------------------------------

  /** For every script: an added text that starts with ++ or holds a boundary makes the report wrong. */
  lemma WrongTexts(files: seq<FileEdit>)
    requires Parsed(Text(files)).addedLines == Added(files)
    ensures TextsAre(Added(files), Unbroken) && TextsAre(Added(files), NotPlusPlus)
  {
    hide Text, SplitLines, Run, TextsAre, Added;
    BoundaryUnreported(Text(files));
    PlusPlusUnreported(SplitLines(Text(files)));
  }

  /**
   * From the text of a script the parser reports exactly the added lines, with their places in the new files, if and
   * only if no added text holds a line boundary and the script that splitting makes of it is readable.
   */
  lemma ParseOfText(files: seq<FileEdit>)
    requires PlainPaths(files) && PlainNames(files) && EveryFile(SplitScript(files), NotHeader)
    ensures Parsed(Text(files)).addedLines == Added(files)
        <==> TextsAre(Added(files), Unbroken) && ScriptReadable(SplitScript(files))
  {
    hide ClassifyAll, Run, SplitLines, Render, Text, TextsAre, ScriptReadable, EveryFile, PlainPaths, PlainNames;
    SplitText(files);
    SplitPaths(files);
    ParseOfRender(SplitScript(files));
    BoundaryUnreported(Text(files));
    if TextsAre(Added(files), Unbroken) {
      SplitScriptAdded(files);
    }
  }

  /** In particular, where no rendered line holds a boundary, the script need only be readable. */
  lemma ParseOfUnbrokenText(files: seq<FileEdit>)
    requires PlainPaths(files) && EveryFile(files, NotHeader) && NoneHasBoundary(Render(files))
    ensures Parsed(Text(files)).addedLines == Added(files) <==> ScriptReadable(files)
  {
    hide ClassifyAll, Run, SplitLines, Render, JoinLines;
    SplitInvertsJoin(Render(files));
    ParseOfRender(files);
  }

  // ---- Form feeds ----------------------------------------------------------------------------------

  const BROKEN := "a\U{000C}b"

  lemma BrokenPieces()
    ensures Pieces(BROKEN) == ["a", "b"] && !Unbroken(BROKEN)
  {
    assert BROKEN[1] in BROKEN && IsBoundary(BROKEN[1]);
    var text := BROKEN + "\n";
    assert text == "a" + text[1..] && text[2..] == "b" + "\n";
    LineLengthAt("a", text[1..]);
    assert LineWidth(text) == 2;
    WholeLine("b");
    assert text[..1] == "a";
  }

  function OneHunk(ops: seq<Op>): seq<FileEdit> {
    [FileEdit("", Some("p"), [Hunk(ops, "", false, false)])]
  }

  lemma OneFile(s: ParserState, f: FileEdit)
    ensures SplitScript([f]) == [SplitFile(f)]
    ensures ScriptReadable([f]) == SegmentsReadable(f.segments)
    ensures Added([f]) == SegmentsAdded(PathOf(f), f.segments, 0)
    ensures AfterFiles(s, [f]) == AfterSegments(EnterFile(s, PathOf(f)), f.segments, 0)
  {
    hide SegmentsReadable, SegmentsAdded, AfterSegments, SplitFile, EnterFile, PathOf;
    assert [f][1..] == [] && SegmentsAdded(PathOf(f), f.segments, 0) + [] == SegmentsAdded(PathOf(f), f.segments, 0);
  }

  lemma OneSegment(s: ParserState, path: string, hunk: Segment)
    requires hunk.Hunk?
    ensures SplitSegments([hunk]) == [SplitSegment(hunk)]
    ensures SegmentsReadable([hunk]) == Readable(hunk.ops)
    ensures SegmentsAdded(path, [hunk], 0) == OpsAdded(path, hunk.ops, 0)
    ensures AfterSegments(s, [hunk], 0) == AfterOps(EnterHunk(s, hunk.ops, 0), hunk.ops)
  {
    hide Readable, OpsAdded, AfterOps, SplitSegment, EnterHunk, OpsNew;
    assert [hunk][1..] == [] && OpsAdded(path, hunk.ops, 0) + [] == OpsAdded(path, hunk.ops, 0);
  }

  lemma PlainHunk(ops: seq<Op>)
    ensures SplitSegment(Hunk(ops, "", false, false)) == Hunk(SplitOps(ops), "", false, false)
  {
    hide Pieces, SplitOps;
    WholeLine("");
    assert Strays([]) + SplitOps(ops) == SplitOps(ops);
  }

  lemma OneHunkIs(ops: seq<Op>)
    ensures var files := OneHunk(ops);
      && PlainPaths(files) && PlainNames(files) && SplitScript(files) == OneHunk(SplitOps(ops))
      && ScriptReadable(files) == Readable(ops) && Added(files) == OpsAdded("p", ops, 0)
  {
    var f := OneHunk(ops)[0];
    assert PlainPaths([f]) && PlainNames([f]) && PathOf(f) == "p";
    hide SplitOps, Readable, OpsAdded, SplitSegment, ScriptReadable, SegmentsReadable, Added, SegmentsAdded;
    hide SplitScript, SplitSegments, PlainPaths, PlainNames;
    OneFile(START, f);
    OneSegment(START, "p", f.segments[0]);
    PlainHunk(ops);
  }

  lemma OneHunkEvery(ops: seq<Op>, ok: Op -> bool)
    ensures EveryFile(OneHunk(ops), ok) <==> Every(ops, ok)
  {
    var f := OneHunk(ops)[0];
    assert f in OneHunk(ops) && f.segments[0] in f.segments;
    hide Every;
  }

  /** The parser's report on one hunk whose lines it takes for what they are. */
  lemma OneHunkParsed(ops: seq<Op>)
    requires Every(SplitOps(ops), Seen) && Every(SplitOps(ops), NotHeader)
    ensures var inside := ParserState(["p"], [], "p", RangeStart(0, |OpsNew(SplitOps(ops))|), true);
      Parsed(Text(OneHunk(ops))).addedLines == AfterOps(inside, SplitOps(ops)).added
  {
    var split := OneHunk(SplitOps(ops));
    hide SplitOps, Every, Render, SplitLines, Text, SplitScript, RenderKinds, OpsNew, AfterOps, EveryFile;
    OneHunkIs(ops);
    OneHunkEvery(SplitOps(ops), Seen);
    OneHunkEvery(SplitOps(ops), NotHeader);
    SplitText(OneHunk(ops));
    OneHunkIs(SplitOps(ops));
    RenderClassified(split);
    RunFiles(START, split);
    OneHunkRun(SplitOps(ops));
  }

  lemma OneHunkRun(ops: seq<Op>)
    ensures var inside := ParserState(["p"], [], "p", RangeStart(0, |OpsNew(ops)|), true);
      AfterFiles(START, OneHunk(ops)) == AfterOps(inside, ops)
  {
    var f := OneHunk(ops)[0];
    hide AfterOps, OpsNew, AfterFiles, AfterSegments;
    OneFile(START, f);
    OneSegment(EnterFile(START, "p"), "p", f.segments[0]);
    assert EnterFile(START, "p").files == ["p"];
  }

  lemma StrayB()
    ensures Classify("b") == OtherLine
  {
    var raw := "b";
    assert raw[0] == 'b';
  }

  lemma ThreeOps(s: ParserState, first: Op)
    requires (first == Add("a") || first == Keep("a")) && s.newLine == 1
    ensures var t := AfterOps(s, [first, Stray("b"), Add("c")]);
      t.added == s.added + (if first.Add? then [ChangedLine(s.path, 1, "a")] else []) + [ChangedLine(s.path, 3, "c")]
    ensures |OpsNew([first, Stray("b"), Add("c")])| == 2
  {
    StrayB();
    hide Classify;
    var ops, two, one := [first, Stray("b"), Add("c")], [Stray("b"), Add("c")], [Add("c")];
    assert ops[1..] == two && two[1..] == one && one[1..] == [];
    assert OpsNew(one) == ["c"] && OpsNew(two) == ["c"];
    var s1 := After(s, first);
    var s2 := After(s1, Stray("b"));
    assert AfterOps(s, ops) == AfterOps(s1, two) == AfterOps(s2, one) == After(s2, Add("c"));
  }

  lemma TwoOps(first: Op)
    requires first == Add(BROKEN) || first == Keep(BROKEN)
    ensures Readable([first, Add("c")])
    ensures OpsAdded("p", [first, Add("c")], 0)
         == (if first.Add? then [ChangedLine("p", 1, BROKEN)] else []) + [ChangedLine("p", 2, "c")]
  {
    var ops := [first, Add("c")];
    assert ops[1..] == [Add("c")] && [Add("c")][1..] == [];
    assert BROKEN[0] == 'a' && "c"[0] == 'c';
  }

  /** A readable script that adds a form feed: the text is cut and the next number is one too high. */
  lemma FormFeedInAddition()
    ensures var files := OneHunk([Add(BROKEN), Add("c")]);
      && ScriptReadable(files) && Added(files) == [ChangedLine("p", 1, BROKEN), ChangedLine("p", 2, "c")]
      && Parsed(Text(files)).addedLines == [ChangedLine("p", 1, "a"), ChangedLine("p", 3, "c")]
  {
    hide *;
    FormFeed(Add(BROKEN));
  }

  /** A readable script that keeps a line with a form feed: the next number is one too high. */
  lemma FormFeedInContext()
    ensures var files := OneHunk([Keep(BROKEN), Add("c")]);
      && ScriptReadable(files) && Added(files) == [ChangedLine("p", 2, "c")]
      && Parsed(Text(files)).addedLines == [ChangedLine("p", 3, "c")]
  {
    hide *;
    FormFeed(Keep(BROKEN));
  }

  lemma FormFeed(first: Op)
    requires first == Add(BROKEN) || first == Keep(BROKEN)
    ensures var files := OneHunk([first, Add("c")]);
      && ScriptReadable(files)
      && Added(files) == (if first.Add? then [ChangedLine("p", 1, BROKEN)] else []) + [ChangedLine("p", 2, "c")]
      && Parsed(Text(files)).addedLines
         == (if first.Add? then [ChangedLine("p", 1, "a")] else []) + [ChangedLine("p", 3, "c")]
  {
    hide *;
    var ops := [first, Add("c")];
    TwoOps(first);
    SplitsAs(first, Add("c"));
    OneHunkIs(ops);
    OneHunkParsed(ops);
    var inside := ParserState(["p"], [], "p", 1, true);
    ThreeOps(inside, first.(text := "a"));
    assert RangeStart(0, 2) == 1 by {
      StartsAtOne();
    }
  }

  lemma StartsAtOne()
    ensures RangeStart(0, 2) == 1
  {
  }

  lemma SplitsAs(first: Op, second: Op)
    requires !first.NoNewline? && first.text == BROKEN && second == Add("c")
    ensures SplitOps([first, second]) == [first.(text := "a"), Stray("b"), Add("c")]
    ensures Every(SplitOps([first, second]), Seen) && Every(SplitOps([first, second]), NotHeader)
  {
    var ops := [first, second];
    BrokenPieces();
    WholeLine("c");
    StrayB();
    hide Pieces, Classify;
    assert ops[1..] == [second] && [second][1..] == [];
    assert Strays(["b"]) == [Stray("b")] by {
      assert ["b"][1..] == [];
    }
    assert ["a", "b"][1..] == ["b"] && ["c"][1..] == [];
    assert SplitOp(first) == [first.(text := "a"), Stray("b")];
    assert SplitOp(second) == [Add("c")];
    assert SplitOps([second]) == [Add("c")] + SplitOps([]) == [Add("c")];
  }
}
