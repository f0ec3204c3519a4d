/** The unified-diff parser and its correctness on rendered diffs. */
module DiffParser {
  import opened Lines
  import opened Models

  // ---- Hunk headers -------------------------------------------------------

  predicate IsDigit(c: char) {
    '0' <= c <= '9'
  }

  /** Length of the leading run of digits. */
  function DigitRun(s: string): (n: nat)
    ensures n <= |s|
  {
    if s != [] && IsDigit(s[0]) then 1 + DigitRun(s[1..]) else 0
  }

  function DigitValue(c: char): nat
    requires IsDigit(c)
  {
    c as int - '0' as int
  }

  function ToNat(digits: string): nat
    requires forall c | c in digits :: IsDigit(c)
  {
    if digits == [] then 0
    else 10 * ToNat(digits[..|digits| - 1]) + DigitValue(digits[|digits| - 1])
  }

  /** What is left of `s` after an optional comma-and-digits group. */
  function SkipCount(s: string): string {
    if s != [] && s[0] == ',' && DigitRun(s[1..]) > 0 then s[1 + DigitRun(s[1..])..] else s
  }

  lemma {:induction false} DigitRunDigits(s: string)
    ensures forall c | c in s[..DigitRun(s)] :: IsDigit(c)
  {
    if s != [] && IsDigit(s[0]) {
      DigitRunDigits(s[1..]);
      assert s[..DigitRun(s)] == [s[0]] + s[1..][..DigitRun(s[1..])];
    }
  }

  /** The second range of a hunk header: " +digits[,digits] @@". */
  function MatchNewRange(s: string): Option<nat> {
    if !StartsWith(s, " +") then None
    else
      var newRange := s[2..];
      if DigitRun(newRange) == 0 then None
      else if !StartsWith(SkipCount(newRange[DigitRun(newRange)..]), " @@") then None
      else
        DigitRunDigits(newRange);
        Some(ToNat(newRange[..DigitRun(newRange)]))
  }

  /** The new-file start line, if the line is a hunk header "@@ -digits[,digits] +digits[,digits] @@". */
  function MatchHunk(raw: string): Option<nat> {
    if !StartsWith(raw, "@@ -") then None
    else
      var oldRange := raw[4..];
      if DigitRun(oldRange) == 0 then None
      else MatchNewRange(SkipCount(oldRange[DigitRun(oldRange)..]))
  }

  predicate AllDigits(s: string) {
    s != "" && forall c | c in s :: IsDigit(c)
  }

  /** The length of a range, which may be left out. */
  predicate IsCount(s: string) {
    s == "" || (s[0] == ',' && AllDigits(s[1..]))
  }

  lemma SkipCountForm(s: string) returns (count: string)
    ensures IsCount(count) && s == count + SkipCount(s)
  {
    if s != [] && s[0] == ',' && DigitRun(s[1..]) > 0 {
      DigitRunDigits(s[1..]);
      count := s[..1 + DigitRun(s[1..])];
      assert count[1..] == s[1..][..DigitRun(s[1..])];
    } else {
      count := "";
    }
  }

  lemma NewRangeForm(s: string) returns (start: string, length: string, rest: string)
    requires MatchNewRange(s).Some?
    ensures AllDigits(start) && IsCount(length) && s == " +" + (start + (length + (" @@" + rest)))
    ensures MatchNewRange(s) == Some(ToNat(start))
  {
    hide ToNat, SkipCount;
    var newRange := s[2..];
    DigitRunDigits(newRange);
    start := newRange[..DigitRun(newRange)];
    length := SkipCountForm(newRange[DigitRun(newRange)..]);
    rest := SkipCount(newRange[DigitRun(newRange)..])[3..];
    assert newRange == start + newRange[DigitRun(newRange)..];
    assert s == " +" + newRange;
  }

  /** Only lines of this form are hunk headers: a length given has digits, and the start of the new range is read. */
  lemma HeaderForm(raw: string) returns (first: string, count: string, start: string, length: string, rest: string)
    requires MatchHunk(raw).Some?
    ensures AllDigits(first) && IsCount(count) && AllDigits(start) && IsCount(length)
    ensures raw == "@@ -" + (first + (count + (" +" + (start + (length + (" @@" + rest))))))
    ensures MatchHunk(raw) == Some(ToNat(start))
  {
    hide ToNat, SkipCount, MatchNewRange;
    var oldRange := raw[4..];
    DigitRunDigits(oldRange);
    first := oldRange[..DigitRun(oldRange)];
    count := SkipCountForm(oldRange[DigitRun(oldRange)..]);
    start, length, rest := NewRangeForm(SkipCount(oldRange[DigitRun(oldRange)..]));
    assert oldRange == first + oldRange[DigitRun(oldRange)..];
    assert raw == "@@ -" + oldRange;
  }

  // ---- The parser ---------------------------------------------------------

  datatype ParsedDiff = ParsedDiff(files: seq<string>, addedLines: seq<ChangedLine>)

  datatype ParserState = ParserState(
    files: seq<string>, added: seq<ChangedLine>, path: string, newLine: nat, inHunk: bool)

  const START := ParserState([], [], "", 0, false)

  const DEV_NULL := "/dev/null"

  /** The path named by the rest of a "+++ " line. */
  function HeaderPath(rest: string): string {
    var path := Strip(rest);
    if StartsWith(path, "b/") then path[2..] else path
  }

  /** What the parser sees in one line of the diff. */
  datatype Line =
    | FileLine(path: string)
    | HunkLine(start: nat)
    | AddedLine(text: string)
    | RemovedLine
    | MarkerLine
    | OtherLine

  function Classify(raw: string): Line {
    if StartsWith(raw, "+++ ") then FileLine(HeaderPath(raw[4..]))
    else if MatchHunk(raw).Some? then HunkLine(MatchHunk(raw).value)
    else if StartsWith(raw, "+") && !StartsWith(raw, "+++") then AddedLine(raw[1..])
    else if StartsWith(raw, "-") && !StartsWith(raw, "---") then RemovedLine
    else if StartsWith(raw, "\\ No newline") then MarkerLine
    else OtherLine
  }

  function MapLines(f: string -> Line, lines: seq<string>): seq<Line> {
    if lines == [] then [] else [f(lines[0])] + MapLines(f, lines[1..])
  }

  function ClassifyAll(lines: seq<string>): seq<Line> {
    MapLines(Classify, lines)
  }

  /**
   * A new-file line names its path whatever white space stands around it: behind the prefix b/ the
   * path itself, and without a prefix the path as it is, exactly unless the path itself starts with
   * b/, which is then lost.
   */
  lemma HeaderPathReads(pad: string, path: string, pad': string)
    requires Spaces(pad) && Spaces(pad') && Bare(path)
    ensures Classify("+++ " + pad + ("b/" + path) + pad') == FileLine(path)
    ensures Classify("+++ " + pad + path + pad') == FileLine(path) <==> !StartsWith(path, "b/")
    ensures StartsWith(path, "b/") ==> Classify("+++ " + pad + path + pad') == FileLine(path[2..])
  {
    hide Strip, MatchHunk;
    var prefixed := "b/" + path;
    assert Bare(prefixed) && prefixed[2..] == path;
    StripsPadding(pad, path, pad');
    StripsPadding(pad, prefixed, pad');
    assert ("+++ " + pad + prefixed + pad')[4..] == pad + prefixed + pad';
    assert ("+++ " + pad + path + pad')[4..] == pad + path + pad';
    assert StartsWith(path, "b/") ==> |path[2..]| < |path|;
  }

  /** Outside a hunk only file and hunk headers matter; inside, every line but a removal or a marker counts. */
  function Step(s: ParserState, line: Line): ParserState {
    match line
    case FileLine(path) =>
      s.(path := path, inHunk := false,
         files := if path != DEV_NULL && path !in s.files then s.files + [path] else s.files)
    case HunkLine(start) => s.(newLine := start, inHunk := true)
    case AddedLine(text) =>
      if s.inHunk then
        s.(added := s.added + [ChangedLine(if s.path == "" then "unknown" else s.path, s.newLine, text)],
          newLine := s.newLine + 1)
      else s
    case OtherLine => if s.inHunk then s.(newLine := s.newLine + 1) else s
    case _ => s
  }

  function Run(s: ParserState, lines: seq<Line>): ParserState
    decreases |lines|
  {
    if lines == [] then s else Run(Step(s, lines[0]), lines[1..])
  }

  /** One turn of the parsing loop. */
  method ReadLine(s: ParserState, raw: string) returns (next: ParserState)
    ensures next == Step(s, Classify(raw))
  {
    next := s;
    if StartsWith(raw, "+++ ") {
      var path := Strip(raw[4..]);
      if StartsWith(path, "b/") {
        path := path[2..];
      }
      if path != DEV_NULL && path !in s.files {
        next := next.(files := s.files + [path]);
      }
      return next.(path := path, inHunk := false);
    }
    var header := MatchHunk(raw);
    if header.Some? {
      return next.(newLine := header.value, inHunk := true);
    }
    if !s.inHunk {
      return;
    }
    if StartsWith(raw, "+") && !StartsWith(raw, "+++") {
      var line := ChangedLine(if s.path == "" then "unknown" else s.path, s.newLine, raw[1..]);
      next := next.(added := s.added + [line], newLine := s.newLine + 1);
    } else if StartsWith(raw, "-") && !StartsWith(raw, "---") {
      return;
    } else if StartsWith(raw, "\\ No newline") {
      return;
    } else {
      next := next.(newLine := s.newLine + 1);
    }
  }

  /** The parsing loop, over the lines of the diff. */
  method ParseUnifiedDiff(diff: string) returns (parsed: ParsedDiff)
    ensures parsed == Parsed(diff)
  {
    var s, lines := START, SplitLines(diff);
    for i := 0 to |lines|
      invariant Run(s, ClassifyAll(lines[i..])) == Run(START, ClassifyAll(lines))
    {
      NextLine(s, lines[i..]);
      assert lines[i..][1..] == lines[i + 1..];
      s := ReadLine(s, lines[i]);
    }
    return ParsedDiff(s.files, s.added);
  }

  /** What the parser makes of a text: its lines one after the other. */
  function Parsed(diff: string): ParsedDiff {
    var s := Run(START, ClassifyAll(SplitLines(diff)));
    ParsedDiff(s.files, s.added)
  }

  lemma NextLine(s: ParserState, lines: seq<string>)
    requires lines != []
    ensures Run(s, ClassifyAll(lines)) == Run(Step(s, Classify(lines[0])), ClassifyAll(lines[1..]))
  {
    assert ClassifyAll(lines)[1..] == ClassifyAll(lines[1..]);
  }

  lemma {:induction false} MapAppend(f: string -> Line, a: seq<string>, b: seq<string>)
    ensures MapLines(f, a + b) == MapLines(f, a) + MapLines(f, b)
    decreases |a|
  {
    if a == [] {
      assert a + b == b;
    } else {
      assert (a + b)[1..] == a[1..] + b;
      MapAppend(f, a[1..], b);
    }
  }

  lemma MapThree(f: string -> Line, first: string, body: seq<string>, rest: seq<string>)
    ensures MapLines(f, [first] + body + rest) == [f(first)] + MapLines(f, body) + MapLines(f, rest)
  {
    assert ([first] + body + rest)[1..] == body + rest;
    MapAppend(f, body, rest);
  }

  lemma {:induction false} RunAppend(s: ParserState, a: seq<Line>, b: seq<Line>)
    ensures Run(s, a + b) == Run(Run(s, a), b)
    decreases |a|
  {
    if a == [] {
      assert a + b == b;
    } else {
      assert (a + b)[1..] == a[1..] + b;
      RunAppend(Step(s, a[0]), a[1..], b);
    }
  }

  // ---- Edit scripts and their rendering -------------------------------------

  /**
   * One line of a hunk; NoNewline is the marker that follows a last line without a newline.  Stray is what splitting a
   * diff at other line boundaries leaves of a line: no line of either file.
   */
  datatype Op = Keep(text: string) | Add(text: string) | Remove(text: string) | NoNewline | Stray(text: string)

  /** Unchanged lines the diff does not show, or a hunk it does. */
  datatype Segment =
    | Gap(lines: seq<string>)
    | Hunk(ops: seq<Op>, heading: string, shortOld: bool, shortNew: bool)

  /** The changes to one file; `path` None means the file is deleted. */
  datatype FileEdit = FileEdit(oldHeader: string, path: Option<string>, segments: seq<Segment>)

  function OpNew(op: Op): seq<string> {
    match op
    case Keep(t) => [t]
    case Add(t) => [t]
    case _ => []
  }

  function OpOld(op: Op): seq<string> {
    match op
    case Keep(t) => [t]
    case Remove(t) => [t]
    case _ => []
  }

  function OpsNew(ops: seq<Op>): seq<string> {
    if ops == [] then [] else OpNew(ops[0]) + OpsNew(ops[1..])
  }

  function OpsOld(ops: seq<Op>): seq<string> {
    if ops == [] then [] else OpOld(ops[0]) + OpsOld(ops[1..])
  }

  /** The file an edit script produces. */
  function NewFile(segments: seq<Segment>): seq<string> {
    if segments == [] then []
    else
      var here := if segments[0].Gap? then segments[0].lines else OpsNew(segments[0].ops);
      here + NewFile(segments[1..])
  }

  function Digit(n: nat): char
    requires n < 10
  {
    (n + '0' as int) as char
  }

  function Decimal(n: nat): (s: string)
    ensures |s| > 0
    ensures forall c | c in s :: IsDigit(c)
    ensures ToNat(s) == n
  {
    if n < 10 then [Digit(n)]
    else
      var s := Decimal(n / 10) + [Digit(n % 10)];
      assert s[..|s| - 1] == Decimal(n / 10);
      s
  }

  /** An empty range is numbered by the line before it. */
  function RangeStart(before: nat, count: nat): nat {
    if count == 0 then before else before + 1
  }

  /** A one-line range may drop its count. */
  function CountText(count: nat, short: bool): string {
    if count == 1 && short then "" else "," + Decimal(count)
  }

  function RangeText(before: nat, count: nat, short: bool): string {
    Decimal(RangeStart(before, count)) + CountText(count, short)
  }

  function HunkHeader(oldBefore: nat, newBefore: nat, hunk: Segment): string {
    if hunk.Gap? then ""
    else
      "@@ -" + RangeText(oldBefore, |OpsOld(hunk.ops)|, hunk.shortOld)
      + " +" + RangeText(newBefore, |OpsNew(hunk.ops)|, hunk.shortNew) + " @@" + hunk.heading
  }

  function OpLine(op: Op): string {
    match op
    case Keep(t) => " " + t
    case Add(t) => "+" + t
    case Remove(t) => "-" + t
    case NoNewline => "\\ No newline at end of file"
    case Stray(t) => t
  }

  function OpLines(ops: seq<Op>): seq<string> {
    if ops == [] then [] else [OpLine(ops[0])] + OpLines(ops[1..])
  }

  /** How a hunk header is written, from the numbers of old and new lines before the hunk. */
  type HeaderText = (nat, nat, Segment) -> string

  /** The hunks of one file, given how many old and new lines come before them. */
  function SegmentLines(header: HeaderText, segments: seq<Segment>, oldBefore: nat, newBefore: nat): seq<string> {
    if segments == [] then []
    else match segments[0]
      case Gap(lines) => SegmentLines(header, segments[1..], oldBefore + |lines|, newBefore + |lines|)
      case Hunk(ops, _, _, _) =>
        [header(oldBefore, newBefore, segments[0])] + OpLines(ops)
        + SegmentLines(header, segments[1..], oldBefore + |OpsOld(ops)|, newBefore + |OpsNew(ops)|)
  }

  function FileLines(header: HeaderText, f: FileEdit): seq<string> {
    ["--- " + f.oldHeader, "+++ " + PathText(f)] + SegmentLines(header, f.segments, 0, 0)
  }

  function RenderWith(header: HeaderText, files: seq<FileEdit>): seq<string> {
    if files == [] then [] else FileLines(header, files[0]) + RenderWith(header, files[1..])
  }

  /** The unified diff of an edit script. */
  function Render(files: seq<FileEdit>): seq<string> {
    RenderWith(HunkHeader, files)
  }

  // ---- What the parser should report ----------------------------------------

  /** The added lines of a hunk, each numbered by its place in the new file. */
  function OpsAdded(path: string, ops: seq<Op>, newBefore: nat): seq<ChangedLine> {
    if ops == [] then []
    else
      var here := if ops[0].Add? then [ChangedLine(path, newBefore + 1, ops[0].text)] else [];
      here + OpsAdded(path, ops[1..], newBefore + |OpNew(ops[0])|)
  }

  function SegmentsAdded(path: string, segments: seq<Segment>, newBefore: nat): seq<ChangedLine> {
    if segments == [] then []
    else match segments[0]
      case Gap(lines) => SegmentsAdded(path, segments[1..], newBefore + |lines|)
      case Hunk(ops, _, _, _) =>
        OpsAdded(path, ops, newBefore) + SegmentsAdded(path, segments[1..], newBefore + |OpsNew(ops)|)
  }

  function PathOf(f: FileEdit): string {
    if f.path.Some? then f.path.value else DEV_NULL
  }

  function Added(files: seq<FileEdit>): seq<ChangedLine> {
    if files == [] then [] else SegmentsAdded(PathOf(files[0]), files[0].segments, 0) + Added(files[1..])
  }

  /** `a` names a line of `lines`, which follow `before` other lines. */
  predicate Indexes(a: ChangedLine, lines: seq<string>, before: nat) {
    before < a.line <= before + |lines| && lines[a.line - before - 1] == a.content
  }

  lemma IndexesLater(a: ChangedLine, front: seq<string>, lines: seq<string>, before: nat)
    requires Indexes(a, lines, before + |front|)
    ensures Indexes(a, front + lines, before)
  {
  }

  lemma IndexesEarlier(a: ChangedLine, lines: seq<string>, back: seq<string>, before: nat)
    requires Indexes(a, lines, before)
    ensures Indexes(a, lines + back, before)
  {
  }

  lemma {:induction false} OpsAddedIndex(path: string, ops: seq<Op>, newBefore: nat, a: ChangedLine)
    requires a in OpsAdded(path, ops, newBefore)
    ensures a.path == path && Indexes(a, OpsNew(ops), newBefore)
    decreases |ops|
  {
    if ops[0].Add? && a == ChangedLine(path, newBefore + 1, ops[0].text) {
      assert OpsNew(ops)[0] == ops[0].text;
    } else {
      OpsAddedIndex(path, ops[1..], newBefore + |OpNew(ops[0])|, a);
      IndexesLater(a, OpNew(ops[0]), OpsNew(ops[1..]), newBefore);
    }
  }

  /** Every expected number is the place of that content in the file the script produces. */
  lemma {:induction false} AddedLinesIndexTheNewFile(path: string, segments: seq<Segment>, newBefore: nat,
                                                     a: ChangedLine)
    requires a in SegmentsAdded(path, segments, newBefore)
    ensures a.path == path && Indexes(a, NewFile(segments), newBefore)
    decreases |segments|
  {
    match segments[0]
    case Gap(lines) =>
      AddedLinesIndexTheNewFile(path, segments[1..], newBefore + |lines|, a);
      IndexesLater(a, lines, NewFile(segments[1..]), newBefore);
    case Hunk(ops, _, _, _) =>
      if a in OpsAdded(path, ops, newBefore) {
        OpsAddedIndex(path, ops, newBefore, a);
        IndexesEarlier(a, OpsNew(ops), NewFile(segments[1..]), newBefore);
      } else {
        AddedLinesIndexTheNewFile(path, segments[1..], newBefore + |OpsNew(ops)|, a);
        IndexesLater(a, OpsNew(ops), NewFile(segments[1..]), newBefore);
      }
  }

  // ---- Hunk headers read back -------------------------------------------------

  lemma {:induction false} DigitRunOf(digits: string, rest: string)
    requires forall c | c in digits :: IsDigit(c)
    requires rest == [] || !IsDigit(rest[0])
    ensures DigitRun(digits + rest) == |digits|
  {
    if digits == [] {
      assert digits + rest == rest;
    } else {
      assert (digits + rest)[1..] == digits[1..] + rest;
      DigitRunOf(digits[1..], rest);
    }
  }

  lemma SkipCountText(count: nat, short: bool, rest: string)
    requires rest != [] && rest[0] == ' '
    ensures SkipCount(CountText(count, short) + rest) == rest
  {
    hide Decimal;

    var s := CountText(count, short) + rest;
    if count == 1 && short {
      assert s == rest;
    } else {
      assert s[1..] == Decimal(count) + rest;
      DigitRunOf(Decimal(count), rest);
    }
  }

  lemma RangeReads(before: nat, count: nat, short: bool, rest: string)
    requires rest != [] && rest[0] == ' '
    ensures var s := RangeText(before, count, short) + rest;
      && DigitRun(s) > 0
      && s[..DigitRun(s)] == Decimal(RangeStart(before, count))
      && SkipCount(s[DigitRun(s)..]) == rest
  {
    hide Decimal, RangeStart, SkipCount;

    var digits, tail := Decimal(RangeStart(before, count)), CountText(count, short) + rest;
    var s := RangeText(before, count, short) + rest;
    assert s == digits + tail;
    assert tail[0] == ',' || tail[0] == ' ';
    DigitRunOf(digits, tail);
    SkipCountText(count, short, rest);
    assert s[|digits|..] == tail;
  }

  lemma NewRangeReads(before: nat, count: nat, short: bool, heading: string)
    ensures MatchNewRange(" +" + (RangeText(before, count, short) + (" @@" + heading)))
      == Some(RangeStart(before, count))
  {
    var end := " @@" + heading;
    var text := RangeText(before, count, short) + end;
    var s := " +" + text;
    assert s[..2] == " +" && s[2..] == text;
    RangeReads(before, count, short, end);
    assert end[..3] == " @@";
  }

  lemma HeaderReads(oldBefore: nat, newBefore: nat, hunk: Segment)
    requires hunk.Hunk?
    ensures MatchHunk(HunkHeader(oldBefore, newBefore, hunk)) == Some(RangeStart(newBefore, |OpsNew(hunk.ops)|))
    ensures !StartsWith(HunkHeader(oldBefore, newBefore, hunk), "+++ ")
  {
    var oldText := RangeText(oldBefore, |OpsOld(hunk.ops)|, hunk.shortOld);
    var newText := RangeText(newBefore, |OpsNew(hunk.ops)|, hunk.shortNew);
    HeaderPieces(oldText, newText, hunk.heading);
    HeaderOf(oldBefore, |OpsOld(hunk.ops)|, hunk.shortOld, " +" + (newText + (" @@" + hunk.heading)));
    NewRangeReads(newBefore, |OpsNew(hunk.ops)|, hunk.shortNew, hunk.heading);
  }

  lemma HeaderPieces(a: string, b: string, c: string)
    ensures "@@ -" + a + " +" + b + " @@" + c == "@@ -" + (a + (" +" + (b + (" @@" + c))))
  {
  }

  lemma HeaderOf(before: nat, count: nat, short: bool, rest: string)
    requires rest != [] && rest[0] == ' '
    ensures MatchHunk("@@ -" + (RangeText(before, count, short) + rest)) == MatchNewRange(rest)
    ensures !StartsWith("@@ -" + (RangeText(before, count, short) + rest), "+++ ")
  {
    var text := RangeText(before, count, short) + rest;
    var raw := "@@ -" + text;
    assert raw[..4] == "@@ -" && raw[4..] == text && raw[0] == '@';
    RangeReads(before, count, short, rest);
  }

  // ---- Which scripts are read back correctly ----------------------------------

  predicate HasAdd(ops: seq<Op>) {
    ops != [] && (ops[0].Add? || HasAdd(ops[1..]))
  }

  /** An added text whose diff line starts with +++ is not seen as an addition. */
  predicate Unseen(op: Op) {
    op.Add? && StartsWith(op.text, "++")
  }

  /** A removed text whose diff line starts with ---, or a stray one, is counted as a line of the new file. */
  predicate Miscounted(op: Op) {
    (op.Remove? && StartsWith(op.text, "--")) || (op.Stray? && Classify(op.text).OtherLine?)
  }

  /** A stray line taken for an addition. */
  predicate Extra(op: Op) {
    op.Stray? && Classify(op.text).AddedLine?
  }

  /** A stray line taken for a file or hunk header. */
  predicate StrayHeader(op: Op) {
    op.Stray? && (Classify(op.text).FileLine? || Classify(op.text).HunkLine?)
  }

  /** Every addition is seen, there are no others, and none comes after a miscounted line. */
  predicate Readable(ops: seq<Op>) {
    ops == [] ||
    (!Unseen(ops[0]) && !Extra(ops[0]) && (Miscounted(ops[0]) ==> !HasAdd(ops[1..])) && Readable(ops[1..]))
  }

  predicate SegmentsReadable(segments: seq<Segment>) {
    segments == [] || ((segments[0].Hunk? ==> Readable(segments[0].ops)) && SegmentsReadable(segments[1..]))
  }

  predicate ScriptReadable(files: seq<FileEdit>) {
    files == [] || (SegmentsReadable(files[0].segments) && ScriptReadable(files[1..]))
  }

  predicate Seen(op: Op) {
    !Unseen(op)
  }

  predicate NotExtra(op: Op) {
    !Extra(op)
  }

  predicate NotHeader(op: Op) {
    !StrayHeader(op)
  }

  predicate Every(ops: seq<Op>, ok: Op -> bool) {
    forall op | op in ops :: ok(op)
  }

  predicate EveryHunk(segments: seq<Segment>, ok: Op -> bool) {
    forall segment | segment in segments && segment.Hunk? :: Every(segment.ops, ok)
  }

  predicate EveryFile(files: seq<FileEdit>, ok: Op -> bool) {
    forall f | f in files :: EveryHunk(f.segments, ok)
  }

  lemma EveryRest(ops: seq<Op>, ok: Op -> bool)
    requires ops != []
    ensures Every(ops, ok) <==> ok(ops[0]) && Every(ops[1..], ok)
  {
    assert forall op :: op in ops <==> op == ops[0] || op in ops[1..];
  }

  lemma EveryHunkRest(segments: seq<Segment>, ok: Op -> bool)
    requires segments != []
    ensures EveryHunk(segments, ok)
        <==> (segments[0].Hunk? ==> Every(segments[0].ops, ok)) && EveryHunk(segments[1..], ok)
  {
    hide Every;
    assert forall segment :: segment in segments <==> segment == segments[0] || segment in segments[1..];
  }

  lemma EveryFileRest(files: seq<FileEdit>, ok: Op -> bool)
    requires files != []
    ensures EveryFile(files, ok) <==> EveryHunk(files[0].segments, ok) && EveryFile(files[1..], ok)
  {
    hide EveryHunk;
    assert forall f :: f in files <==> f == files[0] || f in files[1..];
  }

  /** A path a "+++ b/..." line can carry: not empty, not blank at its end, not /dev/null. */
  predicate PlainPath(path: string) {
    path != "" && !IsSpace(path[|path| - 1]) && path != DEV_NULL
  }

  predicate PlainPaths(files: seq<FileEdit>) {
    forall f | f in files :: f.path.Some? ==> PlainPath(f.path.value)
  }

  // ---- How rendered lines are classified --------------------------------------

  function OpKind(op: Op): Line {
    match op
    case Keep(_) => OtherLine
    case Add(t) =>
      if !Unseen(op) then AddedLine(t)
      else if StartsWith(t, "++ ") then FileLine(HeaderPath(t[3..]))
      else OtherLine
    case Remove(_) => if Miscounted(op) then OtherLine else RemovedLine
    case NoNewline => MarkerLine
    case Stray(t) => Classify(t)
  }

  function OpKinds(ops: seq<Op>): seq<Line> {
    if ops == [] then [] else [OpKind(ops[0])] + OpKinds(ops[1..])
  }

  function SegmentKinds(segments: seq<Segment>, newBefore: nat): seq<Line>
    decreases |segments|
  {
    if segments == [] then []
    else match segments[0]
      case Gap(lines) => SegmentKinds(segments[1..], newBefore + |lines|)
      case Hunk(ops, _, _, _) =>
        [HunkLine(RangeStart(newBefore, |OpsNew(ops)|))] + OpKinds(ops)
        + SegmentKinds(segments[1..], newBefore + |OpsNew(ops)|)
  }

  function FileKinds(f: FileEdit): seq<Line> {
    [OtherLine, FileLine(PathOf(f))] + SegmentKinds(f.segments, 0)
  }

  function RenderKinds(files: seq<FileEdit>): seq<Line> {
    if files == [] then [] else FileKinds(files[0]) + RenderKinds(files[1..])
  }

  lemma StartsWithAfter(first: char, t: string, prefix: string)
    ensures StartsWith([first] + t, [first] + prefix) <==> StartsWith(t, prefix)
  {
    var raw := [first] + t;
    if |prefix| <= |t| {
      assert raw[..1 + |prefix|] == [first] + t[..|prefix|];
      assert raw[..1 + |prefix|][1..] == t[..|prefix|];
      assert ([first] + prefix)[1..] == prefix;
    }
  }

  lemma AddClassified(t: string)
    ensures Classify("+" + t) == OpKind(Add(t))
  {
    var raw := "+" + t;
    assert raw[0] == '+' && raw[1..] == t && raw[..1] == "+";
    StartsWithAfter('+', t, "++ ");
    StartsWithAfter('+', t, "++");
    assert ['+'] + "++ " == "+++ " && ['+'] + "++" == "+++";
    if StartsWith(t, "++ ") {
      assert t[..2] == "++ "[..2] == "++";
      assert raw[4..] == t[3..];
    }
  }

  lemma RemoveClassified(t: string)
    ensures Classify("-" + t) == OpKind(Remove(t))
  {
    var raw := "-" + t;
    assert raw[0] == '-' && raw[..1] == "-";
    StartsWithAfter('-', t, "--");
    assert ['-'] + "--" == "---";
  }

  lemma KeepClassified(t: string)
    ensures Classify(" " + t) == OtherLine
  {
    var raw := " " + t;
    assert raw[0] == ' ' && raw != "";
  }

  lemma MarkerClassified()
    ensures Classify(OpLine(NoNewline)) == MarkerLine
  {
    var raw := OpLine(NoNewline);
    assert raw[0] == '\\' && raw[..12] == "\\ No newline";
  }

  lemma OpClassified(op: Op)
    ensures Classify(OpLine(op)) == OpKind(op)
  {
    hide Classify;
    match op
    case Keep(t) => KeepClassified(t);
    case Add(t) => AddClassified(t);
    case Remove(t) => RemoveClassified(t);
    case NoNewline => MarkerClassified();
    case Stray(_) =>
  }

  /** `f` recognises the lines of every hunk, and `header` is how hunk headers are written. */
  ghost predicate Recognises(f: string -> Line, header: HeaderText) {
    && (forall op :: f(OpLine(op)) == OpKind(op))
    && (forall a: nat, b: nat, hunk: Segment | hunk.Hunk? ::
          f(header(a, b, hunk)) == HunkLine(RangeStart(b, |OpsNew(hunk.ops)|)))
  }

  lemma HunksRecognised()
    ensures Recognises(Classify, HunkHeader)
  {
    forall op
      ensures Classify(OpLine(op)) == OpKind(op)
    {
      OpClassified(op);
    }
    forall a: nat, b: nat, hunk: Segment | hunk.Hunk?
      ensures Classify(HunkHeader(a, b, hunk)) == HunkLine(RangeStart(b, |OpsNew(hunk.ops)|))
    {
      HeaderReads(a, b, hunk);
    }
  }

  lemma {:induction false} OpsRecognised(f: string -> Line, header: HeaderText, ops: seq<Op>)
    requires Recognises(f, header)
    ensures MapLines(f, OpLines(ops)) == OpKinds(ops)
    decreases |ops|
  {
    if ops != [] {
      OpsRecognised(f, header, ops[1..]);
      assert OpLines(ops)[1..] == OpLines(ops[1..]);
    }
  }

  lemma HeaderRecognised(f: string -> Line, header: HeaderText, oldBefore: nat, newBefore: nat, hunk: Segment)
    requires Recognises(f, header) && hunk.Hunk?
    ensures f(header(oldBefore, newBefore, hunk)) == HunkLine(RangeStart(newBefore, |OpsNew(hunk.ops)|))
  {
  }

  lemma {:induction false} SegmentsRecognised(f: string -> Line, header: HeaderText, segments: seq<Segment>,
                                              oldBefore: nat, newBefore: nat)
    requires Recognises(f, header)
    ensures MapLines(f, SegmentLines(header, segments, oldBefore, newBefore)) == SegmentKinds(segments, newBefore)
    decreases |segments|
  {
    hide OpsNew, OpsOld, OpLines, OpKinds, OpLine, OpKind, Recognises;
    if segments != [] {
      match segments[0]
      case Gap(lines) =>
        SegmentsRecognised(f, header, segments[1..], oldBefore + |lines|, newBefore + |lines|);
      case Hunk(ops, _, _, _) =>
        SegmentsRecognised(f, header, segments[1..], oldBefore + |OpsOld(ops)|, newBefore + |OpsNew(ops)|);
        OpsRecognised(f, header, ops);
        HeaderRecognised(f, header, oldBefore, newBefore, segments[0]);
        MapThree(f, header(oldBefore, newBefore, segments[0]), OpLines(ops),
          SegmentLines(header, segments[1..], oldBefore + |OpsOld(ops)|, newBefore + |OpsNew(ops)|));
    }
  }

  lemma StripPlain(s: string)
    requires s != [] && !IsSpace(s[0]) && !IsSpace(s[|s| - 1])
    ensures Strip(s) == s
  {
  }

  function PathText(f: FileEdit): string {
    if f.path.Some? then "b/" + f.path.value else DEV_NULL
  }

  lemma FileLineClassified(f: FileEdit)
    requires f.path.Some? ==> PlainPath(f.path.value)
    ensures Classify("+++ " + PathText(f)) == FileLine(PathOf(f))
  {
    var text := PathText(f);
    StripPlain(text);
    if f.path.Some? {
      assert text[..2] == "b/" && text[2..] == f.path.value;
    } else {
      assert text[0] == '/';
    }
    var raw := "+++ " + text;
    assert raw[..4] == "+++ " && raw[4..] == text;
  }

  /** A timestamp behind a tab, as the diff utility writes it, is taken for part of the path. */
  lemma StampJoinsPath(path: string, stamp: string)
    requires PlainPath(path) && stamp != "" && !IsSpace(stamp[|stamp| - 1])
    ensures Classify("+++ " + ("b/" + (path + "\t" + stamp))) == FileLine(path + "\t" + stamp)
  {
    var name := path + "\t" + stamp;
    assert name[|path|] == '\t' && name != DEV_NULL;
    FileLineClassified(FileEdit("", Some(name), []));
  }

  lemma OldLineClassified(header: string)
    ensures Classify("--- " + header) == OtherLine
  {
    var raw := "--- " + header;
    assert raw[0] == '-' && raw[..3] == "---";
  }

  lemma FileRecognised(f: string -> Line, header: HeaderText, file: FileEdit)
    requires Recognises(f, header)
    requires f("--- " + file.oldHeader) == OtherLine && f("+++ " + PathText(file)) == FileLine(PathOf(file))
    ensures MapLines(f, FileLines(header, file)) == FileKinds(file)
  {
    var first, second, rest :=
      "--- " + file.oldHeader, "+++ " + PathText(file), SegmentLines(header, file.segments, 0, 0);
    SegmentsRecognised(f, header, file.segments, 0, 0);
    assert FileLines(header, file) == [first] + [second] + rest;
    MapThree(f, first, [second], rest);
  }

  lemma {:induction false} RenderClassified(files: seq<FileEdit>)
    requires PlainPaths(files)
    ensures ClassifyAll(Render(files)) == RenderKinds(files)
    decreases |files|
  {
    if files != [] {
      assert files[0] in files && forall g | g in files[1..] :: g in files;
      HunksRecognised();
      OldLineClassified(files[0].oldHeader);
      FileLineClassified(files[0]);
      FileRecognised(Classify, HunkHeader, files[0]);
      RenderClassified(files[1..]);
      MapAppend(Classify, FileLines(HunkHeader, files[0]), Render(files[1..]));
    }
  }

  // ---- Readable scripts are read back exactly ---------------------------------

  /** How the parser treats one rendered line of a hunk whose additions are all seen. */
  function After(s: ParserState, op: Op): ParserState {
    if op.Add? || Extra(op) then
      var text := if op.Add? then op.text else Classify(op.text).text;
      s.(added := s.added + [ChangedLine(s.path, s.newLine, text)], newLine := s.newLine + 1)
    else if op.Keep? || Miscounted(op) then s.(newLine := s.newLine + 1)
    else s
  }

  function AfterOps(s: ParserState, ops: seq<Op>): ParserState
    decreases |ops|
  {
    if ops == [] then s else AfterOps(After(s, ops[0]), ops[1..])
  }

  lemma StepOp(s: ParserState, op: Op)
    requires s.inHunk && s.path != "" && Seen(op) && NotHeader(op)
    ensures Step(s, OpKind(op)) == After(s, op)
  {
  }

  lemma {:induction false} RunOps(s: ParserState, ops: seq<Op>)
    requires s.inHunk && s.path != "" && Every(ops, Seen) && Every(ops, NotHeader)
    ensures Run(s, OpKinds(ops)) == AfterOps(s, ops)
    decreases |ops|
  {
    if ops != [] {
      EveryRest(ops, Seen);
      EveryRest(ops, NotHeader);
      StepOp(s, ops[0]);
      assert OpKinds(ops)[1..] == OpKinds(ops[1..]);
      RunOps(After(s, ops[0]), ops[1..]);
    }
  }

  /** The same report so far. */
  predicate SameReport(s: ParserState, t: ParserState) {
    s.files == t.files && s.added == t.added && s.path == t.path
  }

  lemma {:induction false} AfterReadable(s: ParserState, ops: seq<Op>, newBefore: nat)
    requires Readable(ops) && (HasAdd(ops) ==> s.newLine == newBefore + 1)
    ensures SameReport(AfterOps(s, ops), s.(added := s.added + OpsAdded(s.path, ops, newBefore)))
    decreases |ops|
  {
    if ops == [] {
      assert s.added + [] == s.added;
    } else {
      var before := newBefore + |OpNew(ops[0])|;
      var here := if ops[0].Add? then [ChangedLine(s.path, newBefore + 1, ops[0].text)] else [];
      AfterReadable(After(s, ops[0]), ops[1..], before);
      AppendMiddle(s.added, here, OpsAdded(s.path, ops[1..], before));
    }
  }

  lemma AppendMiddle<T>(a: seq<T>, b: seq<T>, c: seq<T>)
    ensures a + b + c == a + (b + c)
  {
  }

  function EnterHunk(s: ParserState, ops: seq<Op>, newBefore: nat): ParserState {
    s.(newLine := RangeStart(newBefore, |OpsNew(ops)|), inHunk := true)
  }

  function AfterSegments(s: ParserState, segments: seq<Segment>, newBefore: nat): ParserState
    decreases |segments|
  {
    if segments == [] then s
    else match segments[0]
      case Gap(lines) => AfterSegments(s, segments[1..], newBefore + |lines|)
      case Hunk(ops, _, _, _) =>
        AfterSegments(AfterOps(EnterHunk(s, ops, newBefore), ops), segments[1..], newBefore + |OpsNew(ops)|)
  }

  lemma {:induction false} AfterOpsPath(s: ParserState, ops: seq<Op>)
    ensures AfterOps(s, ops).path == s.path && AfterOps(s, ops).inHunk == s.inHunk && AfterOps(s, ops).files == s.files
    decreases |ops|
  {
    if ops != [] {
      AfterOpsPath(After(s, ops[0]), ops[1..]);
    }
  }

  lemma RunPieces(s: ParserState, first: Line, body: seq<Line>, rest: seq<Line>)
    ensures Run(s, [first] + body + rest) == Run(Run(Step(s, first), body), rest)
  {
    assert ([first] + body + rest)[1..] == body + rest;
    RunAppend(Step(s, first), body, rest);
  }

  lemma AfterSegmentsStep(s: ParserState, segments: seq<Segment>, newBefore: nat)
    requires segments != []
    ensures segments[0].Gap?
        ==> AfterSegments(s, segments, newBefore) == AfterSegments(s, segments[1..], newBefore + |segments[0].lines|)
    ensures segments[0].Hunk? ==> var ops := segments[0].ops;
      AfterSegments(s, segments, newBefore)
      == AfterSegments(AfterOps(EnterHunk(s, ops, newBefore), ops), segments[1..], newBefore + |OpsNew(ops)|)
    ensures segments[0].Hunk? ==> var inside := EnterHunk(s, segments[0].ops, newBefore);
      inside.added == s.added && inside.path == s.path && inside.files == s.files
  {
    hide AfterOps, OpsNew;
  }

  lemma SegmentKindsStep(segments: seq<Segment>, newBefore: nat)
    requires segments != []
    ensures segments[0].Gap?
        ==> SegmentKinds(segments, newBefore) == SegmentKinds(segments[1..], newBefore + |segments[0].lines|)
    ensures segments[0].Hunk? ==> var ops := segments[0].ops;
      SegmentKinds(segments, newBefore)
      == [HunkLine(RangeStart(newBefore, |OpsNew(ops)|))] + OpKinds(ops)
         + SegmentKinds(segments[1..], newBefore + |OpsNew(ops)|)
  {
    hide OpKinds, OpsNew;
  }

  lemma NothingRuns(s: ParserState, newBefore: nat)
    ensures Run(s, SegmentKinds([], newBefore)) == AfterSegments(s, [], newBefore)
  {
  }

  lemma EntersAt(s: ParserState, ops: seq<Op>, newBefore: nat)
    ensures var inside := EnterHunk(s, ops, newBefore);
      && inside == Step(s, HunkLine(RangeStart(newBefore, |OpsNew(ops)|)))
      && inside.newLine == RangeStart(newBefore, |OpsNew(ops)|) && inside.inHunk && inside.path == s.path
  {
    hide OpsNew;
  }

  lemma {:induction false} RunSegments(s: ParserState, segments: seq<Segment>, newBefore: nat)
    requires s.path != "" && EveryHunk(segments, Seen) && EveryHunk(segments, NotHeader)
    ensures Run(s, SegmentKinds(segments, newBefore)) == AfterSegments(s, segments, newBefore)
    decreases |segments|
  {
    hide *;
    if segments == [] {
      NothingRuns(s, newBefore);
    } else {
      EveryHunkRest(segments, Seen);
      EveryHunkRest(segments, NotHeader);
      SegmentKindsStep(segments, newBefore);
      AfterSegmentsStep(s, segments, newBefore);
      if segments[0].Gap? {
        RunSegments(s, segments[1..], newBefore + |segments[0].lines|);
      } else {
        var ops := segments[0].ops;
        var after := newBefore + |OpsNew(ops)|;
        var inside := EnterHunk(s, ops, newBefore);
        EntersAt(s, ops, newBefore);
        RunPieces(s, HunkLine(RangeStart(newBefore, |OpsNew(ops)|)), OpKinds(ops), SegmentKinds(segments[1..], after));
        RunOps(inside, ops);
        AfterOpsPath(inside, ops);
        RunSegments(AfterOps(inside, ops), segments[1..], after);
      }
    }
  }

  lemma {:induction false} AfterSegmentsReadable(s: ParserState, segments: seq<Segment>, newBefore: nat)
    requires SegmentsReadable(segments)
    ensures SameReport(AfterSegments(s, segments, newBefore),
      s.(added := s.added + SegmentsAdded(s.path, segments, newBefore)))
    decreases |segments|
  {
    if segments == [] {
      assert s.added + [] == s.added;
    } else {
      match segments[0]
      case Gap(lines) =>
        AfterSegmentsReadable(s, segments[1..], newBefore + |lines|);
      case Hunk(ops, _, _, _) =>
        var inside := EnterHunk(s, ops, newBefore);
        AddMakesLines(ops);
        AfterReadable(inside, ops, newBefore);
        AfterSegmentsReadable(AfterOps(inside, ops), segments[1..], newBefore + |OpsNew(ops)|);
        AppendMiddle(s.added, OpsAdded(s.path, ops, newBefore),
          SegmentsAdded(s.path, segments[1..], newBefore + |OpsNew(ops)|));
    }
  }

  lemma {:induction false} AddMakesLines(ops: seq<Op>)
    ensures HasAdd(ops) ==> |OpsNew(ops)| > 0
    decreases |ops|
  {
    if ops != [] {
      AddMakesLines(ops[1..]);
    }
  }

  // ---- Whole files --------------------------------------------------------------

  function EnterFile(s: ParserState, path: string): ParserState {
    s.(path := path, inHunk := false, newLine := s.newLine + if s.inHunk then 1 else 0,
       files := if path != DEV_NULL && path !in s.files then s.files + [path] else s.files)
  }

  function AfterFiles(s: ParserState, files: seq<FileEdit>): ParserState
    decreases |files|
  {
    if files == [] then s
    else AfterFiles(AfterSegments(EnterFile(s, PathOf(files[0])), files[0].segments, 0), files[1..])
  }

  /** The paths of the files that still exist, each once, in order of first appearance. */
  function FileList(seen: seq<string>, files: seq<FileEdit>): seq<string>
    decreases |files|
  {
    if files == [] then seen
    else
      var path := PathOf(files[0]);
      FileList(if path != DEV_NULL && path !in seen then seen + [path] else seen, files[1..])
  }

  lemma RunFile(s: ParserState, f: FileEdit)
    ensures Run(s, FileKinds(f)) == Run(EnterFile(s, PathOf(f)), SegmentKinds(f.segments, 0))
  {
    var rest := SegmentKinds(f.segments, 0);
    assert FileKinds(f) == [OtherLine] + [FileLine(PathOf(f))] + rest;
    RunPieces(s, OtherLine, [FileLine(PathOf(f))], rest);
  }

  lemma {:induction false} RunFiles(s: ParserState, files: seq<FileEdit>)
    requires PlainPaths(files) && EveryFile(files, Seen) && EveryFile(files, NotHeader)
    ensures Run(s, RenderKinds(files)) == AfterFiles(s, files)
    decreases |files|
  {
    if files != [] {
      EveryFileRest(files, Seen);
      EveryFileRest(files, NotHeader);
      var f := files[0];
      assert f in files && forall g | g in files[1..] :: g in files;
      var inside := EnterFile(s, PathOf(f));
      RunFile(s, f);
      RunSegments(inside, f.segments, 0);
      RunAppend(s, FileKinds(f), RenderKinds(files[1..]));
      RunFiles(AfterSegments(inside, f.segments, 0), files[1..]);
    }
  }

  lemma {:induction false} AfterFilesReadable(s: ParserState, files: seq<FileEdit>)
    requires ScriptReadable(files)
    ensures AfterFiles(s, files).added == s.added + Added(files)
    decreases |files|
  {
    if files != [] {
      var f := files[0];
      var inside := EnterFile(s, PathOf(f));
      AfterSegmentsReadable(inside, f.segments, 0);
      AfterFilesReadable(AfterSegments(inside, f.segments, 0), files[1..]);
      AppendMiddle(s.added, SegmentsAdded(PathOf(f), f.segments, 0), Added(files[1..]));
    }
  }

  // ---- Unreadable scripts are not -----------------------------------------------

  function LineSum(added: seq<ChangedLine>): int {
    if added == [] then 0 else LineSum(added[..|added| - 1]) + added[|added| - 1].line
  }

  lemma {:induction false} LineSumAppend(a: seq<ChangedLine>, b: seq<ChangedLine>)
    ensures LineSum(a + b) == LineSum(a) + LineSum(b)
    decreases |b|
  {
    if b == [] {
      assert a + b == a;
    } else {
      var n := |b| - 1;
      assert (a + b)[..|a + b| - 1] == a + b[..n];
      LineSumAppend(a, b[..n]);
    }
  }

  /** The sum of the numbers reported for one more line of a hunk. */
  lemma AfterSum(s: ParserState, op: Op)
    requires NotExtra(op)
    ensures LineSum(After(s, op).added) == LineSum(s.added) + if op.Add? then s.newLine else 0
  {
    if op.Add? {
      assert After(s, op).added[..|s.added|] == s.added;
    }
  }

  lemma OpsAddedSum(path: string, ops: seq<Op>, newBefore: nat)
    requires ops != []
    ensures LineSum(OpsAdded(path, ops, newBefore)) ==
      LineSum(OpsAdded(path, ops[1..], newBefore + |OpNew(ops[0])|)) + if ops[0].Add? then newBefore + 1 else 0
  {
    var here := if ops[0].Add? then [ChangedLine(path, newBefore + 1, ops[0].text)] else [];
    if ops[0].Add? {
      assert here[..0] == [] && LineSum(here) == newBefore + 1;
    }
    LineSumAppend(here, OpsAdded(path, ops[1..], newBefore + |OpNew(ops[0])|));
  }

  /** Miscounted removals only push numbers up, and push up the number of every later addition. */
  lemma {:induction false} AfterOpsSum(s: ParserState, ops: seq<Op>, newBefore: nat)
    requires s.newLine >= newBefore + 1 && Every(ops, Seen) && Every(ops, NotExtra)
    ensures LineSum(AfterOps(s, ops).added) >= LineSum(s.added) + LineSum(OpsAdded(s.path, ops, newBefore))
    ensures (s.newLine > newBefore + 1 && HasAdd(ops)) || !Readable(ops) ==>
              LineSum(AfterOps(s, ops).added) > LineSum(s.added) + LineSum(OpsAdded(s.path, ops, newBefore))
    decreases |ops|
  {
    hide LineSum;
    if ops == [] {
      LineSumAppend(s.added, []);
      assert s.added + [] == s.added;
    } else {
      EveryRest(ops, Seen);
      EveryRest(ops, NotExtra);
      hide OpsAdded, After, Every;
      AfterSum(s, ops[0]);
      OpsAddedSum(s.path, ops, newBefore);
      AfterOpsSum(After(s, ops[0]), ops[1..], newBefore + |OpNew(ops[0])|);
    }
  }

  lemma NoSegmentsSum(s: ParserState, newBefore: nat)
    ensures LineSum(AfterSegments(s, [], newBefore).added)
      == LineSum(s.added) + LineSum(SegmentsAdded(s.path, [], newBefore))
    ensures SegmentsReadable([])
  {
  }

  lemma SegmentsReadableStep(segments: seq<Segment>)
    requires segments != []
    ensures SegmentsReadable(segments)
        <==> (segments[0].Hunk? ==> Readable(segments[0].ops)) && SegmentsReadable(segments[1..])
  {
    hide Readable;
  }

  lemma {:induction false} AfterSegmentsSum(s: ParserState, segments: seq<Segment>, newBefore: nat)
    requires EveryHunk(segments, Seen) && EveryHunk(segments, NotExtra)
    ensures LineSum(AfterSegments(s, segments, newBefore).added)
         >= LineSum(s.added) + LineSum(SegmentsAdded(s.path, segments, newBefore))
    ensures !SegmentsReadable(segments) ==>
              LineSum(AfterSegments(s, segments, newBefore).added)
              > LineSum(s.added) + LineSum(SegmentsAdded(s.path, segments, newBefore))
    decreases |segments|
  {
    hide *;
    if segments == [] {
      NoSegmentsSum(s, newBefore);
    } else {
      EveryHunkRest(segments, Seen);
      EveryHunkRest(segments, NotExtra);
      SegmentsReadableStep(segments);
      AfterSegmentsStep(s, segments, newBefore);
      SegmentsAddedStep(s.path, segments, newBefore);
      if segments[0].Gap? {
        AfterSegmentsSum(s, segments[1..], newBefore + |segments[0].lines|);
      } else {
        var ops := segments[0].ops;
        var inside, after := EnterHunk(s, ops, newBefore), newBefore + |OpsNew(ops)|;
        EntersAt(s, ops, newBefore);
        HunkSum(inside, ops, newBefore);
        AfterOpsPath(inside, ops);
        AfterSegmentsSum(AfterOps(inside, ops), segments[1..], after);
        LineSumAppend(OpsAdded(s.path, ops, newBefore), SegmentsAdded(s.path, segments[1..], after));
      }
    }
  }

  lemma HunkSum(s: ParserState, ops: seq<Op>, newBefore: nat)
    requires Every(ops, Seen) && Every(ops, NotExtra) && s.newLine == RangeStart(newBefore, |OpsNew(ops)|)
    ensures LineSum(AfterOps(s, ops).added) >= LineSum(s.added) + LineSum(OpsAdded(s.path, ops, newBefore))
    ensures !Readable(ops)
        ==> LineSum(AfterOps(s, ops).added) > LineSum(s.added) + LineSum(OpsAdded(s.path, ops, newBefore))
  {
    AddMakesLines(ops);
    if HasAdd(ops) {
      AfterOpsSum(s, ops, newBefore);
    } else {
      WithoutAdds(ops);
      AfterReadable(s, ops, newBefore);
      LineSumAppend(s.added, OpsAdded(s.path, ops, newBefore));
    }
  }

  lemma {:induction false} WithoutAdds(ops: seq<Op>)
    requires !HasAdd(ops) && Every(ops, NotExtra)
    ensures Readable(ops)
    decreases |ops|
  {
    if ops != [] {
      EveryRest(ops, NotExtra);
      WithoutAdds(ops[1..]);
    }
  }

  lemma {:induction false} AfterFilesSum(s: ParserState, files: seq<FileEdit>)
    requires EveryFile(files, Seen) && EveryFile(files, NotExtra)
    ensures LineSum(AfterFiles(s, files).added) >= LineSum(s.added) + LineSum(Added(files))
    ensures !ScriptReadable(files) ==> LineSum(AfterFiles(s, files).added) > LineSum(s.added) + LineSum(Added(files))
    decreases |files|
  {
    if files != [] {
      EveryFileRest(files, Seen);
      EveryFileRest(files, NotExtra);
      var inside := EnterFile(s, PathOf(files[0]));
      AfterSegmentsSum(inside, files[0].segments, 0);
      AfterFilesSum(AfterSegments(inside, files[0].segments, 0), files[1..]);
      LineSumAppend(SegmentsAdded(PathOf(files[0]), files[0].segments, 0), Added(files[1..]));
    }
  }

  lemma AfterCount(s: ParserState, op: Op)
    ensures |After(s, op).added|
         == |s.added| + (if op.Add? then 1 else 0) + if Extra(op) then 1 else 0
  {
    hide Classify;
  }

  lemma OpsAddedCount(path: string, ops: seq<Op>, newBefore: nat)
    requires ops != []
    ensures |OpsAdded(path, ops, newBefore)|
         == (if ops[0].Add? then 1 else 0) + |OpsAdded(path, ops[1..], newBefore + |OpNew(ops[0])|)|
  {
  }

  /** Stray additions only add to the report. */
  lemma {:induction false} OpsCount(s: ParserState, ops: seq<Op>, path: string, newBefore: nat)
    ensures |AfterOps(s, ops).added| >= |s.added| + |OpsAdded(path, ops, newBefore)|
    ensures !Every(ops, NotExtra) ==> |AfterOps(s, ops).added| > |s.added| + |OpsAdded(path, ops, newBefore)|
    decreases |ops|
  {
    if ops != [] {
      EveryRest(ops, NotExtra);
      OpsAddedCount(path, ops, newBefore);
      AfterCount(s, ops[0]);
      hide Every, Extra, After, OpsAdded, OpNew;
      OpsCount(After(s, ops[0]), ops[1..], path, newBefore + |OpNew(ops[0])|);
    }
  }

  lemma {:induction false} SegmentsCount(s: ParserState, segments: seq<Segment>, path: string, newBefore: nat)
    ensures |AfterSegments(s, segments, newBefore).added| >= |s.added| + |SegmentsAdded(path, segments, newBefore)|
    ensures !EveryHunk(segments, NotExtra) ==>
              |AfterSegments(s, segments, newBefore).added| > |s.added| + |SegmentsAdded(path, segments, newBefore)|
    decreases |segments|
  {
    if segments != [] {
      EveryHunkRest(segments, NotExtra);
      match segments[0]
      case Gap(lines) =>
        SegmentsCount(s, segments[1..], path, newBefore + |lines|);
      case Hunk(ops, _, _, _) =>
        var inside := EnterHunk(s, ops, newBefore);
        OpsCount(inside, ops, path, newBefore);
        SegmentsCount(AfterOps(inside, ops), segments[1..], path, newBefore + |OpsNew(ops)|);
    }
  }

  lemma {:induction false} FilesCount(s: ParserState, files: seq<FileEdit>)
    ensures |AfterFiles(s, files).added| >= |s.added| + |Added(files)|
    ensures !EveryFile(files, NotExtra) ==> |AfterFiles(s, files).added| > |s.added| + |Added(files)|
    decreases |files|
  {
    if files != [] {
      EveryFileRest(files, NotExtra);
      var inside := EnterFile(s, PathOf(files[0]));
      SegmentsCount(inside, files[0].segments, PathOf(files[0]), 0);
      FilesCount(AfterSegments(inside, files[0].segments, 0), files[1..]);
    }
  }

  // ---- What is never reported -------------------------------------------------------

  /** Every reported text is that of a line seen as an addition. */
  lemma {:induction false} ReportedTexts(s: ParserState, lines: seq<Line>, ok: string -> bool)
    requires TextsAre(s.added, ok)
    requires forall line | line in lines && line.AddedLine? :: ok(line.text)
    ensures TextsAre(Run(s, lines).added, ok)
    decreases |lines|
  {
    if lines != [] {
      assert lines[0] in lines && forall line | line in lines[1..] :: line in lines;
      ReportedTexts(Step(s, lines[0]), lines[1..], ok);
    }
  }

  lemma {:induction false} ClassifiedFrom(lines: seq<string>, line: Line)
    requires line in ClassifyAll(lines)
    ensures exists raw :: raw in lines && line == Classify(raw)
  {
    if line == Classify(lines[0]) {
      assert lines[0] in lines;
    } else {
      ClassifiedFrom(lines[1..], line);
      var raw :| raw in lines[1..] && line == Classify(raw);
      assert raw in lines;
    }
  }

  predicate NotPlusPlus(text: string) {
    !StartsWith(text, "++")
  }

  lemma AddedTexts(raw: string)
    requires Classify(raw).AddedLine?
    ensures NotPlusPlus(Classify(raw).text)
  {
    assert raw == ['+'] + raw[1..] && ['+'] + "++" == "+++";
    StartsWithAfter('+', raw[1..], "++");
  }

  /** Whatever the lines, no reported text starts with ++. */
  lemma PlusPlusUnreported(lines: seq<string>)
    ensures TextsAre(Run(START, ClassifyAll(lines)).added, NotPlusPlus)
  {
    hide NotPlusPlus, Classify;
    forall line | line in ClassifyAll(lines) && line.AddedLine?
      ensures NotPlusPlus(line.text)
    {
      ClassifiedFrom(lines, line);
      var raw :| raw in lines && line == Classify(raw);
      AddedTexts(raw);
    }
    ReportedTexts(START, ClassifyAll(lines), NotPlusPlus);
  }

  predicate TextsAre(added: seq<ChangedLine>, ok: string -> bool) {
    forall a | a in added :: ok(a.content)
  }

  lemma TextsConcat(a: seq<ChangedLine>, b: seq<ChangedLine>, ok: string -> bool)
    ensures TextsAre(a + b, ok) <==> TextsAre(a, ok) && TextsAre(b, ok)
  {
    assert forall x :: x in a + b <==> x in a || x in b;
  }

  lemma OpsAddedStep(path: string, ops: seq<Op>, newBefore: nat)
    requires ops != []
    ensures OpsAdded(path, ops, newBefore)
         == (if ops[0].Add? then [ChangedLine(path, newBefore + 1, ops[0].text)] else [])
            + OpsAdded(path, ops[1..], newBefore + |OpNew(ops[0])|)
  {
  }

  lemma OneSeen(path: string, op: Op, newBefore: nat)
    ensures TextsAre(if op.Add? then [ChangedLine(path, newBefore + 1, op.text)] else [], NotPlusPlus) <==> Seen(op)
  {
    assert op.Add? ==> ChangedLine(path, newBefore + 1, op.text) in [ChangedLine(path, newBefore + 1, op.text)];
  }

  lemma {:induction false} OpsAddedTexts(path: string, ops: seq<Op>, newBefore: nat)
    ensures TextsAre(OpsAdded(path, ops, newBefore), NotPlusPlus) <==> Every(ops, Seen)
    decreases |ops|
  {
    if ops != [] {
      hide *;
      var here := if ops[0].Add? then [ChangedLine(path, newBefore + 1, ops[0].text)] else [];
      var after := newBefore + |OpNew(ops[0])|;
      EveryRest(ops, Seen);
      OpsAddedStep(path, ops, newBefore);
      OneSeen(path, ops[0], newBefore);
      TextsConcat(here, OpsAdded(path, ops[1..], after), NotPlusPlus);
      OpsAddedTexts(path, ops[1..], after);
    }
  }

  lemma SegmentsAddedStep(path: string, segments: seq<Segment>, newBefore: nat)
    requires segments != []
    ensures segments[0].Gap? ==> var n := |segments[0].lines|;
      SegmentsAdded(path, segments, newBefore) == SegmentsAdded(path, segments[1..], newBefore + n)
    ensures segments[0].Hunk? ==> var ops := segments[0].ops;
      SegmentsAdded(path, segments, newBefore)
      == OpsAdded(path, ops, newBefore) + SegmentsAdded(path, segments[1..], newBefore + |OpsNew(ops)|)
  {
    hide OpsAdded, OpsNew;
  }

  lemma NoSegmentsTexts(path: string, newBefore: nat)
    ensures TextsAre(SegmentsAdded(path, [], newBefore), NotPlusPlus) && EveryHunk([], Seen)
  {
  }

  lemma {:induction false} SegmentsAddedTexts(path: string, segments: seq<Segment>, newBefore: nat)
    ensures TextsAre(SegmentsAdded(path, segments, newBefore), NotPlusPlus) <==> EveryHunk(segments, Seen)
    decreases |segments|
  {
    hide *;
    if segments == [] {
      NoSegmentsTexts(path, newBefore);
    } else {
      EveryHunkRest(segments, Seen);
      SegmentsAddedStep(path, segments, newBefore);
      if segments[0].Gap? {
        SegmentsAddedTexts(path, segments[1..], newBefore + |segments[0].lines|);
      } else {
        var ops := segments[0].ops;
        var after := newBefore + |OpsNew(ops)|;
        OpsAddedTexts(path, ops, newBefore);
        SegmentsAddedTexts(path, segments[1..], after);
        TextsConcat(OpsAdded(path, ops, newBefore), SegmentsAdded(path, segments[1..], after), NotPlusPlus);
      }
    }
  }

  lemma {:induction false} AddedTextsSeen(files: seq<FileEdit>)
    ensures TextsAre(Added(files), NotPlusPlus) <==> EveryFile(files, Seen)
    decreases |files|
  {
    if files != [] {
      EveryFileRest(files, Seen);
      hide EveryHunk, EveryFile, TextsAre;
      SegmentsAddedTexts(PathOf(files[0]), files[0].segments, 0);
      AddedTextsSeen(files[1..]);
      TextsConcat(SegmentsAdded(PathOf(files[0]), files[0].segments, 0), Added(files[1..]), NotPlusPlus);
    }
  }

  // ---- Main results on lines ---------------------------------------------------------------

  lemma {:induction false} ReadableIsSeen(files: seq<FileEdit>)
    ensures ScriptReadable(files) ==> EveryFile(files, Seen) && EveryFile(files, NotExtra)
    decreases |files|
  {
    if files != [] {
      EveryFileRest(files, Seen);
      EveryFileRest(files, NotExtra);
      hide EveryHunk, EveryFile;
      SegmentsReadableSeen(files[0].segments);
      ReadableIsSeen(files[1..]);
    }
  }

  lemma {:induction false} SegmentsReadableSeen(segments: seq<Segment>)
    ensures SegmentsReadable(segments) ==> EveryHunk(segments, Seen) && EveryHunk(segments, NotExtra)
    decreases |segments|
  {
    if segments != [] {
      EveryHunkRest(segments, Seen);
      EveryHunkRest(segments, NotExtra);
      hide Every, EveryHunk;
      if segments[0].Hunk? {
        OpsReadableSeen(segments[0].ops);
      }
      SegmentsReadableSeen(segments[1..]);
    }
  }

  lemma {:induction false} OpsReadableSeen(ops: seq<Op>)
    ensures Readable(ops) ==> Every(ops, Seen) && Every(ops, NotExtra)
    decreases |ops|
  {
    if ops != [] {
      EveryRest(ops, Seen);
      EveryRest(ops, NotExtra);
      hide Every;
      OpsReadableSeen(ops[1..]);
    }
  }

  /**
   * From the lines of a rendered script the parser reports exactly the added ones, with their places in the new files,
   * if and only if no added text starts with ++, no stray line is taken for an addition, and no removed text that
   * starts with -- and no stray line that counts is followed by an addition in its hunk.
   */
  lemma ParseOfRender(files: seq<FileEdit>)
    requires PlainPaths(files) && EveryFile(files, NotHeader)
    ensures Run(START, ClassifyAll(Render(files))).added == Added(files) <==> ScriptReadable(files)
  {
    assert LineSum([]) == 0;
    hide EveryFile, LineSum, Render, Classify;
    RenderClassified(files);
    ReadableIsSeen(files);
    if !EveryFile(files, Seen) {
      PlusPlusUnreported(Render(files));
      AddedTextsSeen(files);
    } else {
      RunFiles(START, files);
      if ScriptReadable(files) {
        AfterFilesReadable(START, files);
      } else if EveryFile(files, NotExtra) {
        AfterFilesSum(START, files);
      } else {
        FilesCount(START, files);
      }
    }
  }

  lemma {:induction false} AfterSegmentsFiles(s: ParserState, segments: seq<Segment>, newBefore: nat)
    ensures AfterSegments(s, segments, newBefore).files == s.files
    decreases |segments|
  {
    if segments != [] {
      match segments[0]
      case Gap(lines) => AfterSegmentsFiles(s, segments[1..], newBefore + |lines|);
      case Hunk(ops, _, _, _) =>
        var inside := EnterHunk(s, ops, newBefore);
        AfterOpsPath(inside, ops);
        AfterSegmentsFiles(AfterOps(inside, ops), segments[1..], newBefore + |OpsNew(ops)|);
    }
  }

  lemma {:induction false} AfterFilesList(s: ParserState, files: seq<FileEdit>)
    ensures AfterFiles(s, files).files == FileList(s.files, files)
    decreases |files|
  {
    if files != [] {
      var inside := EnterFile(s, PathOf(files[0]));
      AfterSegmentsFiles(inside, files[0].segments, 0);
      AfterFilesList(AfterSegments(inside, files[0].segments, 0), files[1..]);
    }
  }

  lemma {:induction false} FileListContents(seen: seq<string>, files: seq<FileEdit>)
    requires forall i, j | 0 <= i < j < |seen| :: seen[i] != seen[j]
    ensures var r := FileList(seen, files);
      && (forall i, j | 0 <= i < j < |r| :: r[i] != r[j])
      && (forall p :: p in r <==> p in seen || exists f :: f in files && PathOf(f) == p && p != DEV_NULL)
    decreases |files|
  {
    if files != [] {
      var path := PathOf(files[0]);
      var next := if path != DEV_NULL && path !in seen then seen + [path] else seen;
      FileListContents(next, files[1..]);
      assert forall f :: f in files <==> f == files[0] || f in files[1..];
    }
  }

  /** When every addition is seen, the files reported are those that still exist, each once. */
  lemma FilesOfRender(files: seq<FileEdit>)
    requires PlainPaths(files) && EveryFile(files, Seen) && EveryFile(files, NotHeader)
    ensures var r := Run(START, ClassifyAll(Render(files))).files;
      && (forall i, j | 0 <= i < j < |r| :: r[i] != r[j])
      && (forall p :: p in r <==> exists f :: f in files && PathOf(f) == p && p != DEV_NULL)
  {
    RenderClassified(files);
    RunFiles(START, files);
    AfterFilesList(START, files);
    FileListContents([], files);
  }
}
