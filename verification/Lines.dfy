/** Python's str.splitlines: the lines of a text, and when they are the lines it was joined from. */
module Lines {

  /** The characters that end a line; a carriage return and the line feed after it end one line together. */
  predicate IsBoundary(c: char) {
    var n := c as int;
    0x0A <= n <= 0x0D || 0x1C <= n <= 0x1E || n == 0x85 || n == 0x2028 || n == 0x2029
  }

  lemma BoundariesAre(c: char)
    ensures IsBoundary(c) <==>
      c as int in {0x0A, 0x0B, 0x0C, 0x0D, 0x1C, 0x1D, 0x1E, 0x85, 0x2028, 0x2029}
  {
  }

  predicate HasBoundary(s: string) {
    exists c :: c in s && IsBoundary(c)
  }

  /** The length of the first line. */
  function LineLength(text: string): (n: nat)
    ensures n <= |text|
    ensures forall c | c in text[..n] :: !IsBoundary(c)
    ensures n < |text| ==> IsBoundary(text[n])
  {
    if text == "" || IsBoundary(text[0]) then 0
    else
      var n := 1 + LineLength(text[1..]);
      assert text[..n] == [text[0]] + text[1..][..n - 1];
      n
  }

  /** The length of the first line with what ends it. */
  function LineWidth(text: string): (n: nat)
    ensures n <= |text| && (text != "" ==> n > 0)
  {
    var n := LineLength(text);
    if n == |text| then n
    else if text[n] == '\r' && n + 1 < |text| && text[n + 1] == '\n' then n + 2
    else n + 1
  }

  function SplitLines(text: string): seq<string>
    decreases |text|
  {
    if text == "" then [] else [text[..LineLength(text)]] + SplitLines(text[LineWidth(text)..])
  }

  /** Lines as a text, each closed with a line feed. */
  function JoinLines(lines: seq<string>): string {
    if lines == [] then "" else lines[0] + "\n" + JoinLines(lines[1..])
  }

  /** What one line of a text becomes when the text is split. */
  function Pieces(line: string): (r: seq<string>)
    ensures r != []
  {
    SplitLines(line + "\n")
  }

  function AllPieces(lines: seq<string>): seq<string> {
    if lines == [] then [] else Pieces(lines[0]) + AllPieces(lines[1..])
  }

  lemma {:induction false} LineLengthAt(a: string, rest: string)
    requires !HasBoundary(a) && rest != "" && IsBoundary(rest[0])
    ensures LineLength(a + rest) == |a|
  {
    if a == "" {
      assert a + rest == rest;
    } else {
      assert (a + rest)[1..] == a[1..] + rest && a[0] in a && forall c | c in a[1..] :: c in a;
      LineLengthAt(a[1..], rest);
    }
  }

  /** A line ends at the first boundary, which is dropped; a carriage return takes a line feed behind it along. */
  lemma LineEnds(line: string, c: char, rest: string)
    requires !HasBoundary(line) && IsBoundary(c)
    ensures SplitLines(line + [c] + rest)
         == [line] + SplitLines(if c == '\r' && rest != "" && rest[0] == '\n' then rest[1..] else rest)
  {
    var text := line + [c] + rest;
    assert text == line + ([c] + rest);
    LineLengthAt(line, [c] + rest);
    assert text[..|line|] == line && text[|line|] == c && text[|line| + 1..] == rest;
    if c == '\r' && rest != "" && rest[0] == '\n' {
      assert text[|line| + 2..] == rest[1..];
    }
  }

  /** A last line without a boundary is a line; an empty rest is none. */
  lemma LastLine(line: string)
    requires !HasBoundary(line)
    ensures SplitLines(line) == if line == "" then [] else [line]
  {
    if line != "" {
      NoEnd(line);
      assert line[..|line|] == line && line[|line|..] == "";
    }
  }

  lemma {:induction false} NoEnd(line: string)
    requires !HasBoundary(line)
    ensures LineLength(line) == |line|
  {
    assert forall k | 0 <= k < |line| :: line[k] in line;
  }

  lemma {:induction false} EndsBy(text: string, i: nat)
    requires i < |text| && IsBoundary(text[i])
    ensures LineLength(text) <= i
  {
    if i > 0 && !IsBoundary(text[0]) {
      EndsBy(text[1..], i - 1);
    }
  }

  /** The first line of a text that goes on after a line feed. */
  lemma FirstLine(a: string, b: string)
    ensures LineLength(a + "\n" + b) == LineLength(a + "\n") <= |a|
    ensures LineWidth(a + "\n" + b) == LineWidth(a + "\n") <= |a| + 1
    ensures LineWidth(a + "\n") <= |a| || LineWidth(a + "\n") == |a| + 1
  {
    var text := a + "\n";
    var n := LineLength(text);
    assert text[|a|] == '\n' && IsBoundary('\n');
    EndsBy(text, |a|);
    assert text + b == text[..n] + (text[n..] + b) && (text[n..] + b)[0] == text[n];
    LineLengthAt(text[..n], text[n..] + b);
  }

  /** A text is split after each of its line feeds, whatever else it is split at. */
  lemma {:induction false} SplitConcat(a: string, b: string)
    ensures SplitLines(a + "\n" + b) == SplitLines(a + "\n") + SplitLines(b)
    decreases |a|
  {
    FirstLine(a, b);
    var text, all := a + "\n", a + "\n" + b;
    var n, w := LineLength(text), LineWidth(text);
    assert all[..n] == text[..n];
    if w <= |a| {
      assert all[w..] == a[w..] + "\n" + b && text[w..] == a[w..] + "\n";
      SplitConcat(a[w..], b);
      assert SplitLines(all) == [all[..n]] + SplitLines(a[w..] + "\n" + b);
    } else {
      assert all[w..] == b && text[w..] == "";
      assert SplitLines(text) == [text[..n]] + SplitLines("") == [text[..n]];
      assert SplitLines(all) == [all[..n]] + SplitLines(b);
    }
  }

  /** Joined lines are split into the pieces of each. */
  lemma {:induction false} SplitOfJoin(lines: seq<string>)
    ensures SplitLines(JoinLines(lines)) == AllPieces(lines)
  {
    if lines != [] {
      SplitConcat(lines[0], JoinLines(lines[1..]));
      SplitOfJoin(lines[1..]);
      hide SplitLines;
    }
  }

  /** A beginning without boundaries stays with the first piece. */
  lemma PiecesAfter(start: string, line: string)
    requires !HasBoundary(start)
    ensures Pieces(start + line) == [start + Pieces(line)[0]] + Pieces(line)[1..]
  {
    var text := line + "\n";
    var all := start + text;
    assert all == start + line + "\n";
    FirstLine(line, "");
    assert text + "" == text;
    WidthAfter(start, text);
    assert all[..|start| + LineLength(text)] == start + text[..LineLength(text)];
    assert all[|start| + LineWidth(text)..] == text[LineWidth(text)..];
    hide LineLength, LineWidth, HasBoundary;
  }

  lemma {:induction false} LengthAfter(start: string, text: string)
    requires !HasBoundary(start)
    ensures LineLength(start + text) == |start| + LineLength(text)
  {
    if start == "" {
      assert start + text == text;
    } else {
      assert (start + text)[1..] == start[1..] + text && start[0] in start && forall c | c in start[1..] :: c in start;
      LengthAfter(start[1..], text);
    }
  }

  lemma WidthAfter(start: string, text: string)
    requires !HasBoundary(start) && LineLength(text) < |text|
    ensures LineLength(start + text) == |start| + LineLength(text)
    ensures LineWidth(start + text) == |start| + LineWidth(text)
  {
    LengthAfter(start, text);
    hide LineLength, HasBoundary, IsBoundary;
  }

  lemma WholeLine(line: string)
    requires !HasBoundary(line)
    ensures Pieces(line) == [line]
  {
    var text := line + "\n";
    LineLengthAt(line, "\n");
    assert text[..|line|] == line && text[|line|] == '\n' && text[|line| + 1..] == "";
    assert SplitLines(text) == [line] + SplitLines("");
  }

  lemma {:induction false} NoLineHasBoundary(text: string)
    ensures forall line | line in SplitLines(text) :: !HasBoundary(line)
    decreases |text|
  {
    if text != "" {
      NoLineHasBoundary(text[LineWidth(text)..]);
    }
  }

  ghost predicate NoneHasBoundary(lines: seq<string>) {
    forall line | line in lines :: !HasBoundary(line)
  }

  lemma {:induction false} WholeLines(lines: seq<string>)
    requires NoneHasBoundary(lines)
    ensures AllPieces(lines) == lines
  {
    if lines != [] {
      hide HasBoundary;
      assert lines[0] in lines && forall line | line in lines[1..] :: line in lines;
      WholeLine(lines[0]);
      WholeLines(lines[1..]);
    }
  }

  /** Splitting gives joined lines back exactly when none of them holds a boundary. */
  lemma SplitInvertsJoin(lines: seq<string>)
    ensures SplitLines(JoinLines(lines)) == lines <==> NoneHasBoundary(lines)
  {
    hide SplitLines, JoinLines, HasBoundary;
    NoLineHasBoundary(JoinLines(lines));
    SplitOfJoin(lines);
    if NoneHasBoundary(lines) {
      WholeLines(lines);
    }
  }
}
