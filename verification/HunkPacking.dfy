/** Risk-ranked compression of a diff: hunks, or excerpts of hunks, packed under a byte budget. */
module HunkPacking {
  import opened Context
  import opened Models
  import opened Ordering
  import opened Utf8

  function MarkerText(): string {
    " ... [unchanged context omitted by EvoAgent] ...\n"
  }

  // ---- Excerpts of one hunk -------------------------------------------------------

  datatype Piece = Source(index: nat) | Marker

  function PieceText(lines: seq<string>, p: Piece): string {
    match p
    case Source(i) => if i < |lines| then lines[i] else ""
    case Marker => MarkerText()
  }

  ghost predicate Within(pieces: seq<Piece>, n: nat) {
    forall p | p in pieces && p.Source? :: p.index < n
  }

  function Text(lines: seq<string>, pieces: seq<Piece>): string {
    if pieces == [] then ""
    else Text(lines, pieces[..|pieces| - 1]) + PieceText(lines, pieces[|pieces| - 1])
  }

  /** The quoted lines stand in the order of the hunk. */
  ghost predicate InOrder(pieces: seq<Piece>) {
    forall i, j | 0 <= i < j < |pieces| && pieces[i].Source? && pieces[j].Source? :: pieces[i].index < pieces[j].index
  }

  /** A marker follows a quoted line and, but for the last, precedes one that is not the next. */
  ghost predicate MarkersFillGaps(pieces: seq<Piece>) {
    forall k | 0 <= k < |pieces| && pieces[k].Marker? :: FillsGap(pieces, k)
  }

  ghost predicate FillsGap(pieces: seq<Piece>, k: nat)
    requires k < |pieces|
  {
    && k > 0 && pieces[k - 1].Source?
    && (k + 1 < |pieces| ==> pieces[k + 1].Source? && pieces[k - 1].index + 1 < pieces[k + 1].index)
  }

  /** Lines of the hunk in order, with markers between them. */
  ghost predicate Excerpt(lines: seq<string>, text: string) {
    exists pieces :: Within(pieces, |lines|) && InOrder(pieces) && text == Text(lines, pieces)
  }

  predicate Added(line: string) {
    StartsWith(line, "+") && !StartsWith(line, "+++")
  }

  /** A plus that is not the first of three. */
  lemma AddedExactly(line: string)
    ensures Added(line) <==>
      |line| > 0 && line[0] == '+' && !(|line| > 2 && line[1] == '+' && line[2] == '+')
  {
  }

  /** Lines that are to be quoted before any other: the first, the risky ones and their neighbours. */
  predicate Priority(lines: seq<string>, risky: string -> bool, i: nat)
    requires i < |lines|
  {
    || i == 0
    || risky(lines[i])
    || (i > 0 && risky(lines[i - 1]))
    || (i + 1 < |lines| && risky(lines[i + 1]))
  }

  predicate Near(i: int, j: int) {
    -1 <= i - j <= 1
  }

  /** A line comes first if it is the first of the hunk or at most one line away from a risky one. */
  lemma PriorityExactly(lines: seq<string>, risky: string -> bool, i: nat)
    requires i < |lines|
    ensures Priority(lines, risky, i) <==>
      i == 0 || exists j: nat :: j < |lines| && Near(i, j) && risky(lines[j])
  {
    if j: nat :| j < |lines| && Near(i, j) && risky(lines[j]) {
      assert j == i || j == i - 1 || j == i + 1;
    }
    assert Near(i, i) && Near(i, i - 1) && Near(i, i + 1);
  }

  /** Added lines that are not risky themselves. */
  predicate Optional(lines: seq<string>, risky: string -> bool, i: nat)
    requires i < |lines|
  {
    Added(lines[i]) && !risky(lines[i])
  }

  /** The size of the chosen lines among the first `n`. */
  function Sizes(lines: seq<string>, chosen: set<nat>, n: nat): nat
    requires n <= |lines|
  {
    if n == 0 then 0 else Sizes(lines, chosen, n - 1) + (if n - 1 in chosen then Size(lines[n - 1]) else 0)
  }

  function Allowance(budget: int): int {
    Max(128, budget * 85 / 100)
  }

  /** Seventeen twentieths of the budget, rounded down, and at least 128 octets. */
  lemma AllowanceExactly(budget: int, n: int)
    ensures n <= Allowance(budget) <==> n <= 128 || 20 * n <= 17 * budget
  {
  }

  /** All priority lines, and the optional ones before `stop`, which is the first that exceeds the allowance. */
  ghost predicate Selection(lines: seq<string>, risky: string -> bool, budget: int, priority: set<nat>,
                            optional: set<nat>, selected: set<nat>, stop: nat) {
    && stop <= |lines|
    && (forall i: nat :: i in priority <==> i < |lines| && Priority(lines, risky, i))
    && (forall i: nat :: i in optional <==> i < |lines| && Optional(lines, risky, i))
    && (forall i: nat :: i in selected <==> i in priority || (i in optional && i < stop))
    && (Sizes(lines, optional, stop) > 0 ==>
      Sizes(lines, priority, |lines|) + Sizes(lines, optional, stop) <= Allowance(budget))
    && (stop < |lines| ==>
      && stop in optional
      && Sizes(lines, priority, |lines|) + Sizes(lines, optional, stop) + Size(lines[stop]) > Allowance(budget))
  }

  /** The pieces quote the selected lines before `cut`, the first one that does not fit. */
  ghost predicate Quoted(lines: seq<string>, budget: int, selected: set<nat>, cut: nat, pieces: seq<Piece>) {
    && cut <= |lines| && Within(pieces, cut) && InOrder(pieces) && MarkersFillGaps(pieces)
    && Size(Text(lines, pieces)) <= budget
    && (forall i: nat :: Source(i) in pieces <==> i in selected && i < cut)
    && (cut < |lines| ==> cut in selected && Size(Text(lines, pieces)) + Size(lines[cut]) > budget)
  }

  lemma TextGrows(lines: seq<string>, pieces: seq<Piece>, p: Piece)
    ensures Text(lines, pieces + [p]) == Text(lines, pieces) + PieceText(lines, p)
    ensures Size(Text(lines, pieces + [p])) == Size(Text(lines, pieces)) + Size(PieceText(lines, p))
  {
    assert (pieces + [p])[..|pieces|] == pieces;
    SizeConcat(Text(lines, pieces), PieceText(lines, p));
  }

  lemma GrowsByMarker(lines: seq<string>, pieces: seq<Piece>)
    ensures Size(Text(lines, pieces + [Marker])) == Size(Text(lines, pieces)) + Size(MarkerText())
  {
    TextGrows(lines, pieces, Marker);
  }

  lemma GrowsByLine(lines: seq<string>, pieces: seq<Piece>, index: nat)
    requires index < |lines|
    ensures Size(Text(lines, pieces + [Source(index)])) == Size(Text(lines, pieces)) + Size(lines[index])
  {
    TextGrows(lines, pieces, Source(index));
  }

  /** Chooses the lines to quote. */
  method SelectLines(lines: seq<string>, budget: int, risky: string -> bool)
    returns (selected: set<nat>, ghost priority: set<nat>, ghost optional: set<nat>, ghost stop: nat)
    requires lines != []
    ensures Selection(lines, risky, budget, priority, optional, selected, stop)
  {
    var first, added := MarkLines(lines, risky);
    priority, optional := first, added;
    hide Optional, Priority, Size;
    var estimated := 0;
    for index := 0 to |lines|
      invariant estimated == Sizes(lines, first, index)
    {
      if index in first {
        estimated := estimated + Size(lines[index]);
      }
    }
    selected, stop := AddOptional(lines, budget, first, added, estimated);
  }

  /** The lines that come first and the added ones that are not risky. */
  method MarkLines(lines: seq<string>, risky: string -> bool) returns (first: set<nat>, added: set<nat>)
    requires lines != []
    ensures forall i: nat :: i in first <==> i < |lines| && Priority(lines, risky, i)
    ensures forall i: nat :: i in added <==> i < |lines| && Optional(lines, risky, i)
  {
    first, added := {0}, {};
    for index := 0 to |lines|
      invariant forall i: nat :: i in first <==> i < |lines| && (i == 0 || RiskyNear(lines, risky, i, index))
      invariant forall i: nat :: i in added <==> i < index && Optional(lines, risky, i)
    {
      if risky(lines[index]) {
        var next := if index + 1 < |lines| then index + 1 else |lines| - 1;
        first := first + {if index == 0 then 0 else index - 1, index, next};
      } else if Added(lines[index]) {
        added := added + {index};
      }
    }
  }

  /** Adds the optional lines in order until one exceeds the allowance. */
  method AddOptional(lines: seq<string>, budget: int, first: set<nat>, added: set<nat>, size: nat)
    returns (selected: set<nat>, ghost stop: nat)
    requires size == Sizes(lines, first, |lines|)
    ensures stop <= |lines| && forall i: nat :: i in selected <==> i in first || (i in added && i < stop)
    ensures Sizes(lines, added, stop) > 0 ==> size + Sizes(lines, added, stop) <= Allowance(budget)
    ensures stop < |lines| ==> stop in added && size + Sizes(lines, added, stop) + Size(lines[stop]) > Allowance(budget)
  {
    hide Size, Allowance;
    var estimated := size;
    selected, stop := first, 0;
    for index := 0 to |lines|
      invariant stop == index
      invariant estimated == size + Sizes(lines, added, index)
      invariant Sizes(lines, added, index) > 0 ==> estimated <= Allowance(budget)
      invariant forall i: nat :: i in selected <==> i in first || (i in added && i < index)
    {
      if index in added {
        var cost := Size(lines[index]);
        if estimated + cost > Allowance(budget) {
          break;
        }
        selected := selected + {index};
        estimated := estimated + cost;
      }
      stop := index + 1;
    }
  }

  /** Line `i` is, or is next to, a risky line among the first `n`. */
  predicate RiskyNear(lines: seq<string>, risky: string -> bool, i: nat, n: nat)
    requires i < |lines| && n <= |lines|
  {
    || (i < n && risky(lines[i]))
    || (0 < i <= n && risky(lines[i - 1]))
    || (i + 1 < n && risky(lines[i + 1]))
  }

  /** What is quoted so far, the last line of it, and whether a line has been found not to fit. */
  datatype Quotes = Quotes(pieces: seq<Piece>, previous: int, stopped: bool)

  /** The pieces with a marker for the gap before line `index`, where there is one and the marker fits. */
  function Marked(lines: seq<string>, budget: int, q: Quotes, index: nat): seq<Piece> {
    if index - q.previous > 1 && q.pieces != [] && Size(Text(lines, q.pieces)) + Size(MarkerText()) <= budget
    then q.pieces + [Marker]
    else q.pieces
  }

  function QuoteNext(lines: seq<string>, budget: int, chosen: set<nat>, q: Quotes, index: nat): Quotes
    requires index < |lines|
  {
    if q.stopped || index !in chosen then q
    else
      var marked := Marked(lines, budget, q, index);
      if Size(Text(lines, marked)) + Size(lines[index]) > budget then Quotes(marked, q.previous, true)
      else Quotes(marked + [Source(index)], index, false)
  }

  /** The quotes from the first `n` lines. */
  function QuotesFrom(lines: seq<string>, budget: int, chosen: set<nat>, n: nat): Quotes
    requires n <= |lines|
  {
    if n == 0 then Quotes([], -2, false)
    else QuoteNext(lines, budget, chosen, QuotesFrom(lines, budget, chosen, n - 1), n - 1)
  }

  lemma {:induction false} StoppedStays(lines: seq<string>, budget: int, chosen: set<nat>, n: nat, m: nat)
    requires n <= m <= |lines| && QuotesFrom(lines, budget, chosen, n).stopped
    ensures QuotesFrom(lines, budget, chosen, m) == QuotesFrom(lines, budget, chosen, n)
  {
    if n < m {
      hide Size, Text;
      StoppedStays(lines, budget, chosen, n, m - 1);
    }
  }

  /** The lines selected for a hunk under a budget. */
  ghost predicate Selected(lines: seq<string>, budget: int, risky: string -> bool, selected: set<nat>) {
    exists priority, optional, stop :: Selection(lines, risky, budget, priority, optional, selected, stop)
  }

  /** How a hunk is compacted: what is selected, and what of it is quoted. */
  ghost predicate CompactedAs(lines: seq<string>, budget: int, risky: string -> bool, selected: set<nat>, cut: nat,
                              pieces: seq<Piece>) {
    && Selected(lines, budget, risky, selected)
    && Quoted(lines, budget, selected, cut, pieces)
    && pieces == QuotesFrom(lines, budget, selected, |lines|).pieces
  }

  /** The text of a hunk that has lines, compacted under a budget that is large enough. */
  ghost predicate Compacted(lines: seq<string>, budget: int, risky: string -> bool, text: string) {
    exists selected, cut, pieces ::
      CompactedAs(lines, budget, risky, selected, cut, pieces) && text == Text(lines, pieces)
  }

  /** Quotes a hunk within `budget`; no pieces when that is too little. */
  method CompactHunk(lines: seq<string>, budget: int, risky: string -> bool)
    returns (pieces: seq<Piece>, ghost selected: set<nat>, ghost cut: nat)
    ensures budget < 128 || lines == [] ==> pieces == []
    ensures budget >= 128 && lines != [] ==> CompactedAs(lines, budget, risky, selected, cut, pieces)
  {
    if budget < 128 || lines == [] {
      return [], {}, 0;
    }
    var chosen, priority, optional, stop := SelectLines(lines, budget, risky);
    selected, cut, pieces := chosen, |lines|, [];
    var previous: int, used := -2, 0;
    hide Size, Text, PieceText, MarkerText, Quoting, Quoted, Selection, QuoteNext;
    Nothing(lines, budget, chosen);
    for index := 0 to |lines|
      invariant used == Size(Text(lines, pieces)) && Quoting(lines, budget, chosen, index, pieces, previous)
      invariant QuotesFrom(lines, budget, chosen, index) == Quotes(pieces, previous, false)
    {
      QuotesStep(lines, budget, chosen, index);
      if index in chosen {
        var fits;
        pieces, used, fits := QuoteLine(lines, budget, chosen, index, pieces, used, previous);
        if !fits {
          cut := index;
          StoppedStays(lines, budget, chosen, index + 1, |lines|);
          return;
        }
        previous := index;
      } else {
        SkipOne(lines, budget, chosen, index, pieces, previous);
      }
    }
    Finished(lines, budget, chosen, pieces, previous);
  }

  lemma QuotesStep(lines: seq<string>, budget: int, chosen: set<nat>, index: nat)
    requires index < |lines|
    ensures QuotesFrom(lines, budget, chosen, index + 1)
         == QuoteNext(lines, budget, chosen, QuotesFrom(lines, budget, chosen, index), index)
    ensures index !in chosen
        ==> QuotesFrom(lines, budget, chosen, index + 1) == QuotesFrom(lines, budget, chosen, index)
  {
    hide Size, Text;
  }

  /** Quotes one chosen line, with a marker for a gap before it where there is room for one. */
  method QuoteLine(lines: seq<string>, budget: int, ghost chosen: set<nat>, index: nat, pieces: seq<Piece>, used: nat,
                   previous: int)
    returns (quoted: seq<Piece>, size: nat, fits: bool)
    requires index < |lines| && index in chosen
    requires used == Size(Text(lines, pieces)) && Quoting(lines, budget, chosen, index, pieces, previous)
    ensures size == Size(Text(lines, quoted))
    ensures fits ==> Quoting(lines, budget, chosen, index + 1, quoted, index)
    ensures !fits ==> Quoted(lines, budget, chosen, index, quoted)
    ensures QuoteNext(lines, budget, chosen, Quotes(pieces, previous, false), index)
         == Quotes(quoted, if fits then index else previous, !fits)
  {
    quoted, size := pieces, used;
    hide Size, Text, PieceText, MarkerText, Quoting, Quoted;
    if index - previous > 1 && pieces != [] && used + Size(MarkerText()) <= budget {
      GrowsByMarker(lines, pieces);
      quoted, size := pieces + [Marker], used + Size(MarkerText());
    }
    if size + Size(lines[index]) > budget {
      Stopped(lines, budget, chosen, index, pieces, previous, quoted);
      return quoted, size, false;
    }
    GrowsByLine(lines, quoted, index);
    QuoteOne(lines, budget, chosen, index, pieces, previous, quoted);
    return quoted + [Source(index)], size + Size(lines[index]), true;
  }

  /** The state of quoting after the first `index` lines, the last one quoted being `previous`. */
  ghost predicate Quoting(lines: seq<string>, budget: int, chosen: set<nat>, index: nat, pieces: seq<Piece>,
                          previous: int) {
    && Size(Text(lines, pieces)) <= budget
    && Within(pieces, index) && InOrder(pieces) && MarkersFillGaps(pieces)
    && (pieces != [] ==> pieces[|pieces| - 1].Source? && pieces[|pieces| - 1].index == previous)
    && (forall i: nat :: Source(i) in pieces <==> i in chosen && i < index)
  }

  lemma Nothing(lines: seq<string>, budget: int, chosen: set<nat>)
    requires budget >= 128
    ensures Text(lines, []) == "" && Size("") == 0 && Quoting(lines, budget, chosen, 0, [], -2)
  {
  }

  lemma SkipOne(lines: seq<string>, budget: int, chosen: set<nat>, index: nat, pieces: seq<Piece>, previous: int)
    requires Quoting(lines, budget, chosen, index, pieces, previous) && index !in chosen
    ensures Quoting(lines, budget, chosen, index + 1, pieces, previous)
  {
    hide Size, Text, InOrder, MarkersFillGaps;
  }

  /** `pieces` with a marker at the end, if that fits. */
  ghost predicate MaybeMarked(lines: seq<string>, budget: int, index: nat, before: seq<Piece>, previous: int,
                              pieces: seq<Piece>) {
    pieces == before || (pieces == before + [Marker] && before != [] && index - previous > 1
      && Size(Text(lines, pieces)) <= budget)
  }

  lemma QuoteOne(lines: seq<string>, budget: int, chosen: set<nat>, index: nat, before: seq<Piece>, previous: int,
                 pieces: seq<Piece>)
    requires Quoting(lines, budget, chosen, index, before, previous) && index in chosen
    requires MaybeMarked(lines, budget, index, before, previous, pieces)
    requires Size(Text(lines, pieces + [Source(index)])) <= budget
    ensures Quoting(lines, budget, chosen, index + 1, pieces + [Source(index)], index)
  {
    hide Size, Text;
    var after := pieces + [Source(index)];
    assert MarkersFillGaps(after) by {
      forall k | 0 <= k < |after| && after[k].Marker?
        ensures FillsGap(after, k)
      {
        if k < |before| {
          assert FillsGap(before, k);
        }
      }
    }
    assert forall i: nat :: Source(i) in after <==> Source(i) in before || i == index;
  }

  lemma Stopped(lines: seq<string>, budget: int, chosen: set<nat>, index: nat, before: seq<Piece>, previous: int,
                pieces: seq<Piece>)
    requires index < |lines| && Quoting(lines, budget, chosen, index, before, previous) && index in chosen
    requires MaybeMarked(lines, budget, index, before, previous, pieces)
    requires Size(Text(lines, pieces)) + Size(lines[index]) > budget
    ensures Quoted(lines, budget, chosen, index, pieces)
  {
    hide Size, Text;
    assert MarkersFillGaps(pieces) by {
      forall k | 0 <= k < |pieces| && pieces[k].Marker?
        ensures FillsGap(pieces, k)
      {
        if k < |before| {
          assert FillsGap(before, k);
        }
      }
    }
    assert forall i: nat :: Source(i) in pieces <==> Source(i) in before;
  }

  lemma Finished(lines: seq<string>, budget: int, chosen: set<nat>, pieces: seq<Piece>, previous: int)
    requires Quoting(lines, budget, chosen, |lines|, pieces, previous)
    ensures Quoted(lines, budget, chosen, |lines|, pieces)
  {
    hide Size, Text, InOrder, MarkersFillGaps;
  }

  /** What a compacted hunk says is an excerpt of it, within the budget it was given. */
  lemma CompactedIsExcerpt(lines: seq<string>, budget: int, risky: string -> bool, text: string)
    requires Compacted(lines, budget, risky, text)
    ensures Excerpt(lines, text) && Size(text) <= budget
  {
    hide Selected, QuotesFrom, Size, Text, InOrder;
    var selected, cut, pieces :|
      CompactedAs(lines, budget, risky, selected, cut, pieces) && text == Text(lines, pieces);
    assert Within(pieces, |lines|);
  }

  lemma {:induction false} TextHolds(lines: seq<string>, pieces: seq<Piece>, i: nat)
    requires i < |lines| && Source(i) in pieces
    ensures Size(lines[i]) <= Size(Text(lines, pieces))
  {
    hide Size;
    var front, last := pieces[..|pieces| - 1], pieces[|pieces| - 1];
    assert pieces == front + [last];
    TextGrows(lines, front, last);
    if last != Source(i) {
      TextHolds(lines, front, i);
    }
  }

  /** The first line is always selected, so something is quoted exactly when that line fits. */
  lemma FirstLineOpens(lines: seq<string>, budget: int, risky: string -> bool, text: string)
    requires lines != [] && lines[0] != "" && budget >= 0 && Compacted(lines, budget, risky, text)
    ensures text != "" <==> Size(lines[0]) <= budget
    ensures text != "" ==> Size(lines[0]) <= Size(text)
  {
    var selected: set<nat>, cut: nat, pieces: seq<Piece> :|
      CompactedAs(lines, budget, risky, selected, cut, pieces) && text == Text(lines, pieces);
    FirstSelected(lines, budget, risky, selected);
    hide Selected, QuotesFrom, Size, Priority, Optional;
    SizeAtLeastLength(lines[0]);
    NoSize();
    if cut > 0 {
      assert Source(0 as nat) in pieces;
      TextHolds(lines, pieces, 0);
    } else {
      NothingQuoted(pieces);
    }
  }

  /** Markers alone stand in no gap. */
  lemma NothingQuoted(pieces: seq<Piece>)
    ensures pieces != [] && Within(pieces, 0) ==> !MarkersFillGaps(pieces)
  {
    if pieces != [] && Within(pieces, 0) {
      assert pieces[0] in pieces && !FillsGap(pieces, 0);
    }
  }

  lemma FirstSelected(lines: seq<string>, budget: int, risky: string -> bool, selected: set<nat>)
    requires lines != [] && Selected(lines, budget, risky, selected)
    ensures 0 in selected
  {
    hide Optional, Allowance, Size;
    var priority, optional, stop :| Selection(lines, risky, budget, priority, optional, selected, stop);
    assert Priority(lines, risky, 0);
  }

  lemma NoSize()
    ensures Size("") == 0
  {
  }

  ghost predicate NonEmpty(lines: seq<string>) {
    forall line | line in lines :: line != ""
  }

  lemma {:induction false} SizesGrow(lines: seq<string>, chosen: set<nat>, n: nat, m: nat)
    requires n <= m <= |lines|
    ensures Sizes(lines, chosen, n) <= Sizes(lines, chosen, m)
  {
    hide Size;
    if n < m {
      SizesGrow(lines, chosen, n, m - 1);
    }
  }

  /** The optional lines cannot both end at `stop` and go on to `later`. */
  lemma StopsOnce(lines: seq<string>, budget: int, risky: string -> bool, priority: set<nat>, optional: set<nat>,
                  selected: set<nat>, stop: nat, other: set<nat>, later: nat)
    requires NonEmpty(lines) && Selection(lines, risky, budget, priority, optional, selected, stop)
    requires Selection(lines, risky, budget, priority, optional, other, later)
    ensures stop >= later
  {
    hide Priority, Optional, Allowance, Size;
    if stop < later {
      assert lines[stop] in lines;
      SizeAtLeastLength(lines[stop]);
      SizesGrow(lines, optional, stop + 1, later);
    }
  }

  lemma SelectedOnce(lines: seq<string>, budget: int, risky: string -> bool, a: set<nat>, b: set<nat>)
    requires NonEmpty(lines) && Selected(lines, budget, risky, a) && Selected(lines, budget, risky, b)
    ensures a == b
  {
    var first, added, stop :| Selection(lines, risky, budget, first, added, a, stop);
    var priority, optional, end :| Selection(lines, risky, budget, priority, optional, b, end);
    hide Priority, Optional, Allowance, Size, Sizes;
    assert first == priority && added == optional;
    StopsOnce(lines, budget, risky, first, added, a, stop, b, end);
    StopsOnce(lines, budget, risky, first, added, b, end, a, stop);
  }

  /** A hunk, a budget and the risk terms determine the compacted text. */
  lemma CompactedOnce(lines: seq<string>, budget: int, risky: string -> bool, a: string, b: string)
    requires NonEmpty(lines) && Compacted(lines, budget, risky, a) && Compacted(lines, budget, risky, b)
    ensures a == b
  {
    hide NonEmpty, Selected, Quoted, QuotesFrom, Size, Text;
    var selected, cut, pieces :| CompactedAs(lines, budget, risky, selected, cut, pieces) && a == Text(lines, pieces);
    var other, end, others :| CompactedAs(lines, budget, risky, other, end, others) && b == Text(lines, others);
    SelectedOnce(lines, budget, risky, selected, other);
  }

  // ---- The greedy choice --------------------------------------------------------------

  /** Scores are multiples of a quarter; `score` counts quarters. */
  datatype Hunk = Hunk(index: nat, path: string, lines: seq<string>, score: nat) {
    function Whole(): Picked {
      Picked(index, path, Join(lines))
    }
  }

  datatype Picked = Picked(index: nat, path: string, text: string)

  type Headers = map<string, string>

  function HeaderOf(headers: Headers, path: string): string {
    if path in headers then headers[path] else ""
  }

  /** A hunk is made of lines of the diff, none of which is empty. */
  ghost predicate Solid(h: Hunk) {
    h.lines != [] && NonEmpty(h.lines)
  }

  /** The parser numbers the hunks in diff order. */
  ghost predicate Numbered(hunks: seq<Hunk>) {
    forall i | 0 <= i < |hunks| :: hunks[i].index == i && Solid(hunks[i])
  }

  lemma SolidSize(h: Hunk)
    requires Solid(h)
    ensures 0 < Size(h.lines[0]) <= Size(Join(h.lines)) && h.lines[0] != "" && Join(h.lines) != ""
  {
    hide Size;
    assert h.lines[0] in h.lines;
    SizeConcat(h.lines[0], Join(h.lines[1..]));
    SizeAtLeastLength(h.lines[0]);
  }

  function Paths(picked: seq<Picked>): set<string> {
    if picked == [] then {} else Paths(picked[..|picked| - 1]) + {picked[|picked| - 1].path}
  }

  function TextSizes(picked: seq<Picked>): nat {
    if picked == [] then 0 else TextSizes(picked[..|picked| - 1]) + Size(picked[|picked| - 1].text)
  }

  /** The header of a path is paid for once. */
  function HeaderCost(headers: Headers, picked: seq<Picked>, path: string): nat {
    if path in Paths(picked) then 0 else Size(HeaderOf(headers, path))
  }

  function Cost(headers: Headers, picked: seq<Picked>): nat {
    if picked == [] then 0
    else
      var last := picked[|picked| - 1];
      Cost(headers, picked[..|picked| - 1]) + HeaderCost(headers, picked[..|picked| - 1], last.path) + Size(last.text)
  }

  /** What the picks so far, and the header of the hunk if it is still to be paid for, leave of the budget. */
  function Room(headers: Headers, budget: int, before: seq<Picked>, h: Hunk): int {
    budget - Cost(headers, before) - HeaderCost(headers, before, h.path)
  }

  /** There is room for an excerpt: enough to try, and enough for the first line, which comes before any other. */
  predicate Opens(h: Hunk, room: int) {
    room >= 128 && h.lines != [] && Size(h.lines[0]) <= room
  }

  /** One hunk more: whole if it fits with its header, else an excerpt exactly if its first line fits. */
  ghost predicate Extends(headers: Headers, budget: int, risky: string -> bool, before: seq<Picked>, h: Hunk,
                          after: seq<Picked>) {
    var room := Room(headers, budget, before, h);
    if Size(Join(h.lines)) <= room then after == before + [h.Whole()]
    else if Opens(h, room) then ExtendsByExcerpt(room, risky, before, h, after)
    else after == before
  }

  ghost predicate ExtendsByExcerpt(room: int, risky: string -> bool, before: seq<Picked>, h: Hunk, after: seq<Picked>) {
    && |after| == |before| + 1
    && after == before + [Picked(h.index, h.path, after[|before|].text)]
    && Compacted(h.lines, room, risky, after[|before|].text)
  }

  /**
   * `history` records a greedy choice from the queue: what is picked after each hunk, every hunk being treated as
   * what is left when its turn comes allows.
   */
  ghost predicate Greedy(headers: Headers, budget: int, risky: string -> bool, queue: seq<Hunk>,
                         history: seq<seq<Picked>>) {
    && |history| == |queue| + 1 && history[0] == []
    && forall i | 0 <= i < |queue| :: Extends(headers, budget, risky, history[i], queue[i], history[i + 1])
  }

  lemma CostStep(headers: Headers, picked: seq<Picked>, p: Picked)
    ensures Cost(headers, picked + [p]) == Cost(headers, picked) + HeaderCost(headers, picked, p.path) + Size(p.text)
    ensures Paths(picked + [p]) == Paths(picked) + {p.path}
    ensures TextSizes(picked + [p]) == TextSizes(picked) + Size(p.text)
  {
    assert (picked + [p])[..|picked|] == picked;
  }

  lemma GreedyStep(headers: Headers, budget: int, risky: string -> bool, queue: seq<Hunk>, i: nat,
                   history: seq<seq<Picked>>, after: seq<Picked>)
    requires i < |queue| && Greedy(headers, budget, risky, queue[..i], history)
    requires Extends(headers, budget, risky, history[i], queue[i], after)
    ensures Greedy(headers, budget, risky, queue[..i + 1], history + [after])
  {
    hide Extends;
    var more := history + [after];
    forall k | 0 <= k < i + 1
      ensures Extends(headers, budget, risky, more[k], queue[..i + 1][k], more[k + 1])
    {
      if k < i {
        assert Extends(headers, budget, risky, history[k], queue[..i][k], history[k + 1]);
      }
    }
  }

  /** A full budget takes no further hunk. */
  lemma {:induction false} FullTakesNothing(headers: Headers, budget: int, risky: string -> bool, queue: seq<Hunk>,
                                            i: nat, history: seq<seq<Picked>>)
    returns (all: seq<seq<Picked>>)
    requires i <= |queue| && Greedy(headers, budget, risky, queue[..i], history) && Cost(headers, history[i]) >= budget
    requires forall h | h in queue :: Solid(h)
    ensures Greedy(headers, budget, risky, queue, all) && |all| == |queue| + 1 && all[|queue|] == history[i]
    decreases |queue| - i
  {
    if i == |queue| {
      assert queue[..i] == queue;
      return history;
    }
    hide Greedy, Paths, Size, Cost;
    assert queue[i] in queue;
    SolidSize(queue[i]);
    GreedyStep(headers, budget, risky, queue, i, history, history[i]);
    GreedyLast(headers, budget, risky, queue[..i], history);
    all := FullTakesNothing(headers, budget, risky, queue, i + 1, history + [history[i]]);
  }

  lemma GreedyLast(headers: Headers, budget: int, risky: string -> bool, queue: seq<Hunk>, history: seq<seq<Picked>>)
    requires Greedy(headers, budget, risky, queue, history)
    ensures |history| == |queue| + 1
  {
  }

  function Wholes(queue: seq<Hunk>): (r: seq<Picked>)
    ensures |r| == |queue|
  {
    seq(|queue|, i requires 0 <= i < |queue| => queue[i].Whole())
  }

  lemma {:induction false} CostGrows(headers: Headers, picked: seq<Picked>, n: nat)
    requires n <= |picked|
    ensures Cost(headers, picked[..n]) <= Cost(headers, picked)
  {
    if n == |picked| {
      assert picked[..n] == picked;
    } else {
      CostGrows(headers, picked[..|picked| - 1], n);
      assert picked[..|picked| - 1][..n] == picked[..n];
    }
  }

  /** There is room for the whole hunk exactly when the cost with it is within the budget. */
  lemma WholeFits(headers: Headers, budget: int, before: seq<Picked>, h: Hunk)
    ensures Size(Join(h.lines)) <= Room(headers, budget, before, h) <==> Cost(headers, before + [h.Whole()]) <= budget
  {
    hide Size, Cost, Paths, TextSizes;
    CostStep(headers, before, h.Whole());
  }

  /** When everything fits, everything is picked whole. */
  lemma {:induction false} GreedyTakesAll(headers: Headers, budget: int, risky: string -> bool, queue: seq<Hunk>,
                                          history: seq<seq<Picked>>, n: nat)
    requires Greedy(headers, budget, risky, queue, history) && n <= |queue|
    requires Cost(headers, Wholes(queue)) <= budget
    ensures history[n] == Wholes(queue)[..n]
  {
    hide Cost, Hunk.Whole, Size, Paths, ExtendsByExcerpt, Opens;
    if n > 0 {
      GreedyTakesAll(headers, budget, risky, queue, history, n - 1);
      CostGrows(headers, Wholes(queue), n);
      WholeFits(headers, budget, history[n - 1], queue[n - 1]);
      assert Wholes(queue)[..n] == history[n - 1] + [queue[n - 1].Whole()];
      assert Extends(headers, budget, risky, history[n - 1], queue[n - 1], history[n]);
    }
  }

  // ---- What is picked -------------------------------------------------------------------

  lemma {:induction false} TextOfAll(lines: seq<string>, pieces: seq<Piece>, n: nat)
    requires n <= |lines| && pieces == seq(n, (i: nat) => Source(i))
    ensures Text(lines, pieces) == Join(lines[..n])
  {
    if n > 0 {
      TextOfAll(lines, pieces[..n - 1], n - 1);
      assert lines[..n] == lines[..n - 1] + [lines[n - 1]];
      JoinConcat(lines[..n - 1], [lines[n - 1]]);
      assert Join([lines[n - 1]]) == lines[n - 1] by {
        assert [lines[n - 1]][1..] == [] && lines[n - 1] + "" == lines[n - 1];
      }
    }
  }

  lemma WholeIsExcerpt(lines: seq<string>)
    ensures Excerpt(lines, Join(lines))
  {
    var pieces := seq(|lines|, (i: nat) => Source(i));
    TextOfAll(lines, pieces, |lines|);
    assert lines[..|lines|] == lines;
    assert Within(pieces, |lines|) && InOrder(pieces);
  }

  ghost predicate FromHunk(hunks: seq<Hunk>, p: Picked) {
    && p.index < |hunks| && p.path == hunks[p.index].path
    && Excerpt(hunks[p.index].lines, p.text)
  }

  ghost predicate Offered(queue: seq<Hunk>, index: nat) {
    exists h :: h in queue && h.index == index
  }

  /** Each pick is an excerpt of a hunk that was offered, no hunk is picked twice, and the cost is within budget. */
  ghost predicate SoundPicks(headers: Headers, budget: int, hunks: seq<Hunk>, queue: seq<Hunk>, picked: seq<Picked>) {
    && (forall p | p in picked :: FromHunk(hunks, p) && Offered(queue, p.index))
    && (forall i, j | 0 <= i < j < |picked| :: picked[i].index != picked[j].index)
    && Cost(headers, picked) <= budget
  }

  ghost predicate Requeued(hunks: seq<Hunk>, queue: seq<Hunk>) {
    && Distinct(queue) && forall h | h in queue :: h in hunks
  }

  lemma {:induction false} GreedyIsSound(headers: Headers, budget: int, risky: string -> bool, hunks: seq<Hunk>,
                                         queue: seq<Hunk>, history: seq<seq<Picked>>, n: nat)
    requires Numbered(hunks) && Requeued(hunks, queue) && Greedy(headers, budget, risky, queue, history) && n <= |queue|
    requires budget >= 0
    ensures SoundPicks(headers, budget, hunks, queue[..n], history[n])
  {
    hide SoundPicks, Extends, Distinct, Numbered;
    if n == 0 {
      NoPicks(headers, budget, hunks, queue);
    } else {
      GreedyIsSound(headers, budget, risky, hunks, queue, history, n - 1);
      assert Extends(headers, budget, risky, history[n - 1], queue[n - 1], history[n]);
      EarlierQueue(hunks, queue, n - 1);
      PickIsSound(headers, budget, risky, hunks, queue[..n - 1], queue[n - 1], history[n - 1], history[n]);
    }
  }

  lemma NoPicks(headers: Headers, budget: int, hunks: seq<Hunk>, queue: seq<Hunk>)
    requires budget >= 0
    ensures SoundPicks(headers, budget, hunks, queue[..0], [])
  {
  }

  lemma EarlierQueue(hunks: seq<Hunk>, queue: seq<Hunk>, n: nat)
    requires Requeued(hunks, queue) && n < |queue|
    ensures Requeued(hunks, queue[..n]) && queue[n] in hunks && queue[n] !in queue[..n]
    ensures queue[..n + 1] == queue[..n] + [queue[n]]
  {
    assert queue[n] in queue;
  }

  /** What is added is an excerpt of the hunk, and the cost stays within the budget. */
  lemma ExtendsWithin(headers: Headers, budget: int, risky: string -> bool, before: seq<Picked>, h: Hunk,
                      after: seq<Picked>)
    requires Extends(headers, budget, risky, before, h, after) && Cost(headers, before) <= budget
    ensures Cost(headers, after) <= budget
    ensures after != before ==> |after| == |before| + 1 && after == before + [after[|before|]]
    ensures after != before ==> var p := after[|before|];
      p.index == h.index && p.path == h.path && Excerpt(h.lines, p.text)
  {
    hide Excerpt, Cost, Size, Paths, TextSizes, Compacted;
    if after != before {
      var p := after[|before|];
      CostStep(headers, before, p);
      WholeIsExcerpt(h.lines);
      if Size(Join(h.lines)) > Room(headers, budget, before, h) {
        CompactedIsExcerpt(h.lines, Room(headers, budget, before, h), risky, p.text);
      }
    }
  }

  lemma PickIsSound(headers: Headers, budget: int, risky: string -> bool, hunks: seq<Hunk>, queue: seq<Hunk>, h: Hunk,
                    before: seq<Picked>, after: seq<Picked>)
    requires Numbered(hunks) && Requeued(hunks, queue) && h in hunks && h !in queue
    requires SoundPicks(headers, budget, hunks, queue, before) && Extends(headers, budget, risky, before, h, after)
    ensures SoundPicks(headers, budget, hunks, queue + [h], after)
  {
    hide Excerpt, Cost, Solid, Size, Opens, Compacted;
    ExtendsWithin(headers, budget, risky, before, h, after);
    assert hunks[h.index] == h;
    forall p | p in before
      ensures Offered(queue + [h], p.index) && p.index != h.index
    {
      var other :| other in queue && other.index == p.index;
      assert other in queue + [h];
      assert hunks[other.index] == other;
    }
    assert h in queue + [h];
  }

  // ---- The compressed text -----------------------------------------------------------------

  /** The picks with a header in front wherever the path changes. */
  function Render(headers: Headers, picked: seq<Picked>, current: Option<string>): string {
    if picked == [] then ""
    else
      var p := picked[0];
      Lead(headers, p, current) + p.text + Render(headers, picked[1..], Some(p.path))
  }

  ghost function HeaderSizes(headers: Headers, paths: set<string>): nat {
    if paths == {} then 0
    else
      var p :| p in paths;
      Size(HeaderOf(headers, p)) + HeaderSizes(headers, paths - {p})
  }

  lemma {:induction false} HeaderSizesWithout(headers: Headers, paths: set<string>, path: string)
    requires path in paths
    ensures HeaderSizes(headers, paths) == Size(HeaderOf(headers, path)) + HeaderSizes(headers, paths - {path})
  {
    var p :| p in paths && HeaderSizes(headers, paths)
      == Size(HeaderOf(headers, p)) + HeaderSizes(headers, paths - {p});
    if p != path {
      HeaderSizesWithout(headers, paths - {p}, path);
      HeaderSizesWithout(headers, paths - {path}, p);
      assert paths - {p} - {path} == paths - {path} - {p};
    }
  }

  /** What the greedy loop counts: every picked text, and every picked path's header once. */
  lemma {:induction false} CostIs(headers: Headers, picked: seq<Picked>)
    ensures Cost(headers, picked) == TextSizes(picked) + HeaderSizes(headers, Paths(picked))
  {
    if picked != [] {
      var before, last := picked[..|picked| - 1], picked[|picked| - 1];
      CostIs(headers, before);
      HeaderSizesWithout(headers, Paths(before) + {last.path}, last.path);
      if last.path in Paths(before) {
        assert Paths(before) + {last.path} == Paths(before);
      } else {
        assert Paths(before) + {last.path} - {last.path} == Paths(before);
      }
    }
  }

  lemma {:induction false} PathsAre(picked: seq<Picked>, path: string)
    ensures path in Paths(picked) <==> exists p :: p in picked && p.path == path
  {
    if picked != [] {
      PathsAre(picked[..|picked| - 1], path);
    }
  }

  lemma PathsFrom(picked: seq<Picked>)
    requires picked != []
    ensures Paths(picked) == {picked[0].path} + Paths(picked[1..])
  {
    forall path
      ensures path in Paths(picked) <==> path in {picked[0].path} + Paths(picked[1..])
    {
      PathsAre(picked, path);
      PathsAre(picked[1..], path);
      assert forall p :: p in picked <==> p == picked[0] || p in picked[1..];
    }
  }

  lemma {:induction false} TextSizesConcat(a: seq<Picked>, b: seq<Picked>)
    ensures TextSizes(a + b) == TextSizes(a) + TextSizes(b)
  {
    if b == [] {
      assert a + b == a;
    } else {
      assert (a + b)[..|a + b| - 1] == a + b[..|b| - 1];
      TextSizesConcat(a, b[..|b| - 1]);
    }
  }

  /** The picks of a path that has a header stand together. */
  ghost predicate Grouped(headers: Headers, picked: seq<Picked>) {
    forall i, j, k | 0 <= i < j < k < |picked| && picked[i].path == picked[k].path != picked[j].path ::
      Size(HeaderOf(headers, picked[k].path)) == 0
  }

  /** The header in front of a pick. */
  function Lead(headers: Headers, p: Picked, current: Option<string>): string {
    if current == Some(p.path) then "" else HeaderOf(headers, p.path)
  }

  /** Before each pick stands the header of its file, if there is one, unless the pick before it is of the same file. */
  lemma {:induction false} RenderGrows(headers: Headers, picked: seq<Picked>, p: Picked, current: Option<string>)
    ensures
      var before := if picked == [] then current else Some(picked[|picked| - 1].path);
      var header := if p.path in headers && before != Some(p.path) then headers[p.path] else "";
      Render(headers, picked + [p], current) == Render(headers, picked, current) + header + p.text
    decreases |picked|
  {
    hide Render;
    if picked == [] {
      RenderFirst(headers, [p], current);
      RenderNone(headers, Some(p.path), "");
      RenderNone(headers, current, "");
      assert [] + [p] == [p] && [p][1..] == [];
    } else {
      var q := picked[0];
      RenderGrows(headers, picked[1..], p, Some(q.path));
      assert (picked + [p])[1..] == picked[1..] + [p] && (picked + [p])[0] == q;
      RenderFirst(headers, picked + [p], current);
      RenderFirst(headers, picked, current);
      hide HeaderOf, Lead;
      Regroup(Lead(headers, q, current) + q.text, Render(headers, picked[1..], Some(q.path)),
        if p.path in headers && Some(picked[|picked| - 1].path) != Some(p.path) then headers[p.path] else "", p.text);
    }
  }

  lemma RenderFirst(headers: Headers, picked: seq<Picked>, current: Option<string>)
    requires picked != []
    ensures Render(headers, picked, current)
         == Lead(headers, picked[0], current) + picked[0].text + Render(headers, picked[1..], Some(picked[0].path))
  {
  }

  /** The headers put in front of picks that return to a path left before. */
  function Repeated(headers: Headers, picked: seq<Picked>, current: Option<string>, seen: set<string>): nat {
    if picked == [] then 0
    else
      var p := picked[0];
      (if p.path in seen then Size(Lead(headers, p, current)) else 0)
      + Repeated(headers, picked[1..], Some(p.path), seen + {p.path})
  }

  /** The text is as long as its parts: each text, each new path's header, and the headers of paths returned to. */
  lemma {:induction false} RenderSize(headers: Headers, picked: seq<Picked>, current: Option<string>, seen: set<string>)
    requires current.Some? ==> current.value in seen
    ensures Size(Render(headers, picked, current))
         == TextSizes(picked) + HeaderSizes(headers, Paths(picked) - seen) + Repeated(headers, picked, current, seen)
  {
    if picked == [] {
      NoSize();
    } else {
      RenderSize(headers, picked[1..], Some(picked[0].path), seen + {picked[0].path});
      hide Render, TextSizes, HeaderSizes, Paths, Size, Lead;
      RenderStep(headers, picked, current);
      HeaderStep(headers, picked, current, seen);
    }
  }

  lemma RenderStep(headers: Headers, picked: seq<Picked>, current: Option<string>)
    requires picked != []
    ensures Size(Render(headers, picked, current))
         == Size(Lead(headers, picked[0], current)) + Size(picked[0].text)
            + Size(Render(headers, picked[1..], Some(picked[0].path)))
    ensures TextSizes(picked) == Size(picked[0].text) + TextSizes(picked[1..])
  {
    var p, rest := picked[0], picked[1..];
    var lead := Lead(headers, p, current);
    hide Size;
    SizeConcat(lead, p.text);
    SizeConcat(lead + p.text, Render(headers, rest, Some(p.path)));
    TextSizesConcat([p], rest);
    assert [p] + rest == picked && [p][..0] == [];
  }

  lemma HeaderStep(headers: Headers, picked: seq<Picked>, current: Option<string>, seen: set<string>)
    requires picked != [] && (current.Some? ==> current.value in seen)
    ensures var p := picked[0];
      HeaderSizes(headers, Paths(picked) - seen)
      == (if p.path in seen then 0 else Size(Lead(headers, p, current)))
         + HeaderSizes(headers, Paths(picked[1..]) - (seen + {p.path}))
  {
    hide Size, Paths, HeaderOf, HeaderSizes;
    var p, rest := picked[0], picked[1..];
    PathsFrom(picked);
    if p.path in seen {
      assert Paths(picked) - seen == Paths(rest) - (seen + {p.path});
    } else {
      HeaderSizesWithout(headers, Paths(picked) - seen, p.path);
      assert Paths(picked) - seen - {p.path} == Paths(rest) - (seen + {p.path});
    }
  }

  /** Pick `k` returns to a path that was left before. */
  ghost predicate Returns(picked: seq<Picked>, current: Option<string>, seen: set<string>, k: nat)
    requires k < |picked|
  {
    var path := picked[k].path;
    && (if k == 0 then current != Some(path) else picked[k - 1].path != path)
    && (path in seen || path in Paths(picked[..k]))
  }

  ghost predicate NoneReturns(headers: Headers, picked: seq<Picked>, current: Option<string>, seen: set<string>) {
    forall k: nat | k < |picked| && Returns(picked, current, seen, k) :: Size(HeaderOf(headers, picked[k].path)) == 0
  }

  lemma ReturnsLater(picked: seq<Picked>, current: Option<string>, seen: set<string>, k: nat)
    requires k + 1 < |picked|
    ensures Returns(picked, current, seen, k + 1)
         == Returns(picked[1..], Some(picked[0].path), seen + {picked[0].path}, k)
  {
    PathsFrom(picked[..k + 1]);
    assert picked[..k + 1][1..] == picked[1..][..k];
  }

  lemma NoneReturnsRest(headers: Headers, picked: seq<Picked>, current: Option<string>, seen: set<string>)
    requires picked != []
    ensures NoneReturns(headers, picked, current, seen)
        <==> && (Returns(picked, current, seen, 0) ==> Size(HeaderOf(headers, picked[0].path)) == 0)
             && NoneReturns(headers, picked[1..], Some(picked[0].path), seen + {picked[0].path})
  {
    hide Size, HeaderOf, Returns;
    forall k: nat | k + 1 < |picked|
      ensures Returns(picked, current, seen, k + 1)
           == Returns(picked[1..], Some(picked[0].path), seen + {picked[0].path}, k)
    {
      ReturnsLater(picked, current, seen, k);
    }
    if NoneReturns(headers, picked, current, seen) {
      forall k: nat | k < |picked[1..]| && Returns(picked[1..], Some(picked[0].path), seen + {picked[0].path}, k)
        ensures Size(HeaderOf(headers, picked[1..][k].path)) == 0
      {
        assert Returns(picked, current, seen, k + 1);
      }
    } else if Returns(picked, current, seen, 0) ==> Size(HeaderOf(headers, picked[0].path)) == 0 {
      var k: nat :| k < |picked| && Returns(picked, current, seen, k) && Size(HeaderOf(headers, picked[k].path)) != 0;
      assert picked[1..][k - 1] == picked[k];
    }
  }

  lemma {:induction false} RepeatedNothing(headers: Headers, picked: seq<Picked>, current: Option<string>,
                                           seen: set<string>)
    ensures Repeated(headers, picked, current, seen) == 0 <==> NoneReturns(headers, picked, current, seen)
  {
    if picked != [] {
      RepeatedNothing(headers, picked[1..], Some(picked[0].path), seen + {picked[0].path});
      hide Size, HeaderOf, NoneReturns;
      NoneReturnsRest(headers, picked, current, seen);
      NoSize();
    }
  }

  /** A path that stands on both sides of another is returned to. */
  lemma SplitReturns(picked: seq<Picked>, i: nat, j: nat, k: nat) returns (m: nat)
    requires i < j < k < |picked| && picked[i].path == picked[k].path != picked[j].path
    ensures m < |picked| && Returns(picked, None, {}, m) && picked[m].path == picked[k].path
  {
    m := j + 1;
    while picked[m].path != picked[k].path
      invariant j < m <= k && picked[m - 1].path != picked[k].path
      decreases k - m
    {
      m := m + 1;
    }
    PathsAre(picked[..m], picked[k].path);
    assert picked[..m][i] in picked[..m];
  }

  lemma NoneReturnsGrouped(headers: Headers, picked: seq<Picked>)
    requires NoneReturns(headers, picked, None, {})
    ensures Grouped(headers, picked)
  {
    hide Size, HeaderOf, Returns;
    forall i, j, k | 0 <= i < j < k < |picked| && picked[i].path == picked[k].path != picked[j].path
      ensures Size(HeaderOf(headers, picked[k].path)) == 0
    {
      var m := SplitReturns(picked, i, j, k);
    }
  }

  lemma GroupedNoneReturns(headers: Headers, picked: seq<Picked>, k: nat)
    requires Grouped(headers, picked) && k < |picked| && Returns(picked, None, {}, k)
    ensures Size(HeaderOf(headers, picked[k].path)) == 0
  {
    hide Size, HeaderOf, Paths;
    PathsAre(picked[..k], picked[k].path);
    var p :| p in picked[..k] && p.path == picked[k].path;
    var i :| 0 <= i < k && picked[i] == p;
    if i < k - 1 {
      assert picked[i].path == picked[k].path != picked[k - 1].path;
    }
  }

  /** No header is repeated exactly when the picks of every path with a header stand together. */
  lemma RepeatedExactly(headers: Headers, picked: seq<Picked>)
    ensures Repeated(headers, picked, None, {}) == 0 <==> Grouped(headers, picked)
  {
    RepeatedNothing(headers, picked, None, {});
    hide Size, HeaderOf, Repeated, Grouped, Returns;
    if NoneReturns(headers, picked, None, {}) {
      NoneReturnsGrouped(headers, picked);
    }
    if Grouped(headers, picked) {
      forall k: nat | k < |picked| && Returns(picked, None, {}, k)
        ensures Size(HeaderOf(headers, picked[k].path)) == 0
      {
        GroupedNoneReturns(headers, picked, k);
      }
    }
  }

  function IndexKey(p: Picked): Key {
    (p.index, 0)
  }

  function RankKey(h: Hunk): Key {
    (-(h.score as int), h.index)
  }

  lemma {:induction false} TextSizesOfInsert(p: Picked, picked: seq<Picked>)
    ensures TextSizes(Insert(p, picked, IndexKey)) == TextSizes(picked) + Size(p.text)
  {
    hide Size, Position;
    var k := Position(p, picked, IndexKey);
    TextSizesConcat(picked[..k] + [p], picked[k..]);
    TextSizesConcat(picked[..k], [p]);
    TextSizesConcat(picked[..k], picked[k..]);
    assert picked[..k] + picked[k..] == picked && [p][..0] == [];
  }

  lemma {:induction false} TextSizesOfSort(picked: seq<Picked>)
    ensures TextSizes(Sort(picked, IndexKey)) == TextSizes(picked)
  {
    if picked != [] {
      TextSizesOfSort(picked[..|picked| - 1]);
      TextSizesOfInsert(picked[|picked| - 1], Sort(picked[..|picked| - 1], IndexKey));
    }
  }

  lemma PathsOfSort(picked: seq<Picked>)
    ensures Paths(Sort(picked, IndexKey)) == Paths(picked)
  {
    SortKeepsElements(picked, IndexKey);
    forall path
      ensures path in Paths(Sort(picked, IndexKey)) <==> path in Paths(picked)
    {
      PathsAre(picked, path);
      PathsAre(Sort(picked, IndexKey), path);
    }
  }

  /** The hunks of a path that has a header stand together in the diff. */
  ghost predicate OneBlockPerPath(headers: Headers, hunks: seq<Hunk>) {
    forall i, j, k | 0 <= i < j < k < |hunks| && hunks[i].path == hunks[k].path != hunks[j].path ::
      Size(HeaderOf(headers, hunks[k].path)) == 0
  }

  ghost predicate DiffOrder(picked: seq<Picked>) {
    forall i, j | 0 <= i < j < |picked| :: picked[i].index < picked[j].index
  }

  lemma SortedPicks(headers: Headers, budget: int, hunks: seq<Hunk>, queue: seq<Hunk>, picked: seq<Picked>)
    requires SoundPicks(headers, budget, hunks, queue, picked)
    ensures DiffOrder(Sort(picked, IndexKey))
    ensures forall p | p in Sort(picked, IndexKey) :: FromHunk(hunks, p)
    ensures OneBlockPerPath(headers, hunks) ==> Grouped(headers, Sort(picked, IndexKey))
  {
    hide Excerpt, Cost, Sort, OneBlockPerPath, Grouped;
    var kept := Sort(picked, IndexKey);
    SortKeepsElements(picked, IndexKey);
    IndicesSorted(picked);
    forall i | 0 <= i < |kept|
      ensures FromHunk(hunks, kept[i])
    {
      assert kept[i] in picked;
    }
    if OneBlockPerPath(headers, hunks) {
      PathsGrouped(headers, hunks, kept);
    }
  }

  lemma IndicesSorted(picked: seq<Picked>)
    requires forall i, j | 0 <= i < j < |picked| :: picked[i].index != picked[j].index
    ensures DiffOrder(Sort(picked, IndexKey))
  {
    hide Sort;
    var kept := Sort(picked, IndexKey);
    SortOrders(picked, IndexKey);
    SortKeepsElements(picked, IndexKey);
    assert Distinct(picked);
    forall i, j | 0 <= i < j < |kept|
      ensures kept[i].index < kept[j].index
    {
      assert Leq(IndexKey(kept[i]), IndexKey(kept[j])) && kept[i] != kept[j];
      assert kept[i] in picked && kept[j] in picked;
    }
  }

  lemma PathsGrouped(headers: Headers, hunks: seq<Hunk>, kept: seq<Picked>)
    requires DiffOrder(kept) && OneBlockPerPath(headers, hunks)
    requires forall i | 0 <= i < |kept| :: FromHunk(hunks, kept[i])
    ensures Grouped(headers, kept)
  {
    hide Excerpt, Size, HeaderOf;
    forall i, j, k | 0 <= i < j < k < |kept| && kept[i].path == kept[k].path != kept[j].path
      ensures Size(HeaderOf(headers, kept[k].path)) == 0
    {
      assert FromHunk(hunks, kept[i]) && FromHunk(hunks, kept[j]) && FromHunk(hunks, kept[k]);
      assert hunks[kept[i].index].path == hunks[kept[k].index].path != hunks[kept[j].index].path;
    }
  }

  lemma {:induction false} StripLeftSize(s: string)
    ensures Size(StripLeft(s)) <= Size(s)
  {
    if s != [] && IsSpace(s[0]) {
      StripLeftSize(s[1..]);
    }
  }

  lemma {:induction false} StripRightSize(s: string)
    ensures Size(StripRight(s)) <= Size(s)
  {
    if s != [] && IsSpace(s[|s| - 1]) {
      StripRightSize(s[..|s| - 1]);
      SizeConcat(s[..|s| - 1], [s[|s| - 1]]);
      assert s[..|s| - 1] + [s[|s| - 1]] == s;
    }
  }

  function Compressed(headers: Headers, kept: seq<Picked>): string {
    Strip(Render(headers, kept, None)) + "\n"
  }

  lemma CompressedSize(headers: Headers, kept: seq<Picked>)
    ensures Size(Compressed(headers, kept)) == Size(Strip(Render(headers, kept, None))) + 1
    ensures Size(Compressed(headers, kept)) <= Size(Render(headers, kept, None)) + 1
  {
    var text := Render(headers, kept, None);
    StripLeftSize(text);
    StripRightSize(StripLeft(text));
    SizeConcat(Strip(text), "\n");
    SizeOfAscii("\n");
  }

  /** The text of the picks in diff order is as long as they cost, and longer by every header repeated. */
  lemma RenderCost(headers: Headers, picked: seq<Picked>)
    ensures var kept := Sort(picked, IndexKey);
      Size(Render(headers, kept, None)) == Cost(headers, picked) + Repeated(headers, kept, None, {})
  {
    var kept := Sort(picked, IndexKey);
    hide Size, Render, TextSizes, Paths, HeaderSizes, Cost, Repeated, Sort;
    RenderSize(headers, kept, None, {});
    assert Paths(kept) - {} == Paths(kept);
    TextSizesOfSort(picked);
    PathsOfSort(picked);
    CostIs(headers, picked);
  }

  lemma NoCost(headers: Headers)
    ensures Cost(headers, []) == 0 && Paths([]) == {} && Render(headers, [], None) == ""
    ensures forall current :: Render(headers, [], current) == ""
  {
  }

  // ---- Building the bundle -----------------------------------------------------------------

  datatype Bundle = Bundle(
    text: string, compressed: bool, originalTokens: nat, finalTokens: nat, omittedFiles: set<string>, omittedHunks: nat)

  lemma {:induction false} PicksAtMost(headers: Headers, budget: int, risky: string -> bool, queue: seq<Hunk>,
                                       history: seq<seq<Picked>>, n: nat)
    requires Greedy(headers, budget, risky, queue, history) && n <= |queue|
    ensures |history[n]| <= n
  {
    hide Cost;
    if n > 0 {
      PicksAtMost(headers, budget, risky, queue, history, n - 1);
      assert Extends(headers, budget, risky, history[n - 1], queue[n - 1], history[n]);
    }
  }

  /** One turn of the greedy loop; `full` ends it. */
  method PickOne(headers: Headers, budget: int, h: Hunk, risky: string -> bool, selected: seq<Picked>, used: nat,
                 included: set<string>)
    returns (after: seq<Picked>, cost: nat, paths: set<string>, full: bool)
    requires used == Cost(headers, selected) && included == Paths(selected) && Solid(h)
    ensures Extends(headers, budget, risky, selected, h, after)
    ensures cost == Cost(headers, after) && paths == Paths(after) && (full ==> cost >= budget)
  {
    var headerCost := if h.path in included then 0 else Size(HeaderOf(headers, h.path));
    var text := Join(h.lines);
    CostStep(headers, selected, h.Whole());
    hide Cost, Paths, TextSizes, Size, Compacted;
    if used + headerCost + Size(text) <= budget {
      return selected + [h.Whole()], used + headerCost + Size(text), included + {h.path}, false;
    }
    after, cost, paths := selected, used, included;
    var room := budget - used - headerCost;
    var compact := CompactText(h, room, risky);
    if compact != "" {
      CostStep(headers, selected, Picked(h.index, h.path, compact));
      after := selected + [Picked(h.index, h.path, compact)];
      cost, paths := used + headerCost + Size(compact), included + {h.path};
    }
    full := cost >= budget;
  }

  /** The text of a compacted hunk, which is empty exactly when there is no room for the first line. */
  method CompactText(h: Hunk, room: int, risky: string -> bool) returns (text: string)
    requires Solid(h)
    ensures text != "" <==> Opens(h, room)
    ensures text != "" ==> Compacted(h.lines, room, risky, text)
  {
    var pieces, chosen, cut := CompactHunk(h.lines, room, risky);
    SolidSize(h);
    hide CompactedAs, Size;
    text := Text(h.lines, pieces);
    if room >= 128 {
      FirstLineOpens(h.lines, room, risky, text);
    }
  }

  /** The greedy choice over the whole queue. */
  method PickHunks(headers: Headers, budget: int, queue: seq<Hunk>, risky: string -> bool)
    returns (selected: seq<Picked>, included: set<string>, ghost history: seq<seq<Picked>>)
    requires forall h | h in queue :: Solid(h)
    ensures Greedy(headers, budget, risky, queue, history) && history[|queue|] == selected
    ensures included == Paths(selected)
  {
    var used := 0;
    selected, included, history := [], {}, [[]];
    NoCost(headers);
    assert queue[..0] == [] && Greedy(headers, budget, risky, [], history);
    hide *;
    for i := 0 to |queue|
      invariant |history| == i + 1 && Greedy(headers, budget, risky, queue[..i], history) && history[i] == selected
      invariant used == Cost(headers, selected) && included == Paths(selected)
    {
      var after, full;
      assert queue[i] in queue;
      after, used, included, full := PickOne(headers, budget, queue[i], risky, selected, used, included);
      GreedyStep(headers, budget, risky, queue, i, history, after);
      selected, history := after, history + [after];
      if full {
        history := FullTakesNothing(headers, budget, risky, queue, i + 1, history);
        return;
      }
    }
    assert queue[..|queue|] == queue;
  }

  /** The first characters of a text, which are not counted in octets. */
  function FirstCharacters(text: string, n: nat): string {
    if |text| <= n then text else text[..n]
  }

  /**
   * The single pick when nothing fitted: the best hunk, compacted without regard to its header, or, where even the
   * whole budget is too little for its first line, as many characters of it as the budget has octets.
   */
  ghost predicate FallbackPick(h: Hunk, budget: nat, risky: string -> bool, p: Picked) {
    && p.index == h.index && p.path == h.path
    && if Opens(h, budget) then Compacted(h.lines, budget, risky, p.text)
       else p.text == FirstCharacters(Join(h.lines), budget)
  }

  method Fallback(h: Hunk, budget: nat, risky: string -> bool) returns (p: Picked)
    requires Solid(h)
    ensures FallbackPick(h, budget, risky, p)
  {
    var compact := CompactText(h, budget, risky);
    if compact != "" {
      return Picked(h.index, h.path, compact);
    }
    return Picked(h.index, h.path, FirstCharacters(Join(h.lines), budget));
  }

  /** What was chosen for a compressed bundle: the greedy picks in diff order, or the fallback. */
  ghost predicate Chosen(headers: Headers, hunks: seq<Hunk>, budget: nat, risky: string -> bool,
                         history: seq<seq<Picked>>, kept: seq<Picked>) {
    && Greedy(headers, budget, risky, Sort(hunks, RankKey), history)
    && if history[|hunks|] != [] || hunks == [] then kept == Sort(history[|hunks|], IndexKey)
       else |kept| == 1 && FallbackPick(Sort(hunks, RankKey)[0], budget, risky, kept[0])
  }

  function ByteBudget(available: nat): nat {
    Max(1024, available * 4)
  }

  /** A compressed diff may use what the available tokens hold, and at least what 256 do. */
  lemma ByteBudgetIn(available: nat, text: string)
    ensures Size(text) <= ByteBudget(available) <==> EstimateTokens(text) <= Max(256, available)
  {
    hide Size;
  }

  method Build(available: nat, diff: string, headers: Headers, hunks: seq<Hunk>, risky: string -> bool)
    returns (b: Bundle, ghost kept: seq<Picked>, ghost history: seq<seq<Picked>>)
    requires Numbered(hunks)
    ensures b.originalTokens == EstimateTokens(diff) && b.finalTokens == EstimateTokens(b.text)
    ensures b.compressed <==> b.originalTokens > available
    ensures !b.compressed ==> b.text == diff && b.omittedFiles == {} && b.omittedHunks == 0
    ensures b.compressed ==> Chosen(headers, hunks, ByteBudget(available), risky, history, kept)
    ensures b.compressed ==> b.text == Compressed(headers, kept)
    ensures b.compressed ==> b.omittedFiles == headers.Keys - Paths(kept) && b.omittedHunks + |kept| == |hunks|
  {
    var originalTokens := EstimateTokens(diff);
    if originalTokens <= available {
      return Bundle(diff, false, originalTokens, originalTokens, {}, 0), [], [];
    }
    var queue := Sort(hunks, RankKey);
    SortKeepsElements(hunks, RankKey);
    assert forall h | h in queue :: Solid(h);
    hide Solid, Size, EstimateTokens, Greedy, Join, Sort, Render, Paths;
    var selected, included;
    selected, included, history := PickHunks(headers, ByteBudget(available), queue, risky);
    PicksAtMost(headers, ByteBudget(available), risky, queue, history, |queue|);
    if selected == [] && hunks != [] {
      var p := Fallback(queue[0], ByteBudget(available), risky);
      selected, included := [p], included + {p.path};
      OnePick(p);
    }
    kept := Sort(selected, IndexKey);
    var text := RenderText(headers, Sort(selected, IndexKey));
    PathsOfSort(selected);
    text := Strip(text) + "\n";
    b := Bundle(text, true, originalTokens, EstimateTokens(text), headers.Keys - included, |hunks| - |selected|);
  }

  lemma OnePick(p: Picked)
    ensures Sort([p], IndexKey) == [p] && Paths([p]) == {p.path} && Paths([]) == {}
  {
    assert [p][..0] == [];
  }

  /** Joins the picks, putting the header in front where the path changes. */
  method RenderText(headers: Headers, kept: seq<Picked>) returns (text: string)
    ensures text == Render(headers, kept, None)
  {
    text := "";
    var currentPath := None;
    assert "" + Render(headers, kept, None) == Render(headers, kept, None) && kept[0..] == kept;
    hide Render, HeaderOf;
    for i := 0 to |kept|
      invariant text + Render(headers, kept[i..], currentPath) == Render(headers, kept, None)
    {
      RenderOne(headers, kept, i, currentPath, text);
      if currentPath != Some(kept[i].path) {
        text := text + HeaderOf(headers, kept[i].path);
      }
      text := text + kept[i].text;
      currentPath := Some(kept[i].path);
    }
    RenderNone(headers, currentPath, text);
  }

  lemma RenderOne(headers: Headers, kept: seq<Picked>, i: nat, current: Option<string>, text: string)
    requires i < |kept|
    ensures var p := kept[i];
      text + Render(headers, kept[i..], current) ==
        (if current != Some(p.path) then text + HeaderOf(headers, p.path) else text)
        + p.text + Render(headers, kept[i + 1..], Some(p.path))
  {
    hide HeaderOf;
    assert kept[i..][0] == kept[i] && kept[i..][1..] == kept[i + 1..];
    Regroup(text, Lead(headers, kept[i], current), kept[i].text, Render(headers, kept[i + 1..], Some(kept[i].path)));
    assert text + "" == text;
  }

  lemma Regroup(a: string, b: string, c: string, d: string)
    ensures a + (b + c + d) == a + b + c + d
  {
  }

  lemma RenderNone(headers: Headers, current: Option<string>, text: string)
    ensures text + Render(headers, [], current) == text
  {
  }

  lemma QueueIsRequeued(hunks: seq<Hunk>)
    requires Numbered(hunks)
    ensures Requeued(hunks, Sort(hunks, RankKey))
  {
    SortKeepsElements(hunks, RankKey);
    forall i, j | 0 <= i < j < |hunks|
      ensures hunks[i] != hunks[j]
    {
      assert hunks[i].index != hunks[j].index;
    }
  }

  /**
   * Where something was picked, a compressed bundle shows hunks or excerpts of hunks in diff order, each at most once.
   * What was counted keeps to the budget; the text is longer by the headers repeated, of which there are none exactly
   * when the picks of each path stand together, as they do when each path has one block in the diff.
   */
  lemma BundleWithinBudget(headers: Headers, hunks: seq<Hunk>, budget: nat, risky: string -> bool,
                           history: seq<seq<Picked>>, kept: seq<Picked>)
    requires Numbered(hunks) && Chosen(headers, hunks, budget, risky, history, kept) && history[|hunks|] != []
    ensures DiffOrder(kept) && forall p | p in kept :: FromHunk(hunks, p)
    ensures Cost(headers, history[|hunks|]) <= budget
    ensures Size(Render(headers, kept, None)) == Cost(headers, history[|hunks|]) + Repeated(headers, kept, None, {})
    ensures Repeated(headers, kept, None, {}) == 0 <==> Grouped(headers, kept)
    ensures OneBlockPerPath(headers, hunks) ==> Grouped(headers, kept)
    ensures Grouped(headers, kept) ==> Size(Compressed(headers, kept)) <= budget + 1
  {
    var queue, picked := Sort(hunks, RankKey), history[|hunks|];
    hide *;
    ChosenMeans(headers, hunks, budget, risky, history, kept);
    QueueIsRequeued(hunks);
    GreedyIsSound(headers, budget, risky, hunks, queue, history, |queue|);
    SortedPicks(headers, budget, hunks, queue[..|queue|], picked);
    SoundCost(headers, budget, hunks, queue[..|queue|], picked);
    RenderCost(headers, picked);
    RepeatedExactly(headers, kept);
    CompressedSize(headers, kept);
  }

  lemma SoundCost(headers: Headers, budget: int, hunks: seq<Hunk>, queue: seq<Hunk>, picked: seq<Picked>)
    requires SoundPicks(headers, budget, hunks, queue, picked)
    ensures Cost(headers, picked) <= budget
  {
  }

  lemma ChosenMeans(headers: Headers, hunks: seq<Hunk>, budget: nat, risky: string -> bool,
                    history: seq<seq<Picked>>, kept: seq<Picked>)
    requires Chosen(headers, hunks, budget, risky, history, kept)
    ensures Greedy(headers, budget, risky, Sort(hunks, RankKey), history)
    ensures history[|hunks|] != [] ==> kept == Sort(history[|hunks|], IndexKey)
    ensures history[|hunks|] == [] && hunks != []
        ==> |kept| == 1 && FallbackPick(Sort(hunks, RankKey)[0], budget, risky, kept[0])
  {
  }

  // ---- Best first -------------------------------------------------------------------------------

  /** The higher score goes first, and of equal scores the earlier hunk of the diff. */
  predicate Outranks(a: Hunk, b: Hunk) {
    a.score > b.score || (a.score == b.score && a.index < b.index)
  }

  /** Every hunk is offered once, and before all that it outranks. */
  lemma HigherFirst(hunks: seq<Hunk>)
    requires Numbered(hunks)
    ensures multiset(Sort(hunks, RankKey)) == multiset(hunks)
    ensures forall i, j | 0 <= i < j < |hunks| :: Outranks(Sort(hunks, RankKey)[i], Sort(hunks, RankKey)[j])
  {
    hide Sort, Solid;
    var queue := Sort(hunks, RankKey);
    SortKeepsCounts(hunks, RankKey);
    SortOrders(hunks, RankKey);
    QueueIsRequeued(hunks);
    SortKeepsElements(hunks, RankKey);
    forall i, j | 0 <= i < j < |hunks|
      ensures Outranks(queue[i], queue[j])
    {
      assert Leq(RankKey(queue[i]), RankKey(queue[j]));
      assert queue[i] in hunks && queue[j] in hunks && queue[i] != queue[j];
    }
  }

  /** The one that outranks all others is offered first. */
  lemma BestIsFirst(hunks: seq<Hunk>, best: Hunk)
    requires Numbered(hunks) && best in hunks && forall h | h in hunks && h != best :: Outranks(best, h)
    ensures Sort(hunks, RankKey) != [] && Sort(hunks, RankKey)[0] == best
  {
    HigherFirst(hunks);
    SortKeepsElements(hunks, RankKey);
    hide Sort, Numbered;
    var queue := Sort(hunks, RankKey);
    var k :| 0 <= k < |queue| && queue[k] == best;
    assert queue[0] in hunks;
    assert k > 0 ==> Outranks(queue[0], queue[k]);
  }

  lemma {:induction false} PicksStay(headers: Headers, budget: int, risky: string -> bool, queue: seq<Hunk>,
                                     history: seq<seq<Picked>>, i: nat, j: nat)
    requires i <= j <= |queue| && Greedy(headers, budget, risky, queue, history)
    ensures history[i] <= history[j]
    decreases j
  {
    hide Size, Join, Room, Compacted;
    if i < j {
      PicksStay(headers, budget, risky, queue, history, i, j - 1);
      assert Extends(headers, budget, risky, history[j - 1], queue[j - 1], history[j - 1 + 1]);
    }
  }

  /** The best hunk is shown whole whenever it fits with its header: no other hunk takes its room. */
  lemma BestShown(headers: Headers, hunks: seq<Hunk>, budget: nat, risky: string -> bool, history: seq<seq<Picked>>,
                  kept: seq<Picked>, best: Hunk)
    requires Numbered(hunks) && Chosen(headers, hunks, budget, risky, history, kept)
    requires best in hunks && forall h | h in hunks && h != best :: Outranks(best, h)
    requires Size(HeaderOf(headers, best.path)) + Size(Join(best.lines)) <= budget
    ensures best.Whole() in kept
  {
    hide Size, Join, Sort, HeaderOf, Numbered, Compacted, Outranks;
    var queue := Sort(hunks, RankKey);
    BestIsFirst(hunks, best);
    ChosenMeans(headers, hunks, budget, risky, history, kept);
    assert Extends(headers, budget, risky, history[0], queue[0], history[0 + 1]);
    assert history[1] == [best.Whole()];
    PicksStay(headers, budget, risky, queue, history, 1, |queue|);
    assert best.Whole() in history[|queue|] by {
      assert history[|queue|][0] == history[1][0];
    }
    SortKeepsElements(history[|hunks|], IndexKey);
  }

  // ---- When everything fits ------------------------------------------------------------------

  lemma {:induction false} IndicesAtLeast(kept: seq<Picked>, i: nat)
    requires DiffOrder(kept) && i < |kept|
    ensures kept[i].index >= i
  {
    if i > 0 {
      IndicesAtLeast(kept, i - 1);
    }
  }

  lemma {:induction false} IndicesAre(kept: seq<Picked>, i: nat)
    requires DiffOrder(kept) && i < |kept| && forall p | p in kept :: p.index < |kept|
    ensures kept[i].index == i
    decreases |kept| - i
  {
    assert kept[i] in kept;
    IndicesAtLeast(kept, i);
    if i + 1 < |kept| {
      IndicesAre(kept, i + 1);
    }
  }

  lemma AllKept(headers: Headers, hunks: seq<Hunk>, budget: nat, risky: string -> bool, history: seq<seq<Picked>>,
                kept: seq<Picked>)
    requires Numbered(hunks) && Chosen(headers, hunks, budget, risky, history, kept) && hunks != []
    requires Cost(headers, Wholes(Sort(hunks, RankKey))) <= budget
    ensures history[|hunks|] != [] && |kept| == |hunks|
  {
    var queue := Sort(hunks, RankKey);
    ChosenMeans(headers, hunks, budget, risky, history, kept);
    hide Numbered, Chosen, Greedy, Cost, Sort;
    GreedyTakesAll(headers, budget, risky, queue, history, |queue|);
    assert Wholes(queue)[..|queue|] == Wholes(queue);
  }

  lemma KeptAre(hunks: seq<Hunk>, kept: seq<Picked>)
    requires DiffOrder(kept) && |kept| == |hunks| && forall p | p in kept :: FromHunk(hunks, p)
    ensures forall i | 0 <= i < |hunks| :: kept[i].index == i && kept[i].path == hunks[i].path
  {
    hide DiffOrder, Excerpt;
    assert forall p | p in kept :: p.index < |kept|;
    forall i | 0 <= i < |hunks|
      ensures kept[i].index == i && kept[i].path == hunks[i].path
    {
      assert kept[i] in kept;
      IndicesAre(kept, i);
    }
  }

  lemma SamePaths(headers: Headers, hunks: seq<Hunk>, kept: seq<Picked>)
    requires |kept| == |hunks| && forall i | 0 <= i < |hunks| :: kept[i].path == hunks[i].path
    ensures Grouped(headers, kept) <==> OneBlockPerPath(headers, hunks)
  {
    hide Size, HeaderOf;
  }

  /** If everything fits by what is counted, a header is repeated exactly when a path is split in the diff. */
  lemma SplitPathPaysTwice(headers: Headers, hunks: seq<Hunk>, budget: nat, risky: string -> bool,
                           history: seq<seq<Picked>>, kept: seq<Picked>)
    requires Numbered(hunks) && Chosen(headers, hunks, budget, risky, history, kept) && hunks != []
    requires Cost(headers, Wholes(Sort(hunks, RankKey))) <= budget
    ensures |kept| == |hunks| && forall i | 0 <= i < |hunks| :: kept[i].index == i && kept[i].path == hunks[i].path
    ensures Repeated(headers, kept, None, {}) == 0 <==> OneBlockPerPath(headers, hunks)
  {
    hide *;
    AllKept(headers, hunks, budget, risky, history, kept);
    BundleWithinBudget(headers, hunks, budget, risky, history, kept);
    KeptAre(hunks, kept);
    SamePaths(headers, hunks, kept);
  }

  // ---- When nothing fits ---------------------------------------------------------------------

  /** As a first pick the hunk fits whole, or its first line does. */
  predicate Fits(headers: Headers, budget: int, h: Hunk) {
    var room := budget - Size(HeaderOf(headers, h.path));
    Size(Join(h.lines)) <= room || Opens(h, room)
  }

  /** Nothing is picked exactly when no hunk fits whole and none has room for its first line. */
  lemma {:induction false} NothingFits(headers: Headers, budget: int, risky: string -> bool, queue: seq<Hunk>,
                                       history: seq<seq<Picked>>, n: nat)
    requires Greedy(headers, budget, risky, queue, history) && n <= |queue|
    ensures history[n] == [] <==> forall h | h in queue[..n] :: !Fits(headers, budget, h)
  {
    hide Cost, Size, HeaderOf, Opens, Paths, Join, ExtendsByExcerpt;
    if n > 0 {
      NothingFits(headers, budget, risky, queue, history, n - 1);
      NoCost(headers);
      var before, h := history[n - 1], queue[n - 1];
      assert Extends(headers, budget, risky, before, h, history[n]);
      ExtendsSize(headers, budget, risky, before, h, history[n]);
      assert queue[..n] == queue[..n - 1] + [h];
      assert forall x :: x in queue[..n] <==> x in queue[..n - 1] || x == h;
      assert before == [] ==> Room(headers, budget, before, h) == budget - Size(HeaderOf(headers, h.path));
      assert history[n] == [] <==> before == [] && !Fits(headers, budget, h);
    }
  }

  lemma ExtendsSize(headers: Headers, budget: int, risky: string -> bool, before: seq<Picked>, h: Hunk,
                    after: seq<Picked>)
    requires Extends(headers, budget, risky, before, h, after)
    ensures var room := Room(headers, budget, before, h);
      |after| == |before| + if Size(Join(h.lines)) <= room || Opens(h, room) then 1 else 0
  {
    hide Cost, Size, Room, Opens;
  }

  /** Then the bundle is the fallback: the header of the best hunk and what is left of its text. */
  lemma FallbackChosen(headers: Headers, hunks: seq<Hunk>, budget: nat, risky: string -> bool,
                       history: seq<seq<Picked>>, kept: seq<Picked>)
    requires Numbered(hunks) && hunks != [] && Chosen(headers, hunks, budget, risky, history, kept)
    ensures |history| == |hunks| + 1 && (history[|hunks|] == [] <==> forall h | h in hunks :: !Fits(headers, budget, h))
    ensures history[|hunks|] == [] ==> var best := Sort(hunks, RankKey)[0];
      && best in hunks && |kept| == 1 && FallbackPick(best, budget, risky, kept[0])
      && Render(headers, kept, None) == HeaderOf(headers, best.path) + kept[0].text
  {
    var queue := Sort(hunks, RankKey);
    ChosenMeans(headers, hunks, budget, risky, history, kept);
    GreedyLast(headers, budget, risky, queue, history);
    hide Numbered, Chosen, Greedy, Sort, Size, HeaderOf, Fits, Opens, Compacted;
    SortKeepsElements(hunks, RankKey);
    NothingFits(headers, budget, risky, queue, history, |queue|);
    assert queue[..|queue|] == queue;
    if history[|hunks|] == [] {
      assert queue[0] in queue && kept == [kept[0]];
      RenderLone(headers, kept[0]);
    }
  }

  lemma RenderLone(headers: Headers, p: Picked)
    ensures Render(headers, [p], None) == HeaderOf(headers, p.path) + p.text
  {
    hide HeaderOf;
    var text := HeaderOf(headers, p.path) + p.text;
    assert [p][1..] == [] && text + "" == text;
  }

  /** The excerpt made for the whole budget leaves the header its room. */
  ghost predicate ExcerptLeaves(h: Hunk, budget: int, risky: string -> bool, room: int) {
    forall text | Compacted(h.lines, budget, risky, text) :: Size(text) <= room
  }

  /** The fallback keeps to the budget with its header; without an excerpt that takes no header and plain octets. */
  ghost predicate FallbackFits(headers: Headers, h: Hunk, budget: nat, risky: string -> bool) {
    var header, text := HeaderOf(headers, h.path), Join(h.lines);
    if Opens(h, budget) then ExcerptLeaves(h, budget, risky, budget - Size(header))
    else header == "" && |text| >= budget && forall c | c in text[..budget] :: c as int < 0x80
  }

  /**
   * That is exact, and rare: an excerpt never leaves the header its room if the header leaves enough to try an
   * excerpt, or too little for the first line.
   */
  lemma FallbackFitsExactly(headers: Headers, h: Hunk, budget: nat, risky: string -> bool, p: Picked)
    requires Solid(h) && budget >= 128 && !Fits(headers, budget, h) && FallbackPick(h, budget, risky, p)
    ensures Size(HeaderOf(headers, h.path)) + Size(p.text) <= budget <==> FallbackFits(headers, h, budget, risky)
    ensures Opens(h, budget) && FallbackFits(headers, h, budget, risky)
        ==> Size(h.lines[0]) <= budget - Size(HeaderOf(headers, h.path)) < 128
  {
    hide Compacted, Size;
    SolidSize(h);
    if Opens(h, budget) {
      FirstLineOpens(h.lines, budget, risky, p.text);
      forall text | Compacted(h.lines, budget, risky, text)
        ensures text == p.text
      {
        CompactedOnce(h.lines, budget, risky, text, p.text);
      }
    } else {
      CharactersFit(HeaderOf(headers, h.path), Join(h.lines), budget);
    }
  }

  lemma CharactersFit(header: string, text: string, budget: nat)
    requires Size(text) > budget
    ensures Size(header) + Size(FirstCharacters(text, budget)) <= budget
        <==> header == "" && |text| >= budget && forall c | c in text[..budget] :: c as int < 0x80
  {
    hide Size;
    SizeAtLeastLength(header);
    NoSize();
    if |text| <= budget {
      SizeIsLength(text);
      assert |text| == budget ==> text[..budget] == text;
    } else {
      SizeIsLength(text[..budget]);
      SizeAtLeastLength(text[..budget]);
    }
  }

  /**
   * Where each path has one block in the diff, the text before stripping keeps to the budget exactly when some hunk
   * fits whole or by its first line, or else the fallback for the best hunk does.
   */
  lemma BundleFitsExactly(headers: Headers, hunks: seq<Hunk>, budget: nat, risky: string -> bool,
                          history: seq<seq<Picked>>, kept: seq<Picked>)
    requires Numbered(hunks) && hunks != [] && Chosen(headers, hunks, budget, risky, history, kept)
    requires OneBlockPerPath(headers, hunks) && budget >= 128
    ensures Size(Render(headers, kept, None)) <= budget
        <==> || (exists h | h in hunks :: Fits(headers, budget, h))
             || FallbackFits(headers, Sort(hunks, RankKey)[0], budget, risky)
    ensures Size(Compressed(headers, kept)) == Size(Strip(Render(headers, kept, None))) + 1
  {
    hide Size, Sort, Fits, FallbackFits, Chosen, Opens, Render, Strip, HeaderOf, Solid, OneBlockPerPath, Grouped, Cost;
    FallbackChosen(headers, hunks, budget, risky, history, kept);
    CompressedSize(headers, kept);
    if history[|hunks|] != [] {
      BundleWithinBudget(headers, hunks, budget, risky, history, kept);
    } else {
      var best := Sort(hunks, RankKey)[0];
      FallbackFitsExactly(headers, best, budget, risky, kept[0]);
      SizeConcat(HeaderOf(headers, best.path), kept[0].text);
    }
  }

  // ---- Nothing is left open --------------------------------------------------------------------

  lemma ExtendsOnce(headers: Headers, budget: int, risky: string -> bool, before: seq<Picked>, h: Hunk,
                    a: seq<Picked>, b: seq<Picked>)
    requires NonEmpty(h.lines) && Extends(headers, budget, risky, before, h, a)
    requires Extends(headers, budget, risky, before, h, b)
    ensures a == b
  {
    hide NonEmpty, Compacted, Room, Opens, Size;
    var room := Room(headers, budget, before, h);
    if !(Size(Join(h.lines)) <= room) && Opens(h, room) {
      CompactedOnce(h.lines, room, risky, a[|before|].text, b[|before|].text);
    }
  }

  lemma {:induction false} GreedyOnce(headers: Headers, budget: int, risky: string -> bool, queue: seq<Hunk>,
                                      a: seq<seq<Picked>>, b: seq<seq<Picked>>, n: nat)
    requires forall h | h in queue :: NonEmpty(h.lines)
    requires Greedy(headers, budget, risky, queue, a) && Greedy(headers, budget, risky, queue, b) && n <= |queue|
    ensures a[n] == b[n]
  {
    hide NonEmpty, Extends;
    if n > 0 {
      GreedyOnce(headers, budget, risky, queue, a, b, n - 1);
      assert queue[n - 1] in queue;
      assert Extends(headers, budget, risky, a[n - 1], queue[n - 1], a[n]);
      assert Extends(headers, budget, risky, b[n - 1], queue[n - 1], b[n]);
      ExtendsOnce(headers, budget, risky, a[n - 1], queue[n - 1], a[n], b[n]);
    }
  }

  /** The diff, the budget and the risk terms determine what a bundle shows. */
  lemma ChosenOnce(headers: Headers, hunks: seq<Hunk>, budget: nat, risky: string -> bool, history: seq<seq<Picked>>,
                   kept: seq<Picked>, other: seq<seq<Picked>>, picks: seq<Picked>)
    requires Numbered(hunks) && Chosen(headers, hunks, budget, risky, history, kept)
    requires Chosen(headers, hunks, budget, risky, other, picks)
    ensures kept == picks
  {
    var queue := Sort(hunks, RankKey);
    SortKeepsElements(hunks, RankKey);
    hide Greedy, Sort, Compacted, Opens, Join, FirstCharacters, NonEmpty;
    GreedyLast(headers, budget, risky, queue, history);
    GreedyLast(headers, budget, risky, queue, other);
    GreedyOnce(headers, budget, risky, queue, history, other, |queue|);
    if history[|hunks|] == [] && hunks != [] {
      assert queue[0] in hunks;
      if Opens(queue[0], budget) {
        CompactedOnce(queue[0].lines, budget, risky, kept[0].text, picks[0].text);
      }
      assert kept == [kept[0]] && picks == [picks[0]];
    }
  }

  // ---- The fallback is not bounded ----------------------------------------------------------

  /** No header and one hunk of one line: 1024 characters of two octets are taken for a budget of 1024 octets. */
  function WideHunk(): Hunk {
    Hunk(0, "a", [seq(1024, _ => '\U{E9}')], 0)
  }

  lemma {:induction false} WideSize(n: nat)
    ensures Size(seq(n, _ => '\U{E9}')) == 2 * n
  {
    var wide := seq(n, _ => '\U{E9}');
    if n > 0 {
      WideSize(n - 1);
      assert wide == ['\U{E9}'] + seq(n - 1, _ => '\U{E9}');
      SizeConcat(['\U{E9}'], seq(n - 1, _ => '\U{E9}'));
      assert ['\U{E9}'][1..] == [];
    }
  }

  lemma WideDoesNotFit()
    ensures Numbered([WideHunk()]) && !Fits(map[], 1024, WideHunk()) && !Opens(WideHunk(), 1024)
    ensures var text := FirstCharacters(Join(WideHunk().lines), 1024);
      Size(text) == 2048 && Strip(text) == text && "" + text == text
  {
    var wide := WideHunk().lines[0];
    WideSize(1024);
    NoSize();
    hide Size;
    assert [wide][1..] == [] && wide + "" == wide && "" + wide == wide;
  }

  lemma WideLineExceeds(risky: string -> bool, history: seq<seq<Picked>>, kept: seq<Picked>)
    requires Chosen(map[], [WideHunk()], 1024, risky, history, kept)
    ensures Numbered([WideHunk()]) && Size(Compressed(map[], kept)) == 2049
  {
    WideDoesNotFit();
    hide Size, Chosen, Greedy, WideHunk, Fits, Sort, Opens, Join, Strip, Numbered, FirstCharacters, Compacted, Render;
    FallbackChosen(map[], [WideHunk()], 1024, risky, history, kept);
    assert Sort([WideHunk()], RankKey)[0] in [WideHunk()];
    CompressedSize(map[], kept);
  }
}
