/** Records, text helpers and arithmetic shared by the components. */
module Models {

  datatype Option<+T> = None | Some(value: T)

  datatype Severity = Low | Medium | High | Critical

  /** The numeric severity scale: low is 0, critical is 3. */
  function Rank(s: Severity): nat {
    match s
    case Low => 0
    case Medium => 1
    case High => 2
    case Critical => 3
  }

  datatype ChangedLine = ChangedLine(path: string, line: int, content: string)

  datatype Finding = Finding(
    ruleId: string, severity: Severity, explanation: string, path: string, line: int,
    evidence: string, fix: string, test: string, confidence: real)

  /** What a finding is known by; where the code hashes it, the hash is taken to be injective. */
  datatype FindingKey = FindingKey(path: string, line: int, ruleId: string)

  function KeyOf(f: Finding): FindingKey {
    FindingKey(f.path, f.line, f.ruleId)
  }

  predicate StartsWith(s: string, prefix: string) {
    prefix <= s
  }

  /** The characters Python's str.strip removes. */
  predicate IsSpace(c: char) {
    var n := c as int;
    || 0x09 <= n <= 0x0D || 0x1C <= n <= 0x20 || n == 0x85 || n == 0xA0 || n == 0x1680
    || 0x2000 <= n <= 0x200A || n == 0x2028 || n == 0x2029 || n == 0x202F || n == 0x205F || n == 0x3000
  }

  function StripLeft(s: string): string {
    if s != [] && IsSpace(s[0]) then StripLeft(s[1..]) else s
  }

  function StripRight(s: string): string {
    if s != [] && IsSpace(s[|s| - 1]) then StripRight(s[..|s| - 1]) else s
  }

  function Strip(s: string): string {
    StripRight(StripLeft(s))
  }

  lemma {:induction false} StripLeftEnds(s: string)
    ensures StripLeft(s) == "" || !IsSpace(StripLeft(s)[0])
  {
    if s != [] && IsSpace(s[0]) {
      StripLeftEnds(s[1..]);
    }
  }

  lemma {:induction false} StripRightEnds(s: string)
    ensures StripRight(s) <= s && StripRight(StripRight(s)) == StripRight(s)
  {
    if s != [] && IsSpace(s[|s| - 1]) {
      StripRightEnds(s[..|s| - 1]);
    }
  }

  lemma StripTwice(s: string)
    ensures Strip(Strip(s)) == Strip(s)
  {
    StripLeftEnds(s);
    StripRightEnds(StripLeft(s));
  }

  ghost predicate Spaces(s: string) {
    forall c | c in s :: IsSpace(c)
  }

  /** A name with no white space around it. */
  predicate Bare(s: string) {
    s != "" && !IsSpace(s[0]) && !IsSpace(s[|s| - 1])
  }

  lemma {:induction false} LeftPadding(pad: string, s: string)
    requires Spaces(pad)
    ensures StripLeft(pad + s) == StripLeft(s)
  {
    if pad == "" {
      assert pad + s == s;
    } else {
      assert (pad + s)[1..] == pad[1..] + s;
      LeftPadding(pad[1..], s);
    }
  }

  lemma {:induction false} RightPadding(s: string, pad: string)
    requires Spaces(pad)
    ensures StripRight(s + pad) == StripRight(s)
    decreases |pad|
  {
    if pad == "" {
      assert s + pad == s;
    } else {
      var shorter := pad[..|pad| - 1];
      assert (s + pad)[..|s + pad| - 1] == s + shorter;
      RightPadding(s, shorter);
    }
  }

  lemma StripsPadding(pad: string, s: string, pad': string)
    requires Spaces(pad) && Spaces(pad') && Bare(s)
    ensures Strip(pad + s + pad') == s
  {
    assert pad + s + pad' == pad + (s + pad');
    LeftPadding(pad, s + pad');
    assert StripLeft(s + pad') == s + pad';
    RightPadding(s, pad');
  }

  function Max(a: int, b: int): int {
    if a >= b then a else b
  }

  predicate InUnit(x: real) {
    0.0 <= x <= 1.0
  }

  lemma LargerProduct(a: real, b: real, x: real)
    requires a > b && x > 0.0
    ensures a * x > b * x
  {
  }
}
