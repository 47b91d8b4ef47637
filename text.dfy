/** The few string operations the session engine relies on: `str.lower()`,
    `str.rstrip()`, the substring test `sub in s`, `'\n'.join(lines)` and its
    inverse `s.split('\n')`. Case mapping and whitespace are the ASCII
    subset of Python's Unicode rules. */
module Text {

  /** `c.isspace()` on the ASCII range: space, \t \n \v \f \r and the
      separators \x1c..\x1f. */
  predicate IsSpace(c: char) {
    c == ' ' || (9 <= c as int <= 13) || (28 <= c as int <= 31)
  }

  /** `s.rstrip()`: the longest prefix of `s` that does not end in whitespace. */
  function Rstrip(s: string): (r: string)
    ensures r <= s
    ensures r == [] || !IsSpace(r[|r| - 1])
    ensures forall i | |r| <= i < |s| :: IsSpace(s[i])
  {
    if |s| > 0 && IsSpace(s[|s| - 1]) then Rstrip(s[..|s| - 1]) else s
  }

  function LowerChar(c: char): char {
    if 'A' <= c <= 'Z' then (c as int + 32) as char else c
  }

  /** `s.lower()` */
  function Lower(s: string): (r: string)
    ensures |r| == |s|
    ensures forall i | 0 <= i < |s| :: r[i] == LowerChar(s[i])
  {
    if s == [] then [] else [LowerChar(s[0])] + Lower(s[1..])
  }

  /** `sub` occurs in `s` starting at index `i`. */
  ghost predicate OccursAt(s: string, sub: string, i: int) {
    0 <= i && i + |sub| <= |s| && s[i..i + |sub|] == sub
  }

  /** Python's `sub in s`, scanning left to right. */
  function Contains(s: string, sub: string): bool
    decreases |s|
  {
    if |sub| > |s| then false
    else if s[..|sub|] == sub then true
    else Contains(s[1..], sub)
  }

  /** The scan finds `sub` exactly when `sub` occurs somewhere in `s`. */
  lemma {:induction false} ContainsIffOccurs(s: string, sub: string)
    ensures Contains(s, sub) <==> exists i :: OccursAt(s, sub, i)
    decreases |s|
  {
    if |sub| > |s| {
    } else if s[..|sub|] == sub {
      assert OccursAt(s, sub, 0);
    } else {
      ContainsIffOccurs(s[1..], sub);
      if i :| OccursAt(s, sub, i) {
        assert i != 0;
        assert s[1..][i - 1..i - 1 + |sub|] == s[i..i + |sub|];
        assert OccursAt(s[1..], sub, i - 1);
      }
      if j :| OccursAt(s[1..], sub, j) {
        assert s[1..][j..j + |sub|] == s[j + 1..j + 1 + |sub|];
        assert OccursAt(s, sub, j + 1);
      }
    }
  }

  /** The keywords whose presence marks a line as a prompt for input. */
  const PromptKeywords: seq<string> := ["input", "enter", ":", "?"]

  /** The waiting-for-input heuristic: some keyword occurs in the lower-cased line. */
  predicate LooksLikePrompt(line: string) {
    exists k | k in PromptKeywords :: Contains(Lower(line), k)
  }

  /** The handler's check on a response: the last output line looks like a prompt. */
  predicate EndsInPrompt(lines: seq<string>) {
    lines != [] && LooksLikePrompt(lines[|lines| - 1])
  }

  /** Every keyword is non-empty and ends in a character that is not whitespace. */
  lemma KeywordsEndInText(k: string)
    requires k in PromptKeywords
    ensures |k| > 0 && !IsSpace(k[|k| - 1])
  {
  }

  /** Lower-casing maps whitespace to itself. */
  lemma LowerKeepsSpace(c: char)
    requires IsSpace(c)
    ensures LowerChar(c) == c
  {
  }

  /** An occurrence in a prefix is an occurrence in the whole string. */
  lemma OccursInExtension(pre: string, s: string, k: string, i: int)
    requires pre <= s && OccursAt(pre, k, i)
    ensures OccursAt(s, k, i)
  {
    PrefixSlice(pre, s, i, i + |k|);
  }

  /** Lower-casing a prefix gives a prefix of the lower-cased string. */
  lemma LowerPrefix(r: string, s: string)
    requires r <= s
    ensures Lower(r) <= Lower(s)
  {
    var lr, ls := Lower(r), Lower(s);
    assert forall j | 0 <= j < |r| :: lr[j] == ls[j];
  }

  /** An occurrence of a word that does not end in whitespace ends before the
      whitespace tail of the line. */
  lemma OccursBeforeStrippedEnd(s: string, k: string, i: int)
    requires |k| > 0 && !IsSpace(k[|k| - 1])
    requires OccursAt(Lower(s), k, i)
    ensures i + |k| <= |Rstrip(s)|
  {
    var ls := Lower(s);
    var last := i + |k| - 1;
    assert ls[last] == ls[i..i + |k|][|k| - 1];
    if last >= |Rstrip(s)| {
      LowerKeepsSpace(s[last]);
      assert false;
    }
  }

  /** Such an occurrence is also one in the lower-cased stripped line. */
  lemma OccursBeforeTail(s: string, k: string, i: int)
    requires |k| > 0 && !IsSpace(k[|k| - 1])
    requires OccursAt(Lower(s), k, i)
    ensures OccursAt(Lower(Rstrip(s)), k, i)
  {
    OccursBeforeStrippedEnd(s, k, i);
    LowerPrefix(Rstrip(s), s);
    PrefixSlice(Lower(Rstrip(s)), Lower(s), i, i + |k|);
  }

  /** A slice inside a prefix is the same slice of the whole string. */
  lemma PrefixSlice(pre: string, s: string, i: int, j: int)
    requires pre <= s && 0 <= i <= j <= |pre|
    ensures pre[i..j] == s[i..j]
  {
  }

  /** Stripping trailing whitespace keeps every occurrence of a word that
      does not end in whitespace. */
  lemma OccursBeforeTrailingSpace(s: string, k: string)
    requires |k| > 0 && !IsSpace(k[|k| - 1])
    ensures Contains(Lower(Rstrip(s)), k) == Contains(Lower(s), k)
  {
    var r := Rstrip(s);
    var ls, lr := Lower(s), Lower(r);
    LowerPrefix(r, s);
    ContainsIffOccurs(ls, k);
    ContainsIffOccurs(lr, k);
    if i :| OccursAt(ls, k, i) {
      OccursBeforeTail(s, k, i);
    }
    if j :| OccursAt(lr, k, j) {
      OccursInExtension(lr, ls, k, j);
    }
  }

  /** The stdout reader classifies the raw line, the input handler the
      stripped one; both reach the same verdict. */
  lemma PromptIgnoresTrailingSpace(line: string)
    ensures LooksLikePrompt(Rstrip(line)) == LooksLikePrompt(line)
  {
    forall k | k in PromptKeywords
      ensures Contains(Lower(Rstrip(line)), k) == Contains(Lower(line), k)
    {
      KeywordsEndInText(k);
      OccursBeforeTrailingSpace(line, k);
    }
  }

  /** The heuristic in terms of occurrences: some keyword occurs somewhere
      in the lower-cased line. */
  lemma LooksLikePromptIff(line: string)
    ensures LooksLikePrompt(line) <==> exists k, i | k in PromptKeywords :: OccursAt(Lower(line), k, i)
  {
    if LooksLikePrompt(line) {
      var k :| k in PromptKeywords && Contains(Lower(line), k);
      ContainsIffOccurs(Lower(line), k);
      var i :| OccursAt(Lower(line), k, i);
      assert k in PromptKeywords && OccursAt(Lower(line), k, i);
    }
    if exists k, i | k in PromptKeywords :: OccursAt(Lower(line), k, i) {
      var k, i :| k in PromptKeywords && OccursAt(Lower(line), k, i);
      ContainsIffOccurs(Lower(line), k);
      assert Contains(Lower(line), k);
    }
  }

  /** Lower-casing twice is lower-casing once. */
  lemma LowerIdempotent(s: string)
    ensures Lower(Lower(s)) == Lower(s)
  {
    var l, ll := Lower(s), Lower(Lower(s));
    assert forall i | 0 <= i < |s| :: ll[i] == l[i];
  }

  /** The heuristic does not depend on letter case: "Enter a number" and
      "ENTER A NUMBER" are both prompts. */
  lemma PromptIgnoresCase(line: string)
    ensures LooksLikePrompt(Lower(line)) == LooksLikePrompt(line)
  {
    LowerIdempotent(line);
  }

  /** `'\n'.join(lines)` */
  function JoinLines(lines: seq<string>): string {
    if |lines| == 0 then ""
    else if |lines| == 1 then lines[0]
    else lines[0] + "\n" + JoinLines(lines[1..])
  }

  /** `s.split('\n')`: never empty, `""` splits into `[""]`. */
  function SplitLines(s: string): (r: seq<string>)
    ensures |r| > 0
  {
    if s == [] then [""]
    else if s[0] == '\n' then [""] + SplitLines(s[1..])
    else var rest := SplitLines(s[1..]); [[s[0]] + rest[0]] + rest[1..]
  }

  predicate NoNewline(line: string) {
    forall i | 0 <= i < |line| :: line[i] != '\n'
  }

  /** A line without a newline splits into itself, and a newline after it
      starts the next piece. */
  lemma {:induction false} SplitLeadingLine(line: string, rest: string)
    requires NoNewline(line)
    ensures SplitLines(line) == [line]
    ensures SplitLines(line + "\n" + rest) == [line] + SplitLines(rest)
  {
    if line == [] {
      assert line + "\n" + rest == "\n" + rest;
      assert ("\n" + rest)[1..] == rest;
    } else {
      SplitLeadingLine(line[1..], rest);
      assert (line + "\n" + rest)[1..] == line[1..] + "\n" + rest;
      assert [line[0]] + line[1..] == line;
    }
  }

  /** Joining lines that hold no newline loses nothing: splitting the joined
      text gives the lines back (for at least one line, since `[]` and `[""]`
      both join to `""`). */
  lemma {:induction false} SplitJoin(lines: seq<string>)
    requires |lines| > 0
    requires forall i | 0 <= i < |lines| :: NoNewline(lines[i])
    ensures SplitLines(JoinLines(lines)) == lines
  {
    if |lines| == 1 {
      SplitLeadingLine(lines[0], "");
    } else {
      SplitJoin(lines[1..]);
      SplitLeadingLine(lines[0], JoinLines(lines[1..]));
    }
  }

  /** The joined text is empty for no lines, starts with the first line and
      ends with the last. */
  lemma {:induction false} JoinLinesEnds(lines: seq<string>)
    ensures lines == [] ==> JoinLines(lines) == ""
    ensures |lines| > 0 ==> lines[0] <= JoinLines(lines)
    ensures |lines| > 0 ==> var r, last := JoinLines(lines), lines[|lines| - 1];
              |last| <= |r| && r[|r| - |last|..] == last
  {
    if |lines| > 1 {
      JoinLinesEnds(lines[1..]);
      var rest := JoinLines(lines[1..]);
      assert JoinLines(lines) == (lines[0] + "\n") + rest;
      assert lines[1..][|lines| - 2] == lines[|lines| - 1];
    }
  }
}
