/** The stateless line tests of `noteBlocksParser`, and the fixed order in which
    `parse` asks them: header, callout, code fence, mention, todo, done, blank,
    horizontal rule, and otherwise plain text. */
module LineClassifier {
  import opened Text

  /** The first index at or after `i` that does not hold `#`, or `|s|`. */
  function HashEnd(s: string, i: nat): (n: nat)
    requires i <= |s|
    ensures i <= n <= |s|
    ensures forall k :: i <= k < n ==> s[k] == '#'
    ensures n < |s| ==> s[n] != '#'
    decreases |s| - i
  {
    if i == |s| || s[i] != '#' then i else HashEnd(s, i + 1)
  }

  /** The number of `#` characters the line starts with. */
  function HashRun(s: string): nat
  {
    HashEnd(s, 0)
  }

  /** `/^#+\s/.test(line)`: a non-empty run of `#` whose first following
      character is whitespace. */
  predicate IsHeader(line: string)
  {
    var n := HashRun(line);
    1 <= n < |line| && IsWs(line[n])
  }

  /** What the regular expression `/^#+\s/` accepts, read literally: SOME count
      of leading `#` (the engine may backtrack) followed by whitespace. */
  ghost predicate HeaderPattern(line: string)
  {
    exists n :: 1 <= n < |line| && IsWs(line[n]) && forall i :: 0 <= i < n ==> line[i] == '#'
  }

  /** Backtracking buys nothing: `#` is not whitespace, so the only count that can
      work is the whole run, and `IsHeader` is exactly the regular expression. */
  lemma HeaderPatternExact(line: string)
    ensures IsHeader(line) <==> HeaderPattern(line)
  {
    var m := HashRun(line);
    if IsHeader(line) {
      assert 1 <= m < |line| && IsWs(line[m]) && forall i :: 0 <= i < m ==> line[i] == '#';
    }
    if HeaderPattern(line) {
      var n :| 1 <= n < |line| && IsWs(line[n]) && forall i :: 0 <= i < n ==> line[i] == '#';
    }
  }

  /** `line.match(/^#+/)[0].length`; the source only asks it of header lines
      (on any other line the match is `null` and indexing it throws). */
  function HeaderLevel(line: string): (n: nat)
    requires IsHeader(line)
    ensures 1 <= n < |line|
    ensures forall i :: 0 <= i < n ==> line[i] == '#'
    ensures IsWs(line[n])
  {
    HashRun(line)
  }

  /** `line.trim().startsWith('>')`. */
  predicate IsQuoted(line: string)
  {
    ">" <= Trim(line)
  }

  /** `line.trim().substring(1).trim()`: the text after the quote marker. */
  function AfterQuote(line: string): string
    requires IsQuoted(line)
  {
    Trim(Trim(line)[1..])
  }

  /** The todo and done branches' `line.trim().substring(1).trim()` when the
      trimmed line starts with `>`; otherwise the line unchanged. */
  function Unquote(line: string): string
  {
    if IsQuoted(line) then AfterQuote(line) else line
  }

  /** `line.startsWith('- [ ]') || line.trim().startsWith('> - [ ]')`: note the
      first test is on the untrimmed line. */
  predicate IsTodoLine(line: string)
  {
    "- [ ]" <= line || "> - [ ]" <= Trim(line)
  }

  /** `line.startsWith('- [x]') || line.trim().startsWith('> - [x]')`. */
  predicate IsDoneLine(line: string)
  {
    "- [x]" <= line || "> - [x]" <= Trim(line)
  }

  /** A quoted line is a callout unless what follows the `>` is a todo item. */
  predicate IsCallout(line: string)
  {
    IsQuoted(line) && !IsTodoLine(AfterQuote(line))
  }

  /** `line.startsWith('```')`: opening and closing fences look the same. */
  predicate IsCodeBlock(line: string)
  {
    "```" <= line
  }

  /** `[[` at `i`, `]]` at `j`, and no line terminator strictly between them:
      one way for `/\[\[.*?\]\]/` to match. */
  predicate MentionAt(line: string, i: int, j: int)
  {
    && 0 <= i && i + 2 <= j && j + 2 <= |line|
    && line[i] == '[' && line[i + 1] == '['
    && line[j] == ']' && line[j + 1] == ']'
    && forall k :: i + 2 <= k < j ==> !IsLineTerminator(line[k])
  }

  /** `/\[\[.*?\]\]/.test(line)`: a match anywhere in the line. */
  predicate IsMention(line: string)
  {
    exists i, j | 0 <= i < |line| && 0 <= j < |line| :: MentionAt(line, i, j)
  }

  /** `line.trim() === ''`. */
  predicate IsBlank(line: string)
  {
    Trim(line) == ""
  }

  /** `line.trim() === '---'`. */
  predicate IsRule(line: string)
  {
    Trim(line) == "---"
  }

  /** The branch of `parse` that a line takes, with what the branch computes from
      the line before it changes the state: a header's level, and the text a
      todo or done item is stored as. */
  datatype LineKind =
    | HeaderLine(level: nat) | CalloutLine | FenceLine | MentionLine
    | TodoLine(item: string) | DoneLine(item: string)
    | BlankLine | RuleLine | PlainLine

  /** The if/else-if chain of `parse`: the first test that holds decides. */
  function Classify(line: string): LineKind
  {
    if IsHeader(line) then HeaderLine(HeaderLevel(line))
    else if IsCallout(line) then CalloutLine
    else if IsCodeBlock(line) then FenceLine
    else if IsMention(line) then MentionLine
    else if IsTodoLine(line) then TodoLine(Unquote(line))
    else if IsDoneLine(line) then DoneLine(Unquote(line))
    else if IsBlank(line) then BlankLine
    else if IsRule(line) then RuleLine
    else PlainLine
  }

  /** A line holding a non-whitespace character other than `-` is neither blank
      nor a horizontal rule. */
  lemma VisibleByChar(line: string, i: int)
    requires 0 <= i < |line| && !IsWs(line[i]) && line[i] != '-'
    ensures !IsBlank(line) && !IsRule(line)
  {
    TrimKeeps(line, i);
    var t := Trim(line);
    var k := i - TrimStart(line);
    assert t[k] == line[i];
    assert t[k] in t;
  }

  /** `p` at the very start of `line`, with non-whitespace ends, survives trimming. */
  lemma TrimKeepsPrefix(line: string, p: string)
    requires p <= line && |p| > 0 && !IsWs(p[0]) && !IsWs(p[|p| - 1])
    ensures p <= Trim(line)
  {
    TrimPrefix(line, 0, p);
  }

  /** After a quote marker and one run of whitespace comes `p`: the text after
      the quote starts with `p`. */
  lemma AfterQuoteStartsWith(line: string, p: string)
    requires ">" + " " + p <= Trim(line) && |p| > 0 && !IsWs(p[0]) && !IsWs(p[|p| - 1])
    ensures IsQuoted(line) && p <= AfterQuote(line)
  {
    var t := Trim(line);
    assert t[0] == '>';
    var rest := t[1..];
    assert rest[0] == ' ';
    assert p <= rest[1..] by {
      assert rest[1..|p| + 1] == p;
    }
    TrimPrefix(rest, 1, p);
  }

  /** A quoted todo item is not a callout: the todo test wins over the callout test. */
  lemma QuotedTodoNotCallout(line: string)
    requires "> - [ ]" <= Trim(line)
    ensures IsQuoted(line) && !IsCallout(line)
    ensures "- [ ]" <= AfterQuote(line)
  {
    assert ">" + " " + "- [ ]" == "> - [ ]";
    AfterQuoteStartsWith(line, "- [ ]");
  }

  /** A line that starts with a non-whitespace character keeps it first when trimmed. */
  lemma TrimKeepsFirst(line: string)
    requires |line| > 0 && !IsWs(line[0])
    ensures |Trim(line)| > 0 && Trim(line)[0] == line[0]
  {
    TrimKeepsPrefix(line, line[..1]);
  }

  /** A header line starts with `#`, so a quoted line is never a header. */
  lemma QuotedNotHeader(line: string)
    requires IsQuoted(line)
    ensures !IsHeader(line)
  {
    if |line| > 0 && line[0] == '#' {
      TrimKeepsFirst(line);
    }
  }

  /** A quoted DONE item is a callout, since the callout test only exempts todo
      items; so the quoted half of `IsDoneLine` is never reached from `Classify`. */
  lemma QuotedDoneIsCallout(line: string)
    requires "> - [x]" <= Trim(line)
    ensures IsCallout(line)
  {
    assert ">" + " " + "- [x]" == "> - [x]";
    AfterQuoteStartsWith(line, "- [x]");
    var a := AfterQuote(line);
    assert !("- [ ]" <= a) by {
      assert a[3] == 'x';
    }
    TrimKeepsPrefix(a, "- [x]");
    assert !("> - [ ]" <= Trim(a)) by {
      assert Trim(a)[0] == '-';
    }
    assert !IsTodoLine(a);
  }

  /** So a quoted done item takes the callout branch of `parse`. */
  lemma QuotedDoneClassified(line: string)
    requires "> - [x]" <= Trim(line)
    ensures Classify(line) == CalloutLine
  {
    QuotedDoneIsCallout(line);
    QuotedNotHeader(line);
  }

  /** A done item that is not a callout (as any line reaching the done test is
      not) starts with the unquoted marker itself. */
  lemma DoneLineShape(line: string)
    requires IsDoneLine(line) && !IsCallout(line)
    ensures "- [x]" <= line && !IsQuoted(line)
  {
    if "> - [x]" <= Trim(line) {
      QuotedDoneIsCallout(line);
      assert false;
    }
    TrimKeepsFirst(line);
  }

  /** A todo line is either an unquoted todo item, or a quoted one whose text
      after the quote marker is a todo item. */
  lemma TodoLineShape(line: string)
    requires IsTodoLine(line)
    ensures !IsQuoted(line) ==> "- [ ]" <= line
    ensures IsQuoted(line) ==> "- [ ]" <= AfterQuote(line)
  {
    if "- [ ]" <= line {
      TrimKeepsFirst(line);
    } else {
      QuotedTodoNotCallout(line);
    }
  }

  /** Blank and `---` lines, and only they, take the blank and rule branches:
      no earlier test accepts them. */
  lemma BlankOrRuleKind(line: string)
    requires IsBlank(line) || IsRule(line)
    ensures Classify(line) == (if IsBlank(line) then BlankLine else RuleLine)
  {
    forall i | 0 <= i < |line|
      ensures IsWs(line[i]) || line[i] == '-'
    {
      if !IsWs(line[i]) && line[i] != '-' {
        VisibleByChar(line, i);
        assert false;
      }
    }
    var t := Trim(line);
    assert !IsQuoted(line) by {
      if |t| > 0 {
        assert t[0] == '-';
      }
    }
    assert !IsHeader(line);
    assert !IsCodeBlock(line);
    assert !IsMention(line);
    assert !("- [ ]" <= line) && !("- [x]" <= line) by {
      if |line| >= 3 {
        assert line[2] != '[';
      }
    }
  }

  /** A quoted line whose text after the quote marker is not a todo item is a
      callout, whatever else it holds: a mention or a done item in it does not
      matter, since the callout test comes first. */
  lemma CalloutBeatsMention(line: string)
    requires IsQuoted(line) && !IsTodoLine(AfterQuote(line))
    ensures Classify(line) == CalloutLine
  {
    QuotedNotHeader(line);
  }

  /** A line that is neither blank nor `---` takes neither of those branches. */
  lemma VisibleKind(line: string)
    requires !IsBlank(line) && !IsRule(line)
    ensures Classify(line) != BlankLine && Classify(line) != RuleLine
  {
  }
}
