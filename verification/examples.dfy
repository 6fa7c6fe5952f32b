/** Short notes run through `Parse`: for each behaviour of the loop worth
    seeing whole, a note of two or three lines of given shapes and the blocks
    `parse` returns for it. */
module ParserExamples {
  import opened Wrappers
  import opened Text
  import opened LineClassifier
  import opened NoteBlocks

  /** A one-line note is one iteration of the loop and the final flush. */
  lemma ParseOne(a: string)
    requires '\n' !in a
    ensures Parse(a) == Finish(Step(Start, Classify(a), a))
  {
    SplitNoNewline(a);
    RunSnoc([], a);
    assert [] + [a] == [a];
  }

  /** A two-line note is two iterations and the final flush. */
  lemma ParseTwo(a: string, b: string)
    requires '\n' !in a && '\n' !in b
    ensures Parse(a + "\n" + b) == Finish(Step(Step(Start, Classify(a), a), Classify(b), b))
  {
    SplitAfterHead(a, b);
    SplitNoNewline(b);
    RunSnoc([], a);
    RunSnoc([a], b);
    assert [] + [a] == [a];
    assert [a] + [b] == [a, b];
  }

  /** A three-line note is three iterations and the final flush. */
  lemma ParseThree(a: string, b: string, c: string)
    requires '\n' !in a && '\n' !in b && '\n' !in c
    ensures Parse(a + "\n" + b + "\n" + c)
      == Finish(Step(Step(Step(Start, Classify(a), a), Classify(b), b), Classify(c), c))
  {
    var bc := b + "\n" + c;
    assert a + "\n" + b + "\n" + c == a + "\n" + bc;
    SplitAfterHead(a, bc);
    SplitAfterHead(b, c);
    SplitNoNewline(c);
    assert Split(a + "\n" + bc) == [a, b, c];
    RunSnoc([], a);
    RunSnoc([a], b);
    RunSnoc([a, b], c);
    assert [] + [a] == [a];
    assert [a] + [b] == [a, b];
    assert [a, b] + [c] == [a, b, c];
  }

  /** Any note whose lines hold no newline is the loop over those lines and the
      final flush. */
  lemma ParseLines(lines: seq<string>)
    requires |lines| >= 1 && forall l :: l in lines ==> '\n' !in l
    ensures Parse(Join(lines)) == Finish(Run(lines))
  {
    SplitJoin(lines);
  }

  /** A note of one blank line opens nothing: no blocks. */
  lemma BlankNote(note: string)
    requires '\n' !in note && IsBlank(note)
    ensures Parse(note) == []
  {
    BlankOrRuleKind(note);
    ParseOne(note);
  }

  /** In particular the empty note gives no blocks. */
  lemma EmptyNote()
    ensures Parse("") == []
  {
    assert Trim("") == "";
    BlankNote("");
  }

  /** A header line followed by a plain line: one header block holding both. */
  lemma HeaderThenText(h: string, t: string)
    requires '\n' !in h && '\n' !in t
    requires IsHeader(h) && Classify(t) == PlainLine
    ensures Parse(h + "\n" + t) == [Block(Header, h + "\n" + t, HeaderLevel(h))]
  {
    ParseTwo(h, t);
    assert Classify(h) == HeaderLine(HeaderLevel(h));
    assert [h] + [t] == [h, t];
    assert Join([h, t]) == h + "\n" + t;
  }

  /** Two header lines: one header block with the level of the first, whatever
      the level of the second. */
  lemma HeaderThenHeader(h1: string, h2: string)
    requires '\n' !in h1 && '\n' !in h2
    requires IsHeader(h1) && IsHeader(h2)
    ensures Parse(h1 + "\n" + h2) == [Block(Header, h1 + "\n" + h2, HeaderLevel(h1))]
  {
    ParseTwo(h1, h2);
    assert Classify(h1) == HeaderLine(HeaderLevel(h1));
    assert Classify(h2) == HeaderLine(HeaderLevel(h2));
    assert [h1] + [h2] == [h1, h2];
    assert Join([h1, h2]) == h1 + "\n" + h2;
  }

  /** A header, a `---` line and a plain line: the rule closes the header block
      and the plain line, with no block open, is dropped. */
  lemma RuleClosesHeader(h: string, r: string, t: string)
    requires '\n' !in h && '\n' !in r && '\n' !in t
    requires IsHeader(h) && IsRule(r) && Classify(t) == PlainLine
    ensures Parse(h + "\n" + r + "\n" + t) == [Block(Header, h, HeaderLevel(h))]
  {
    ParseThree(h, r, t);
    BlankOrRuleKind(r);
    assert Classify(h) == HeaderLine(HeaderLevel(h));
    RuleSteps(h, HeaderLevel(h), r, t);
  }

  /** The three steps of `RuleClosesHeader`: open, close, drop. */
  lemma RuleSteps(h: string, level: nat, r: string, t: string)
    ensures Finish(Step(Step(Step(Start, HeaderLine(level), h), RuleLine, r), PlainLine, t))
      == [Block(Header, h, level)]
  {
  }

  /** A fence line never takes an earlier branch: it starts with a backquote. */
  lemma FenceKind(f: string)
    requires IsCodeBlock(f)
    ensures Classify(f) == FenceLine
  {
    TrimKeepsFirst(f);
  }

  /** A fence, a plain line and a fence: one code block holding all three, the
      closing fence included. */
  lemma FencesMerge(f1: string, x: string, f2: string)
    requires '\n' !in f1 && '\n' !in x && '\n' !in f2
    requires IsCodeBlock(f1) && Classify(x) == PlainLine && IsCodeBlock(f2)
    ensures Parse(f1 + "\n" + x + "\n" + f2) == [Block(Code, f1 + "\n" + x + "\n" + f2, 0)]
  {
    ParseThree(f1, x, f2);
    FenceKind(f1);
    FenceKind(f2);
    FencesSteps(f1, x, f2);
    JoinThree(f1, x, f2);
  }

  /** Joining three lines. */
  lemma JoinThree(a: string, b: string, c: string)
    ensures Join([a, b, c]) == a + "\n" + b + "\n" + c
  {
    assert [a, b, c][1..] == [b, c];
    assert [b, c][1..] == [c];
    assert Join([b, c]) == b + "\n" + c;
    assert Join([a, b, c]) == a + "\n" + Join([b, c]);
  }

  /** The three steps of `FencesMerge`: open, append, append. */
  lemma FencesSteps(f1: string, x: string, f2: string)
    ensures Step(Step(Step(Start, FenceLine, f1), PlainLine, x), FenceLine, f2)
      == State([], Some(OpenBlock(Code, [f1, x, f2], 0)), 0, 0)
  {
    assert [f1] + [x] + [f2] == [f1, x, f2];
  }

  /** Two mention lines: two blocks, one each. */
  lemma MentionsSplit(m1: string, m2: string)
    requires '\n' !in m1 && '\n' !in m2
    requires Classify(m1) == MentionLine && Classify(m2) == MentionLine
    ensures Parse(m1 + "\n" + m2) == [Block(Mention, m1, 0), Block(Mention, m2, 0)]
  {
    ParseTwo(m1, m2);
  }

  /** A todo item that mentions a page is a mention: the mention test comes first. */
  lemma MentionBeatsTodo(line: string)
    requires "- [ ]" <= line && IsMention(line)
    ensures Classify(line) == MentionLine
  {
    TrimKeepsFirst(line);
  }

  /** A quoted todo item that mentions no page: one todo block holding the item
      without its quote marker. */
  lemma QuotedTodo(line: string)
    requires '\n' !in line && "> - [ ]" <= Trim(line) && !IsMention(line)
    ensures Parse(line) == [Block(Todo, AfterQuote(line), 0)]
  {
    ParseOne(line);
    QuotedTodoNotCallout(line);
    QuotedNotHeader(line);
    assert !IsCodeBlock(line) by {
      if "```" <= line {
        TrimKeepsFirst(line);
      }
    }
    assert IsTodoLine(line);
    assert Classify(line) == TodoLine(AfterQuote(line));
  }

  /** A quoted done item: one callout block holding the line as written. */
  lemma QuotedDone(line: string)
    requires '\n' !in line && "> - [x]" <= Trim(line)
    ensures Parse(line) == [Block(Callout, line, 0)]
  {
    ParseOne(line);
    QuotedDoneClassified(line);
  }

  /** The five steps of `TwoBlanksCloseHeader`: open, append, count, close, drop. */
  lemma TwoBlanksSteps(h: string, level: nat, t1: string, t2: string)
    ensures Finish(Walk(Start, [HeaderLine(level), PlainLine, BlankLine, BlankLine, PlainLine], [h, t1, "", "", t2]))
      == [Block(Header, Join([h, t1]), level)]
  {
    var k1, l1 := [HeaderLine(level)], [h];
    var k2, l2 := k1 + [PlainLine], l1 + [t1];
    var k3, l3 := k2 + [BlankLine], l2 + [""];
    var k4, l4 := k3 + [BlankLine], l3 + [""];
    WalkSnoc(Start, [], [], HeaderLine(level), h);
    assert [] + k1 == k1 && [] + l1 == l1;
    assert Walk(Start, k1, l1) == State([], Some(OpenBlock(Header, [h], level)), 0, 0);
    WalkSnoc(Start, k1, l1, PlainLine, t1);
    assert [h] + [t1] == [h, t1];
    assert Walk(Start, k2, l2) == State([], Some(OpenBlock(Header, [h, t1], level)), 0, 0);
    WalkSnoc(Start, k2, l2, BlankLine, "");
    WalkSnoc(Start, k3, l3, BlankLine, "");
    assert Walk(Start, k4, l4) == State([Block(Header, Join([h, t1]), level)], None, 0, 0);
    WalkSnoc(Start, k4, l4, PlainLine, t2);
    assert k4 + [PlainLine] == [HeaderLine(level), PlainLine, BlankLine, BlankLine, PlainLine];
    assert l4 + [t2] == [h, t1, "", "", t2];
  }

  /** A header, a plain line, two blank lines and a plain line: the second blank
      line closes the header block holding the first two lines, and the last
      line, with no block open, is dropped. */
  lemma TwoBlanksCloseHeader(h: string, t1: string, t2: string)
    requires '\n' !in h && '\n' !in t1 && '\n' !in t2
    requires IsHeader(h) && Classify(t1) == PlainLine && Classify(t2) == PlainLine
    ensures Parse(Join([h, t1, "", "", t2])) == [Block(Header, Join([h, t1]), HeaderLevel(h))]
  {
    var ls := [h, t1, "", "", t2];
    var ks := [HeaderLine(HeaderLevel(h)), PlainLine, BlankLine, BlankLine, PlainLine];
    ParseLines(ls);
    assert Trim("") == "";
    BlankOrRuleKind("");
    assert Classify(h) == HeaderLine(HeaderLevel(h));
    forall i | 0 <= i < 5
      ensures Kinds(ls)[i] == ks[i]
    {
      KindAt(ls, i);
    }
    assert Kinds(ls) == ks;
    TwoBlanksSteps(h, HeaderLevel(h), t1, t2);
  }

  /** The five steps of `SwallowedLineKeepsCount`: open, count, swallow, close, drop. */
  lemma SwallowedSteps(h: string, level: nat, q: string, t: string)
    ensures Finish(Walk(Start, [HeaderLine(level), BlankLine, CalloutLine, BlankLine, PlainLine], [h, "", q, "", t]))
      == [Block(Header, Join([h]), level)]
  {
    var k1, l1 := [HeaderLine(level)], [h];
    var k2, l2 := k1 + [BlankLine], l1 + [""];
    var k3, l3 := k2 + [CalloutLine], l2 + [q];
    var k4, l4 := k3 + [BlankLine], l3 + [""];
    WalkSnoc(Start, [], [], HeaderLine(level), h);
    assert [] + k1 == k1 && [] + l1 == l1;
    assert Walk(Start, k1, l1) == State([], Some(OpenBlock(Header, [h], level)), 0, 0);
    WalkSnoc(Start, k1, l1, BlankLine, "");
    assert Walk(Start, k2, l2) == State([], Some(OpenBlock(Header, [h], level)), 0, 1);
    WalkSnoc(Start, k2, l2, CalloutLine, q);
    assert Walk(Start, k3, l3) == State([], Some(OpenBlock(Header, [h], level)), 0, 1);
    WalkSnoc(Start, k3, l3, BlankLine, "");
    assert Walk(Start, k4, l4) == State([Block(Header, Join([h]), level)], None, 0, 0);
    WalkSnoc(Start, k4, l4, PlainLine, t);
    assert k4 + [PlainLine] == [HeaderLine(level), BlankLine, CalloutLine, BlankLine, PlainLine];
    assert l4 + [t] == [h, "", q, "", t];
  }

  /** A header, a blank line, a callout line, a blank line and a plain line: the
      header swallows the callout without resetting the blank-line counter, so
      the second blank closes the header although the two blanks are not
      adjacent, and the last line, with no block open, is dropped. */
  lemma SwallowedLineKeepsCount(h: string, q: string, t: string)
    requires '\n' !in h && '\n' !in q && '\n' !in t
    requires IsHeader(h) && Classify(q) == CalloutLine && Classify(t) == PlainLine
    ensures Parse(Join([h, "", q, "", t])) == [Block(Header, h, HeaderLevel(h))]
  {
    var ls := [h, "", q, "", t];
    var ks := [HeaderLine(HeaderLevel(h)), BlankLine, CalloutLine, BlankLine, PlainLine];
    ParseLines(ls);
    assert Trim("") == "";
    BlankOrRuleKind("");
    assert Classify(h) == HeaderLine(HeaderLevel(h));
    forall i | 0 <= i < 5
      ensures Kinds(ls)[i] == ks[i]
    {
      KindAt(ls, i);
    }
    assert Kinds(ls) == ks;
    SwallowedSteps(h, HeaderLevel(h), q, t);
    assert Join([h]) == h;
  }
}
