/** What holds of every state the loop of `parse` reaches, and what it gives for
    the output: blocks are non-empty, typed by their first line, free of blank and
    `---` lines, and their lines, read in order, are drawn in order from the input. */
module ParserInvariants {
  import opened Wrappers
  import opened Text
  import opened LineClassifier
  import opened NoteBlocks

  /** A line that can sit inside a block: no newline, not blank, not `---`. */
  ghost predicate Visible(line: string)
  {
    '\n' !in line && !IsBlank(line) && !IsRule(line)
  }

  /** The first line of a block of type `t` is a line that opens such a block,
      and the level is the header's `#` count for headers and 0 otherwise. */
  ghost predicate Opens(t: BlockType, first: string, level: nat)
  {
    match t
    case Header => IsHeader(first) && level == HeaderLevel(first)
    case Callout => IsCallout(first) && level == 0
    case Code => IsCodeBlock(first) && level == 0
    case Mention => IsMention(first) && level == 0
    case Todo => "- [ ]" <= first && level == 0
    case Done => "- [x]" <= first && level == 0
  }

  /** An open block with at least one line, every line visible, and a first line
      that matches its type and level. */
  ghost predicate WellFormed(b: OpenBlock)
  {
    && |b.lines| >= 1
    && (forall l :: l in b.lines ==> Visible(l))
    && Opens(b.blockType, b.lines[0], b.level)
  }

  /** The lines of an emitted block: its data split at newlines. */
  function Lines(b: Block): seq<string>
  {
    Split(b.data)
  }

  /** An emitted block whose lines form a well-formed open block of its type and level. */
  ghost predicate BlockWellFormed(b: Block)
  {
    WellFormed(OpenBlock(b.blockType, Lines(b), b.headerLevel))
  }

  /** The invariant of the loop: `currentHeaderLevel` is still 0, the blank-line
      counter is 0 or 1, and every block, emitted or open, is well formed. */
  ghost predicate Inv(s: State)
  {
    && s.currentHeaderLevel == 0
    && 0 <= s.emptyLineCount <= 1
    && (forall b :: b in s.blocks ==> BlockWellFormed(b))
    && (s.current.Some? ==> WellFormed(s.current.value))
  }

  /** Emitting a well-formed open block loses nothing: its lines come back from
      the data, and the emitted block is well formed. */
  lemma EmitRoundTrip(b: OpenBlock)
    requires WellFormed(b)
    ensures Lines(Emit(b)) == b.lines
    ensures BlockWellFormed(Emit(b))
  {
    forall l | l in b.lines ensures '\n' !in l {
      assert Visible(l);
    }
    SplitJoin(b.lines);
  }

  /** The line a step of branch `k` stores for `line`: todo and done items lose
      a leading quote marker, every other line is stored as it is. */
  function Stored(k: LineKind, line: string): string
  {
    if k.TodoLine? || k.DoneLine? then k.item else line
  }

  /** What the classifier guarantees about a line it puts in branch `k`. */
  ghost predicate Fits(k: LineKind, line: string)
  {
    match k
    case HeaderLine(level) => IsHeader(line) && level == HeaderLevel(line)
    case CalloutLine => IsCallout(line)
    case FenceLine => IsCodeBlock(line)
    case MentionLine => IsMention(line)
    case TodoLine(item) => item == Unquote(line) && "- [ ]" <= item
    case DoneLine(item) => item == line && "- [x]" <= line && !IsQuoted(line)
    case BlankLine => IsBlank(line)
    case RuleLine => IsRule(line)
    case PlainLine => !IsBlank(line) && !IsRule(line)
  }

  /** Every line fits the branch the classifier picks for it. */
  lemma ClassifyFits(line: string)
    ensures Fits(Classify(line), line)
  {
    var k := Classify(line);
    if k.TodoLine? {
      TodoLineShape(line);
    } else if k.DoneLine? {
      DoneLineShape(line);
    }
  }

  /** Every line of a split fits its kind. */
  lemma KindsFit(lines: seq<string>)
    ensures forall i :: 0 <= i < |lines| ==> Fits(Kinds(lines)[i], lines[i])
  {
    forall i | 0 <= i < |lines|
      ensures Fits(Kinds(lines)[i], lines[i])
    {
      KindAt(lines, i);
      ClassifyFits(lines[i]);
    }
  }

  /** Any line a step stores, as the first line of a new block or appended to the
      open one, is visible. */
  lemma StoredVisible(k: LineKind, line: string)
    requires '\n' !in line && Fits(k, line) && k != BlankLine && k != RuleLine
    ensures Visible(Stored(k, line))
  {
    match k
    case HeaderLine(_) => HeaderVisible(line);
    case CalloutLine => CalloutVisible(line);
    case FenceLine => FenceVisible(line);
    case MentionLine => MentionVisible(line);
    case TodoLine(_) => TodoVisible(line);
    case DoneLine(_) => DoneVisible(line);
    case PlainLine =>
  }

  lemma HeaderVisible(line: string)
    requires IsHeader(line)
    ensures !IsBlank(line) && !IsRule(line)
  {
    assert line[0] == '#';
    VisibleByChar(line, 0);
  }

  lemma CalloutVisible(line: string)
    requires IsQuoted(line)
    ensures !IsBlank(line) && !IsRule(line)
  {
    var t := Trim(line);
    assert t[0] == '>' && t[0] in t;
    TrimInside(line, '>');
    var i :| 0 <= i < |line| && line[i] == '>';
    VisibleByChar(line, i);
  }

  lemma FenceVisible(line: string)
    requires IsCodeBlock(line)
    ensures !IsBlank(line) && !IsRule(line)
  {
    assert line[0] == '`';
    VisibleByChar(line, 0);
  }

  lemma MentionVisible(line: string)
    requires IsMention(line)
    ensures !IsBlank(line) && !IsRule(line)
  {
    var i, j :| 0 <= i < |line| && 0 <= j < |line| && MentionAt(line, i, j);
    VisibleByChar(line, i);
  }

  lemma TodoVisible(line: string)
    requires '\n' !in line && "- [ ]" <= Unquote(line)
    ensures Visible(Unquote(line))
  {
    var u := Unquote(line);
    assert u[4] == ']';
    VisibleByChar(u, 4);
    if IsQuoted(line) {
      var t := Trim(line);
      if '\n' in u {
        TrimInside(t[1..], '\n');
        assert '\n' in t;
        TrimInside(line, '\n');
      }
    }
  }

  lemma DoneVisible(line: string)
    requires '\n' !in line && "- [x]" <= line && !IsQuoted(line)
    ensures Visible(Unquote(line))
  {
    assert line[4] == ']';
    VisibleByChar(line, 4);
  }

  /** Closing the open block keeps every emitted block well formed. */
  lemma AddBlockInv(s: State)
    requires Inv(s)
    ensures forall b :: b in AddBlock(s.blocks, s.current) ==> BlockWellFormed(b)
  {
    if s.current.Some? {
      EmitRoundTrip(s.current.value);
    }
  }

  /** Closing the open block and opening a well-formed one keeps the invariant. */
  lemma ReopenInv(s: State, b: OpenBlock)
    requires Inv(s) && WellFormed(b)
    ensures Inv(Reopen(s, b))
  {
    AddBlockInv(s);
  }

  /** Appending a visible line to a well-formed block keeps it well formed. */
  lemma AppendWellFormed(b: OpenBlock, line: string)
    requires WellFormed(b) && Visible(line)
    ensures WellFormed(Append(b, line))
  {
    assert Append(b, line).lines[0] == b.lines[0];
  }

  /** A blank or `---` line keeps the invariant: at most it closes the open block. */
  lemma StepInvClosing(s: State, k: LineKind, line: string)
    requires Inv(s) && (k == BlankLine || k == RuleLine)
    ensures Inv(Step(s, k, line))
  {
    AddBlockInv(s);
  }

  /** Under an open header, a visible line is appended or ignored. */
  lemma StepInvUnderHeader(s: State, k: LineKind, line: string)
    requires Inv(s) && IsOpen(s, Header) && '\n' !in line && Fits(k, line)
    requires k != BlankLine && k != RuleLine
    ensures Inv(Step(s, k, line))
  {
    if k.HeaderLine? || k == PlainLine {
      StoredVisible(k, line);
      AppendWellFormed(s.current.value, line);
    }
  }

  /** Outside a header, a visible line is appended, opens a block, or is ignored. */
  lemma StepInvOutside(s: State, k: LineKind, line: string)
    requires Inv(s) && !IsOpen(s, Header) && '\n' !in line && Fits(k, line)
    requires k != BlankLine && k != RuleLine
    ensures Inv(Step(s, k, line))
  {
    StoredVisible(k, line);
    var x := Stored(k, line);
    match k
    case HeaderLine(level) => ReopenInv(s, OpenBlock(Header, [line], level));
    case CalloutLine =>
      if IsOpen(s, Callout) {
        AppendWellFormed(s.current.value, line);
      } else {
        ReopenInv(s, OpenBlock(Callout, [line], 0));
      }
    case FenceLine =>
      if IsOpen(s, Code) {
        AppendWellFormed(s.current.value, line);
      } else {
        ReopenInv(s, OpenBlock(Code, [line], 0));
      }
    case MentionLine => ReopenInv(s, OpenBlock(Mention, [line], 0));
    case TodoLine(_) => ReopenInv(s, OpenBlock(Todo, [x], 0));
    case DoneLine(_) => ReopenInv(s, OpenBlock(Done, [x], 0));
    case PlainLine =>
      if s.current.Some? {
        AppendWellFormed(s.current.value, line);
      }
  }

  /** One step keeps the invariant. */
  lemma StepInv(s: State, k: LineKind, line: string)
    requires Inv(s) && '\n' !in line && Fits(k, line)
    ensures Inv(Step(s, k, line))
  {
    if k == BlankLine || k == RuleLine {
      StepInvClosing(s, k, line);
    } else if IsOpen(s, Header) {
      StepInvUnderHeader(s, k, line);
    } else {
      StepInvOutside(s, k, line);
    }
  }

  /** Lines without newlines, each fitting its kind, keep the invariant. */
  lemma {:induction false} WalkInv(s: State, kinds: seq<LineKind>, lines: seq<string>)
    requires |kinds| == |lines| && Inv(s)
    requires forall i :: 0 <= i < |lines| ==> '\n' !in lines[i] && Fits(kinds[i], lines[i])
    ensures Inv(Walk(s, kinds, lines))
  {
    if |lines| > 0 {
      var n := |lines| - 1;
      WalkInv(s, kinds[..n], lines[..n]);
      StepInv(Walk(s, kinds[..n], lines[..n]), kinds[n], lines[n]);
    }
  }

  /** Every state the loop reaches over newline-free lines satisfies the invariant. */
  lemma RunInv(lines: seq<string>)
    requires forall l :: l in lines ==> '\n' !in l
    ensures Inv(Run(lines))
  {
    KindsFit(lines);
    forall i | 0 <= i < |lines|
      ensures '\n' !in lines[i]
    {
      assert lines[i] in lines;
    }
    WalkInv(Start, Kinds(lines), lines);
  }

  /** Every block `parse` returns is well formed: it has at least one line, no
      line is blank or `---`, its first line opens its type, and its header
      level is the first line's `#` count for headers and 0 otherwise. */
  lemma ParseWellFormed(content: string)
    ensures forall b :: b in Parse(content) ==> BlockWellFormed(b)
  {
    var s := Run(Split(content));
    RunInv(Split(content));
    if s.current.Some? {
      EmitRoundTrip(s.current.value);
    }
  }

  /** The lines of a sequence of emitted blocks, one block after the other. */
  function Flatten(bs: seq<Block>): seq<string>
  {
    if |bs| == 0 then [] else Flatten(bs[..|bs| - 1]) + Lines(bs[|bs| - 1])
  }

  /** The lines of the open block, or none. */
  function CurrentLines(s: State): seq<string>
  {
    match s.current
    case None => []
    case Some(b) => b.lines
  }

  /** Every line stored so far, in block order. */
  function AllLines(s: State): seq<string>
  {
    Flatten(s.blocks) + CurrentLines(s)
  }

  /** Emitting the open block moves its lines into the emitted blocks unchanged. */
  lemma AddBlockLines(s: State)
    requires Inv(s)
    ensures Flatten(AddBlock(s.blocks, s.current)) == AllLines(s)
  {
    if s.current.Some? {
      EmitRoundTrip(s.current.value);
      assert AddBlock(s.blocks, s.current)[..|s.blocks|] == s.blocks;
    }
  }

  /** A stored line comes from an input line: it is the line itself, or the
      text after the quote marker of a quoted line. */
  ghost predicate Derived(stored: string, line: string)
  {
    stored == line || (IsQuoted(line) && stored == AfterQuote(line))
  }

  /** `xs` can be read off `ys` by picking lines in order, each picked line
      possibly unquoted. */
  ghost predicate DerivedSubseq(xs: seq<string>, ys: seq<string>)
    decreases |ys|
  {
    if |xs| == 0 then true
    else if |ys| == 0 then false
    else
      || (Derived(xs[|xs| - 1], ys[|ys| - 1]) && DerivedSubseq(xs[..|xs| - 1], ys[..|ys| - 1]))
      || DerivedSubseq(xs, ys[..|ys| - 1])
  }

  /** Opening a new block after closing the open one stores exactly its first line. */
  lemma ReopenLines(s: State, b: OpenBlock)
    requires Inv(s) && |b.lines| == 1
    ensures AllLines(Reopen(s, b)) == AllLines(s) + b.lines
  {
    AddBlockLines(s);
  }

  /** Appending to the open block stores exactly the appended line. */
  lemma AppendLines(s: State, x: string, count: int)
    requires s.current.Some?
    ensures AllLines(s.(current := Some(Append(s.current.value, x)))) == AllLines(s) + [x]
    ensures AllLines(s.(current := Some(Append(s.current.value, x)), emptyLineCount := count))
      == AllLines(s) + [x]
  {
  }

  /** A stored line is derived from its input line. */
  lemma StoredDerived(k: LineKind, line: string)
    requires Fits(k, line)
    ensures Derived(Stored(k, line), line)
  {
  }

  /** A step either stores nothing or stores exactly the line `Stored` gives. */
  lemma StepLines(s: State, k: LineKind, line: string)
    requires Inv(s) && '\n' !in line && Fits(k, line)
    ensures var t := Step(s, k, line);
      || AllLines(t) == AllLines(s)
      || AllLines(t) == AllLines(s) + [Stored(k, line)]
  {
    var x := Stored(k, line);
    if k == BlankLine || k == RuleLine {
      AddBlockLines(s);
    } else if IsOpen(s, Header) {
      if k.HeaderLine? || k == PlainLine {
        AppendLines(s, line, 0);
      }
    } else {
      match k
      case HeaderLine(level) => ReopenLines(s, OpenBlock(Header, [line], level));
      case CalloutLine =>
        if IsOpen(s, Callout) {
          AppendLines(s, line, 0);
        } else {
          ReopenLines(s, OpenBlock(Callout, [line], 0));
        }
      case FenceLine =>
        if IsOpen(s, Code) {
          AppendLines(s, line, 0);
        } else {
          ReopenLines(s, OpenBlock(Code, [line], 0));
        }
      case MentionLine => ReopenLines(s, OpenBlock(Mention, [line], 0));
      case TodoLine(_) => ReopenLines(s, OpenBlock(Todo, [x], 0));
      case DoneLine(_) => ReopenLines(s, OpenBlock(Done, [x], 0));
      case PlainLine =>
        if s.current.Some? {
          AppendLines(s, line, 0);
        }
    }
  }

  /** Adding an input line keeps a derived subsequence one. */
  lemma SubseqSkip(xs: seq<string>, ys: seq<string>, y: string)
    requires DerivedSubseq(xs, ys)
    ensures DerivedSubseq(xs, ys + [y])
  {
    if |xs| > 0 {
      assert (ys + [y])[..|ys|] == ys;
    }
  }

  /** Adding an input line together with a line derived from it keeps a derived
      subsequence one. */
  lemma SubseqTake(xs: seq<string>, ys: seq<string>, x: string, y: string)
    requires DerivedSubseq(xs, ys) && Derived(x, y)
    ensures DerivedSubseq(xs + [x], ys + [y])
  {
    assert (xs + [x])[..|xs|] == xs;
    assert (ys + [y])[..|ys|] == ys;
  }

  /** One step keeps the stored lines a derived subsequence of the input read so far. */
  lemma StepSubseq(s: State, k: LineKind, line: string, read: seq<string>)
    requires Inv(s) && '\n' !in line && Fits(k, line)
    requires DerivedSubseq(AllLines(s), read)
    ensures DerivedSubseq(AllLines(Step(s, k, line)), read + [line])
  {
    StepLines(s, k, line);
    StoredDerived(k, line);
    if AllLines(Step(s, k, line)) == AllLines(s) {
      SubseqSkip(AllLines(s), read, line);
    } else {
      SubseqTake(AllLines(s), read, Stored(k, line), line);
    }
  }

  /** The lines stored after any prefix of the input are a derived subsequence of it. */
  lemma {:induction false} WalkSubseq(kinds: seq<LineKind>, lines: seq<string>)
    requires |kinds| == |lines|
    requires forall i :: 0 <= i < |lines| ==> '\n' !in lines[i] && Fits(kinds[i], lines[i])
    ensures DerivedSubseq(AllLines(Walk(Start, kinds, lines)), lines)
  {
    if |lines| > 0 {
      var n := |lines| - 1;
      var init := lines[..n];
      WalkSubseq(kinds[..n], init);
      WalkInv(Start, kinds[..n], init);
      StepSubseq(Walk(Start, kinds[..n], init), kinds[n], lines[n], init);
      assert lines == init + [lines[n]];
    }
  }

  /** The lines of all blocks `parse` returns, read in order, are picked in
      order from the input's lines, each one unchanged except that a quoted
      todo item may have lost its quote marker. */
  lemma ParseSubseq(content: string)
    ensures DerivedSubseq(Flatten(Parse(content)), Split(content))
  {
    var lines := Split(content);
    KindsFit(lines);
    forall i | 0 <= i < |lines|
      ensures '\n' !in lines[i]
    {
      assert lines[i] in lines;
    }
    RunInv(lines);
    WalkSubseq(Kinds(lines), lines);
    AddBlockLines(Run(lines));
  }
}
