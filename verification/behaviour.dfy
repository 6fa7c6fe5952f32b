/** How `parse` treats runs of lines, stated about the states the loop reaches:
    header blocks absorb later headers and swallow other block starts, and close
    only on the blank line that brings the blank counter to 2 or on a `---`;
    callout and fence lines merge; mention, todo and done lines each start a
    block of their own; blank and `---` lines never close anything but a header. */
module ParserBehaviour {
  import opened Wrappers
  import opened Text
  import opened LineClassifier
  import opened NoteBlocks

  /** No step assigns `currentHeaderLevel`. */
  lemma StepKeepsHeaderLevel(s: State, k: LineKind, line: string)
    ensures Step(s, k, line).currentHeaderLevel == s.currentHeaderLevel
  {
  }

  /** A step keeps the blank-line counter at 0 or 1. */
  lemma StepKeepsCounter(s: State, k: LineKind, line: string)
    requires 0 <= s.emptyLineCount <= 1
    ensures 0 <= Step(s, k, line).emptyLineCount <= 1
  {
  }

  /** Steps from a state with `currentHeaderLevel` 0 and the counter at 0 or 1
      keep both so. */
  lemma {:induction false} WalkCounters(s: State, kinds: seq<LineKind>, lines: seq<string>)
    requires |kinds| == |lines|
    requires s.currentHeaderLevel == 0 && 0 <= s.emptyLineCount <= 1
    ensures Walk(s, kinds, lines).currentHeaderLevel == 0
    ensures 0 <= Walk(s, kinds, lines).emptyLineCount <= 1
  {
    if |lines| > 0 {
      var n := |lines| - 1;
      WalkCounters(s, kinds[..n], lines[..n]);
      StepKeepsHeaderLevel(Walk(s, kinds[..n], lines[..n]), kinds[n], lines[n]);
      StepKeepsCounter(Walk(s, kinds[..n], lines[..n]), kinds[n], lines[n]);
    }
  }

  /** `currentHeaderLevel` is never assigned after its initialisation, so it is 0
      after any number of lines and the branch that closes a header on a
      higher-level header can never be taken; and between lines the blank-line
      counter is 0 or 1, since the blank line that would make it 2 resets it. */
  lemma RunCounters(lines: seq<string>)
    ensures Run(lines).currentHeaderLevel == 0
    ensures 0 <= Run(lines).emptyLineCount <= 1
  {
    WalkCounters(Start, Kinds(lines), lines);
  }

  /** The dead branch, were it taken, would store the new header line twice:
      the fresh block is created holding the line and the line is pushed again. */
  lemma DeadBranchDuplicatesLine(s: State, level: nat, line: string)
    requires IsOpen(s, Header) && level < s.currentHeaderLevel
    ensures Step(s, HeaderLine(level), line).current == Some(OpenBlock(Header, [line, line], level))
    ensures Step(s, HeaderLine(level), line).blocks == s.blocks + [Emit(s.current.value)]
  {
  }

  /** While a header block is open, a later header line of ANY level is appended
      to it: nothing is emitted and the block keeps its level. The state is one
      the loop reaches, so `currentHeaderLevel` is 0 (`RunCounters`). */
  lemma HeaderAbsorbsHeader(s: State, line: string)
    requires IsOpen(s, Header) && s.currentHeaderLevel == 0 && IsHeader(line)
    ensures Step(s, Classify(line), line) == s.(current := Some(Append(s.current.value, line)), emptyLineCount := 0)
  {
    assert Classify(line) == HeaderLine(HeaderLevel(line));
  }

  /** While a header block is open, callout, fence, mention, todo and done lines
      are dropped: the state, blank-line counter included, does not change. */
  lemma HeaderSwallows(s: State, k: LineKind, line: string)
    requires IsOpen(s, Header)
    requires k == CalloutLine || k == FenceLine || k == MentionLine || k.TodoLine? || k.DoneLine?
    ensures Step(s, k, line) == s
  {
  }

  /** An open header block is closed by a line exactly when the line is the
      blank line that finds the counter at 1 (lines the header swallows do not
      reset it, so the blanks need not be adjacent) or a `---` line; closing
      emits it and leaves no block open. The state is one the loop reaches, with
      the counters `RunCounters` describes. */
  lemma HeaderCloses(s: State, line: string)
    requires IsOpen(s, Header) && s.currentHeaderLevel == 0 && 0 <= s.emptyLineCount <= 1
    ensures var t := Step(s, Classify(line), line);
      var closes := (IsBlank(line) && s.emptyLineCount == 1) || IsRule(line);
      && (|t.blocks| > |s.blocks| <==> closes)
      && (closes ==> t == State(s.blocks + [Emit(s.current.value)], None, 0, 0))
      && (!closes ==> IsOpen(t, Header) && t.blocks == s.blocks)
  {
    var k := Classify(line);
    StepUnderHeaderCloses(s, k, line);
    if IsBlank(line) || IsRule(line) {
      BlankOrRuleKind(line);
    } else {
      VisibleKind(line);
    }
  }

  /** `HeaderCloses` for the states the loop reaches: after any prefix of the
      lines that leaves a header block open, the next line closes it exactly
      when it is the blank line that brings the counter to 2 or a `---` line. */
  lemma RunHeaderCloses(lines: seq<string>, line: string)
    requires IsOpen(Run(lines), Header)
    ensures var s := Run(lines);
      var t := Run(lines + [line]);
      var closes := (IsBlank(line) && s.emptyLineCount == 1) || IsRule(line);
      && (|t.blocks| > |s.blocks| <==> closes)
      && (closes ==> t.current.None? && t.blocks == s.blocks + [Emit(s.current.value)] && t.emptyLineCount == 0)
      && (!closes ==> IsOpen(t, Header) && t.blocks == s.blocks)
  {
    RunSnoc(lines, line);
    RunCounters(lines);
    HeaderCloses(Run(lines), line);
  }

  /** `HeaderSwallows` for the states the loop reaches: after any prefix that
      leaves a header block open, a callout, fence, mention, todo or done line
      changes nothing. */
  lemma RunHeaderSwallows(lines: seq<string>, line: string)
    requires IsOpen(Run(lines), Header)
    requires var k := Classify(line);
      k == CalloutLine || k == FenceLine || k == MentionLine || k.TodoLine? || k.DoneLine?
    ensures Run(lines + [line]) == Run(lines)
  {
    RunSnoc(lines, line);
    HeaderSwallows(Run(lines), Classify(line), line);
  }

  /** `HeaderAbsorbsHeader` for the states the loop reaches. */
  lemma RunHeaderAbsorbsHeader(lines: seq<string>, line: string)
    requires IsOpen(Run(lines), Header) && IsHeader(line)
    ensures Run(lines + [line]).blocks == Run(lines).blocks
    ensures Run(lines + [line]).current == Some(Append(Run(lines).current.value, line))
    ensures Run(lines + [line]).emptyLineCount == 0
  {
    RunSnoc(lines, line);
    RunCounters(lines);
    HeaderAbsorbsHeader(Run(lines), line);
  }

  /** Outside a header block, a header line flushes whatever block is open (a
      code block included), opens a header block holding only the line at its
      `#` count, and resets the blank-line counter. */
  lemma StepHeaderOutside(s: State, line: string)
    requires !IsOpen(s, Header) && IsHeader(line)
    ensures var t := Step(s, Classify(line), line);
      && t.blocks == Finish(s)
      && t.current == Some(OpenBlock(Header, [line], HeaderLevel(line)))
      && t.emptyLineCount == 0
      && t.currentHeaderLevel == s.currentHeaderLevel
  {
    assert Classify(line) == HeaderLine(HeaderLevel(line));
  }

  /** `StepHeaderOutside` for the states the loop reaches: after any prefix that
      leaves no header block open, a header line emits the open block, if any,
      and starts a header block of its own. */
  lemma RunHeaderOutside(lines: seq<string>, line: string)
    requires !IsOpen(Run(lines), Header) && IsHeader(line)
    ensures Run(lines + [line]).blocks == Finish(Run(lines))
    ensures Run(lines + [line]).current == Some(OpenBlock(Header, [line], HeaderLevel(line)))
    ensures Run(lines + [line]).emptyLineCount == 0
  {
    RunSnoc(lines, line);
    StepHeaderOutside(Run(lines), line);
  }

  /** Walking two stretches of lines one after the other is walking both. */
  lemma {:induction false} WalkThen(s: State, ks1: seq<LineKind>, ls1: seq<string>, ks2: seq<LineKind>, ls2: seq<string>)
    requires |ks1| == |ls1| && |ks2| == |ls2|
    ensures Walk(s, ks1 + ks2, ls1 + ls2) == Walk(Walk(s, ks1, ls1), ks2, ls2)
    decreases |ls2|
  {
    if |ls2| == 0 {
      assert ks1 + ks2 == ks1;
      assert ls1 + ls2 == ls1;
    } else {
      var n := |ls2| - 1;
      WalkThen(s, ks1, ls1, ks2[..n], ls2[..n]);
      assert ks1 + ks2 == (ks1 + ks2[..n]) + [ks2[n]];
      assert ls1 + ls2 == (ls1 + ls2[..n]) + [ls2[n]];
      WalkSnoc(s, ks1 + ks2[..n], ls1 + ls2[..n], ks2[n], ls2[n]);
    }
  }

  /** Classifying two stretches of lines one after the other. */
  lemma {:induction false} KindsThen(ls1: seq<string>, ls2: seq<string>)
    ensures Kinds(ls1 + ls2) == Kinds(ls1) + Kinds(ls2)
    decreases |ls2|
  {
    if |ls2| == 0 {
      assert ls1 + ls2 == ls1;
    } else {
      var n := |ls2| - 1;
      KindsThen(ls1, ls2[..n]);
      assert (ls1 + ls2)[..|ls1 + ls2| - 1] == ls1 + ls2[..n];
      assert (ls1 + ls2)[|ls1 + ls2| - 1] == ls2[n];
    }
  }

  /** The loop over `prefix` and then `run` is the loop over `run` started in
      the state `prefix` leaves. */
  lemma RunThen(prefix: seq<string>, run: seq<string>)
    ensures Run(prefix + run) == Walk(Run(prefix), Kinds(run), run)
  {
    KindsThen(prefix, run);
    WalkThen(Start, Kinds(prefix), prefix, Kinds(run), run);
  }

  /** One step under an open header, by kind of line. */
  lemma StepUnderHeaderCloses(s: State, k: LineKind, line: string)
    requires IsOpen(s, Header) && s.currentHeaderLevel == 0 && 0 <= s.emptyLineCount <= 1
    ensures var t := Step(s, k, line);
      var closes := (k == BlankLine && s.emptyLineCount == 1) || k == RuleLine;
      && (|t.blocks| > |s.blocks| <==> closes)
      && (closes ==> t == State(s.blocks + [Emit(s.current.value)], None, 0, 0))
      && (!closes ==> IsOpen(t, Header) && t.blocks == s.blocks)
  {
  }

  /** One step of a run under an open header with no blank or `---` line: header
      and plain lines are appended, the rest swallowed. */
  lemma StepUnderHeader(s: State, k: LineKind, line: string)
    requires IsOpen(s, Header) && s.currentHeaderLevel == 0
    requires k != BlankLine && k != RuleLine
    ensures Step(s, k, line).blocks == s.blocks
    ensures Step(s, k, line).current == Some(s.current.value.(lines := s.current.value.lines
      + (if k.HeaderLine? || k == PlainLine then [line] else [])))
  {
    var b := s.current.value;
    if !(k.HeaderLine? || k == PlainLine) {
      assert b.(lines := b.lines + []) == b;
    }
  }

  /** The lines among `lines` that a header block keeps: header and plain lines. */
  function Kept(kinds: seq<LineKind>, lines: seq<string>): seq<string>
    requires |kinds| == |lines|
  {
    if |lines| == 0 then []
    else
      var k := kinds[|kinds| - 1];
      Kept(kinds[..|kinds| - 1], lines[..|lines| - 1])
        + (if k.HeaderLine? || k == PlainLine then [lines[|lines| - 1]] else [])
  }

  /** Under an open header block, lines none of which is blank or `---` close
      nothing: the block gains exactly the header and plain lines. */
  lemma {:induction false} WalkUnderHeader(s: State, kinds: seq<LineKind>, lines: seq<string>)
    requires |kinds| == |lines|
    requires IsOpen(s, Header) && s.currentHeaderLevel == 0
    requires forall i :: 0 <= i < |kinds| ==> kinds[i] != BlankLine && kinds[i] != RuleLine
    ensures Walk(s, kinds, lines).currentHeaderLevel == 0
    ensures Walk(s, kinds, lines).blocks == s.blocks
    ensures Walk(s, kinds, lines).current
      == Some(s.current.value.(lines := s.current.value.lines + Kept(kinds, lines)))
  {
    if |lines| > 0 {
      var ks := kinds[..|kinds| - 1];
      var ls := lines[..|lines| - 1];
      var k := kinds[|kinds| - 1];
      var last := lines[|lines| - 1];
      WalkUnderHeader(s, ks, ls);
      var w := Walk(s, ks, ls);
      StepUnderHeader(w, k, last);
      StepKeepsHeaderLevel(w, k, last);
      var b := s.current.value;
      var extra := if k.HeaderLine? || k == PlainLine then [last] else [];
      assert Kept(kinds, lines) == Kept(ks, ls) + extra;
      assert b.lines + Kept(kinds, lines) == (b.lines + Kept(ks, ls)) + extra;
    } else {
      var b := s.current.value;
      assert b.(lines := b.lines + []) == b;
    }
  }

  /** The lines a header block keeps from a run of lines. */
  function KeptUnderHeader(run: seq<string>): seq<string>
  {
    Kept(Kinds(run), run)
  }

  /** Whether a line leaves an open header block open: it is neither blank nor `---`. */
  predicate KeepsHeader(line: string)
  {
    var k := Classify(line);
    k != BlankLine && k != RuleLine
  }

  /** A run of lines none of which is blank or `---` leaves an open header block
      open: it gains exactly the run's header and plain lines, every other line
      is swallowed, and nothing is emitted. */
  lemma HeaderRun(prefix: seq<string>, run: seq<string>)
    requires IsOpen(Run(prefix), Header)
    requires forall l :: l in run ==> KeepsHeader(l)
    ensures Run(prefix + run).blocks == Run(prefix).blocks
    ensures Run(prefix + run).current
      == Some(Run(prefix).current.value.(lines := Run(prefix).current.value.lines + KeptUnderHeader(run)))
  {
    var s := Run(prefix);
    RunThen(prefix, run);
    RunCounters(prefix);
    var ks := Kinds(run);
    forall i | 0 <= i < |ks|
      ensures ks[i] != BlankLine && ks[i] != RuleLine
    {
      assert run[i] in run;
      KindAt(run, i);
    }
    WalkUnderHeader(s, ks, run);
  }

  /** The plain lines among `lines`. */
  function PlainOf(kinds: seq<LineKind>, lines: seq<string>): seq<string>
    requires |kinds| == |lines|
  {
    if |lines| == 0 then []
    else
      PlainOf(kinds[..|kinds| - 1], lines[..|lines| - 1])
        + (if kinds[|kinds| - 1] == PlainLine then [lines[|lines| - 1]] else [])
  }

  /** One step of a plain, blank or `---` line outside a header block. */
  lemma StepOutsideHeader(s: State, k: LineKind, line: string)
    requires !IsOpen(s, Header) && (k == PlainLine || k == BlankLine || k == RuleLine)
    ensures Step(s, k, line).blocks == s.blocks
    ensures s.current.None? ==> Step(s, k, line).current.None?
    ensures s.current.Some? ==>
      Step(s, k, line).current
        == Some(s.current.value.(lines := s.current.value.lines + (if k == PlainLine then [line] else [])))
  {
    if s.current.Some? && k != PlainLine {
      var b := s.current.value;
      assert b.(lines := b.lines + []) == b;
    }
  }

  /** Outside a header block, plain, blank and `---` lines close nothing: the
      open block, if any, gains exactly the plain lines. */
  lemma {:induction false} WalkInert(s: State, kinds: seq<LineKind>, lines: seq<string>)
    requires |kinds| == |lines| && !IsOpen(s, Header)
    requires forall i :: 0 <= i < |kinds| ==> kinds[i] == PlainLine || kinds[i] == BlankLine || kinds[i] == RuleLine
    ensures Walk(s, kinds, lines).blocks == s.blocks
    ensures s.current.None? ==> Walk(s, kinds, lines).current.None?
    ensures s.current.Some? ==>
      Walk(s, kinds, lines).current
        == Some(s.current.value.(lines := s.current.value.lines + PlainOf(kinds, lines)))
  {
    if |lines| > 0 {
      var ks := kinds[..|kinds| - 1];
      var ls := lines[..|lines| - 1];
      var k := kinds[|kinds| - 1];
      var last := lines[|lines| - 1];
      WalkInert(s, ks, ls);
      StepOutsideHeader(Walk(s, ks, ls), k, last);
      if s.current.Some? {
        var b := s.current.value;
        var extra := if k == PlainLine then [last] else [];
        assert PlainOf(kinds, lines) == PlainOf(ks, ls) + extra;
        assert b.lines + PlainOf(kinds, lines) == (b.lines + PlainOf(ks, ls)) + extra;
      }
    } else if s.current.Some? {
      var b := s.current.value;
      assert b.(lines := b.lines + []) == b;
    }
  }

  /** Whether a line is plain, blank or `---`: a line that opens nothing. */
  predicate Inert(line: string)
  {
    var k := Classify(line);
    k == PlainLine || k == BlankLine || k == RuleLine
  }

  /** Outside a header block, blank, `---` and plain lines close nothing: the
      open block (if any) gains exactly the plain lines, and with no block open
      they are all dropped. */
  lemma PlainRun(prefix: seq<string>, run: seq<string>)
    requires !IsOpen(Run(prefix), Header)
    requires forall l :: l in run ==> Inert(l)
    ensures Run(prefix + run).blocks == Run(prefix).blocks
    ensures Run(prefix).current.None? ==> Run(prefix + run).current.None?
    ensures Run(prefix).current.Some? ==>
      Run(prefix + run).current
        == Some(Run(prefix).current.value.(lines := Run(prefix).current.value.lines + PlainOf(Kinds(run), run)))
  {
    var s := Run(prefix);
    RunThen(prefix, run);
    var ks := Kinds(run);
    forall i | 0 <= i < |ks|
      ensures ks[i] == PlainLine || ks[i] == BlankLine || ks[i] == RuleLine
    {
      assert run[i] in run;
      KindAt(run, i);
    }
    WalkInert(s, ks, run);
  }

  /** The kind of line that extends an open block of type `t`, for the two types
      that merge. */
  function Extender(t: BlockType): LineKind
    requires t == Callout || t == Code
  {
    if t == Callout then CalloutLine else FenceLine
  }

  /** One callout (fence) step outside a header block: appended to an open
      callout (code) block, otherwise closing the open block and opening one. */
  lemma StepMerge(s: State, t: BlockType, line: string)
    requires t == Callout || t == Code
    requires !IsOpen(s, Header)
    ensures IsOpen(s, t) ==> Step(s, Extender(t), line) == s.(current := Some(Append(s.current.value, line)))
    ensures !IsOpen(s, t) ==> Step(s, Extender(t), line) == Reopen(s, OpenBlock(t, [line], 0))
  {
  }

  /** Outside a header block, consecutive callout lines (or fence lines) make ONE
      block holding all of them, after the block open before is emitted. */
  lemma {:induction false} WalkMerging(s: State, kinds: seq<LineKind>, lines: seq<string>, t: BlockType)
    requires t == Callout || t == Code
    requires |kinds| == |lines| >= 1
    requires forall i :: 0 <= i < |kinds| ==> kinds[i] == Extender(t)
    requires !IsOpen(s, Header) && !IsOpen(s, t)
    ensures Walk(s, kinds, lines).blocks == AddBlock(s.blocks, s.current)
    ensures Walk(s, kinds, lines).current == Some(OpenBlock(t, lines, 0))
  {
    var ks := kinds[..|kinds| - 1];
    var ls := lines[..|lines| - 1];
    var last := lines[|lines| - 1];
    if |lines| > 1 {
      WalkMerging(s, ks, ls, t);
      StepMerge(Walk(s, ks, ls), t, last);
      assert ls + [last] == lines;
    } else {
      StepMerge(s, t, last);
      assert [last] == lines;
    }
  }

  /** Whether a line is a callout line (`t` is `Callout`) or a fence (`t` is `Code`). */
  predicate Extends(line: string, t: BlockType)
    requires t == Callout || t == Code
  {
    Classify(line) == Extender(t)
  }

  /** Outside a header block, a run of callout lines (or of fence lines) makes
      ONE block holding all of them: the block open before is emitted, and a
      closing fence does not close a code block. */
  lemma MergingRun(prefix: seq<string>, run: seq<string>, t: BlockType)
    requires t == Callout || t == Code
    requires |run| >= 1
    requires forall l :: l in run ==> Extends(l, t)
    requires !IsOpen(Run(prefix), Header) && !IsOpen(Run(prefix), t)
    ensures Run(prefix + run).blocks == Finish(Run(prefix))
    ensures Run(prefix + run).current == Some(OpenBlock(t, run, 0))
  {
    var s := Run(prefix);
    RunThen(prefix, run);
    var ks := Kinds(run);
    forall i | 0 <= i < |ks|
      ensures ks[i] == Extender(t)
    {
      assert run[i] in run;
      KindAt(run, i);
    }
    WalkMerging(s, ks, run, t);
  }

  /** Whether a branch opens a block of its own: mention, todo and done lines. */
  predicate IsSingle(k: LineKind)
  {
    k == MentionLine || k.TodoLine? || k.DoneLine?
  }

  /** The block a mention, todo or done line opens: the line itself for a
      mention, the line without a leading quote marker for todo and done items. */
  function SingleOf(k: LineKind, line: string): OpenBlock
    requires IsSingle(k)
  {
    match k
    case MentionLine => OpenBlock(Mention, [line], 0)
    case TodoLine(item) => OpenBlock(Todo, [item], 0)
    case DoneLine(item) => OpenBlock(Done, [item], 0)
  }

  /** The emitted blocks of such lines, one each. */
  function Singles(kinds: seq<LineKind>, lines: seq<string>): seq<Block>
    requires |kinds| == |lines|
    requires forall i :: 0 <= i < |kinds| ==> IsSingle(kinds[i])
  {
    if |lines| == 0 then []
    else
      Singles(kinds[..|kinds| - 1], lines[..|lines| - 1])
        + [Emit(SingleOf(kinds[|kinds| - 1], lines[|lines| - 1]))]
  }

  /** One mention, todo or done step outside a header block. */
  lemma StepSingle(s: State, k: LineKind, line: string)
    requires !IsOpen(s, Header) && IsSingle(k)
    ensures Step(s, k, line) == Reopen(s, SingleOf(k, line))
  {
  }

  /** Outside a header block, each mention, todo or done line closes the block
      before it and opens its own. */
  lemma {:induction false} WalkSplitting(s: State, kinds: seq<LineKind>, lines: seq<string>)
    requires |kinds| == |lines| >= 1
    requires forall i :: 0 <= i < |kinds| ==> IsSingle(kinds[i])
    requires !IsOpen(s, Header)
    ensures Walk(s, kinds, lines).blocks
      == AddBlock(s.blocks, s.current) + Singles(kinds[..|kinds| - 1], lines[..|lines| - 1])
    ensures Walk(s, kinds, lines).current == Some(SingleOf(kinds[|kinds| - 1], lines[|lines| - 1]))
  {
    var ks := kinds[..|kinds| - 1];
    var ls := lines[..|lines| - 1];
    var k := kinds[|kinds| - 1];
    var last := lines[|lines| - 1];
    if |lines| > 1 {
      WalkSplitting(s, ks, ls);
      StepSingle(Walk(s, ks, ls), k, last);
      assert ks[..|ks| - 1] == kinds[..|kinds| - 2];
      assert ls[..|ls| - 1] == lines[..|lines| - 2];
    } else {
      StepSingle(s, k, last);
    }
  }

  /** Outside a header block, every mention, todo or done line closes the block
      before it and opens its own: a run of n such lines emits n-1 one-line
      blocks after the block open before, and leaves the last one open. */
  lemma SplittingRun(prefix: seq<string>, run: seq<string>)
    requires |run| >= 1
    requires forall i :: 0 <= i < |run| ==> IsSingle(Kinds(run)[i])
    requires !IsOpen(Run(prefix), Header)
    ensures Run(prefix + run).blocks
      == Finish(Run(prefix)) + Singles(Kinds(run)[..|run| - 1], run[..|run| - 1])
    ensures Run(prefix + run).current == Some(SingleOf(Kinds(run)[|run| - 1], run[|run| - 1]))
  {
    RunThen(prefix, run);
    WalkSplitting(Run(prefix), Kinds(run), run);
  }
}
