/** `noteBlocksParser.parse`: a one-pass state machine over the lines of a note
    that groups them into typed blocks. One call of `Step` is one iteration of
    the source's `for` loop; `Run` folds it over a prefix of the lines; `Parse`
    adds the final flush. */
module NoteBlocks {
  import opened Wrappers
  import opened Text
  import opened LineClassifier

  /** The `blockType` strings the parser produces. */
  datatype BlockType = Callout | Code | Header | Mention | Todo | Done

  /** A block still being collected (`createBlock`): its type, the lines
      gathered so far, and its header level (0 for every other type). */
  datatype OpenBlock = OpenBlock(blockType: BlockType, lines: seq<string>, level: nat)

  /** An emitted block (what `addBlock` pushes), without `page` and `mtime`. */
  datatype Block = Block(blockType: BlockType, data: string, headerLevel: nat)

  /** The loop's variables between iterations: the blocks emitted so far, the
      open block (`currentBlock`), `currentHeaderLevel` and `emptyLineCount`. */
  datatype State = State(
    blocks: seq<Block>,
    current: Option<OpenBlock>,
    currentHeaderLevel: int,
    emptyLineCount: int)

  /** The state before the first line. */
  const Start: State := State([], None, 0, 0)

  /** The record `addBlock` builds from an open block: its lines joined with
      newlines (`content.join('\n')`). */
  function Emit(b: OpenBlock): Block
  {
    Block(b.blockType, Join(b.lines), b.level)
  }

  /** `addBlock(blocks, block)`: appends the emitted block when there is one,
      leaving the earlier blocks in place. */
  function AddBlock(blocks: seq<Block>, block: Option<OpenBlock>): seq<Block>
  {
    match block
    case None => blocks
    case Some(b) => blocks + [Emit(b)]
  }

  /** Whether the open block exists and has type `t`. */
  predicate IsOpen(s: State, t: BlockType)
  {
    s.current.Some? && s.current.value.blockType == t
  }

  /** `currentBlock.content.push(line)`. */
  function Append(b: OpenBlock, line: string): OpenBlock
  {
    b.(lines := b.lines + [line])
  }

  /** Close whatever is open and open `b` instead. */
  function Reopen(s: State, b: OpenBlock): State
  {
    s.(blocks := AddBlock(s.blocks, s.current), current := Some(b))
  }

  /** One iteration of the loop of `parse` on `line`, which the classifier has
      put in branch `kind` (`Classify(line)`; see `Run`). */
  function Step(s: State, kind: LineKind, line: string): State
  {
    match kind
    case HeaderLine(level) =>
      if !IsOpen(s, Header) then
        Reopen(s, OpenBlock(Header, [line], level)).(emptyLineCount := 0)
      else if level < s.currentHeaderLevel then
        // The new block is created holding the line and then the line is pushed again.
        Reopen(s, OpenBlock(Header, [line, line], level)).(emptyLineCount := 0)
      else
        s.(current := Some(Append(s.current.value, line)), emptyLineCount := 0)
    case CalloutLine =>
      if IsOpen(s, Header) then s
      else if IsOpen(s, Callout) then s.(current := Some(Append(s.current.value, line)))
      else Reopen(s, OpenBlock(Callout, [line], 0))
    case FenceLine =>
      if IsOpen(s, Header) then s
      else if IsOpen(s, Code) then s.(current := Some(Append(s.current.value, line)))
      else Reopen(s, OpenBlock(Code, [line], 0))
    case MentionLine =>
      if IsOpen(s, Header) then s
      else Reopen(s, OpenBlock(Mention, [line], 0))
    case TodoLine(item) =>
      if IsOpen(s, Header) then s
      else Reopen(s, OpenBlock(Todo, [item], 0))
    case DoneLine(item) =>
      if IsOpen(s, Header) then s
      else Reopen(s, OpenBlock(Done, [item], 0))
    case BlankLine =>
      var count := s.emptyLineCount + 1;
      if count >= 2 then
        if IsOpen(s, Header) then
          s.(blocks := AddBlock(s.blocks, s.current), current := None, emptyLineCount := 0)
        else s.(emptyLineCount := 0)
      else s.(emptyLineCount := count)
    case RuleLine =>
      if IsOpen(s, Header) then
        s.(blocks := AddBlock(s.blocks, s.current), current := None, emptyLineCount := 0)
      else s.(emptyLineCount := 0)
    case PlainLine =>
      if s.current.Some? then
        s.(current := Some(Append(s.current.value, line)), emptyLineCount := 0)
      else s.(emptyLineCount := 0)
  }

  /** The branch the classifier picks for each line. */
  function Kinds(lines: seq<string>): (ks: seq<LineKind>)
    ensures |ks| == |lines|
  {
    if |lines| == 0 then []
    else Kinds(lines[..|lines| - 1]) + [Classify(lines[|lines| - 1])]
  }

  /** `Kinds` classifies each line where it stands. */
  lemma {:induction false} KindAt(lines: seq<string>, i: int)
    requires 0 <= i < |lines|
    ensures Kinds(lines)[i] == Classify(lines[i])
  {
    if i < |lines| - 1 {
      KindAt(lines[..|lines| - 1], i);
    }
  }

  /** The loop started in state `s` over `lines`, each line taking the branch
      `kinds` gives it. */
  function Walk(s: State, kinds: seq<LineKind>, lines: seq<string>): State
    requires |kinds| == |lines|
  {
    if |lines| == 0 then s
    else Step(Walk(s, kinds[..|kinds| - 1], lines[..|lines| - 1]), kinds[|kinds| - 1], lines[|lines| - 1])
  }

  /** One more line is one more step, from any state. */
  lemma WalkSnoc(s: State, kinds: seq<LineKind>, lines: seq<string>, k: LineKind, line: string)
    requires |kinds| == |lines|
    ensures Walk(s, kinds + [k], lines + [line]) == Step(Walk(s, kinds, lines), k, line)
  {
    assert (kinds + [k])[..|kinds|] == kinds;
    assert (lines + [line])[..|lines|] == lines;
  }

  /** The state after the loop has consumed all of `lines`. */
  function Run(lines: seq<string>): State
  {
    Walk(Start, Kinds(lines), lines)
  }

  /** The loop over `xs` and then `x` is one more iteration after the loop over `xs`. */
  lemma RunSnoc(xs: seq<string>, x: string)
    ensures Run(xs + [x]) == Step(Run(xs), Classify(x), x)
  {
    var ys := xs + [x];
    assert ys[..|xs|] == xs;
    assert Kinds(ys)[..|xs|] == Kinds(xs);
  }

  /** The state after the loop plus the flush of the last open block. */
  function Finish(s: State): seq<Block>
  {
    AddBlock(s.blocks, s.current)
  }

  /** `parse(content)`. */
  function Parse(content: string): seq<Block>
  {
    Finish(Run(Split(content)))
  }

  /** `parse` as the source writes it: a loop over the lines with the state in
      local variables, and a final flush. */
  method ParseBlocks(content: string) returns (blocks: seq<Block>)
    ensures blocks == Parse(content)
  {
    var lines := Split(content);
    var s := Start;
    var i := 0;
    while i < |lines|
      invariant 0 <= i <= |lines|
      invariant s == Run(lines[..i])
    {
      assert lines[..i + 1] == lines[..i] + [lines[i]];
      RunSnoc(lines[..i], lines[i]);
      s := Step(s, Classify(lines[i]), lines[i]);
      i := i + 1;
    }
    assert lines[..i] == lines;
    blocks := AddBlock(s.blocks, s.current);
  }
}
