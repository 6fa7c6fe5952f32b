# noteBlocksParser, modelled in Dafny

`noteBlocksParser.parse` takes the text of a note and returns an ordered list of
typed blocks: `header`, `callout`, `code`, `mention`, `todo` and `done`. It
splits the text on `'\n'` and walks the lines once. Each line goes through a
fixed if/else-if chain of classifiers: header, callout, code fence, mention,
todo, done, blank, `---`, and otherwise plain text. The chosen branch decides
whether the line extends the open block, is dropped, or closes the open block
(flushing it through `addBlock`) and opens a new one. At the end of input the
open block is flushed.

The model has seven modules:

- `Wrappers` (`wrappers.dfy`): `Option`.
- `Text` (`text.dfy`): JavaScript's whitespace set, `trim`, `split('\n')` and
  `join('\n')`, with their round trips.
- `LineClassifier` (`classifier.dfy`): `isHeader`, `getHeaderLevel`,
  `isCallout`, `isCodeBlock`, `isMention`, `isTodoLine`, `isDoneLine`, the
  blank and `---` tests, and `Classify`, the if/else-if chain. `Classify`
  returns a `LineKind`: the branch a line takes, with the header level and
  the stored text of a todo or done item.
- `NoteBlocks` (`parser.dfy`): the loop's state, as a `State` datatype.
  - `Step` is one iteration of the loop.
  - `Run` folds `Step` over a sequence of lines.
  - `Parse` is `parse`.
  - `ParseBlocks` is the same loop written as a Dafny `while` loop.
- `ParserInvariants` (`invariants.dfy`): the invariant of every reachable
  state, the well-formedness of every block `parse` returns, and the
  subsequence property of the lines in those blocks.
- `ParserBehaviour` (`behaviour.dfy`): how the loop treats runs of lines.
  - Headers absorb later headers and swallow other block starts.
  - Headers close only on the blank line that brings the blank counter to 2, or
    on `---`.
  - Callout lines merge with each other, and so do fence lines.
  - Mention, todo and done lines each open a block of their own.
  - Blank and `---` lines close nothing but a header.
- `ParserExamples` (`examples.dfy`): short notes of given shapes and the blocks
  `parse` returns for them.

## Model

| member | source | states |
|---|---|---|
| Text.Split | noteBlocksParser.js:45 | `split('\n')` gives at least one piece, and no piece holds a newline |
| Text.JoinSplit | noteBlocksParser.js:45 | joining the pieces of a split with newlines gives back the original text |
| Text.SplitJoin | noteBlocksParser.js:235 | splitting the join of at least one newline-free line gives back exactly those lines |
| Text.TrimShape | noteBlocksParser.js:148 | `trim()` removes exactly a whitespace prefix and a whitespace suffix; a non-empty result starts and ends with non-whitespace |
| Text.TrimIdempotent | noteBlocksParser.js:187 | trimming an already trimmed line changes nothing |
| Text.TrimKeeps | noteBlocksParser.js:185 | every non-whitespace character survives `trim()`, at its offset past the removed prefix |
| Text.TrimInside | noteBlocksParser.js:185 | `trim()` adds no character |
| LineClassifier.HeaderPatternExact | noteBlocksParser.js:200-202 | the leading-`#` count test agrees with the regular expression `/^#+\s/` on every line, in both directions |
| LineClassifier.HeaderLevel | noteBlocksParser.js:204-206 | on a header line, the level is at least 1, every character before it is `#`, and whitespace follows |
| LineClassifier.QuotedTodoNotCallout | noteBlocksParser.js:183-194 | a line whose trim starts with `> - [ ]` is quoted but is not a callout, and its text after the quote is a todo item |
| LineClassifier.QuotedDoneIsCallout | noteBlocksParser.js:183-194 | a line whose trim starts with `> - [x]` is a callout, because `isCallout` exempts only todo items |
| LineClassifier.QuotedDoneClassified | noteBlocksParser.js:54-148 | a quoted done item takes the callout branch, so the quoted half of `isDoneLine` is never reached |
| LineClassifier.QuotedNotHeader | noteBlocksParser.js:183-202 | a quoted line is never a header |
| LineClassifier.CalloutBeatsMention | noteBlocksParser.js:54-104 | a quoted line whose rest is not a todo item takes the callout branch, even when it mentions a page |
| LineClassifier.DoneLineShape | noteBlocksParser.js:133-146 | a done line that is not a callout starts with `- [x]` itself and is not quoted, so the done branch never strips it |
| LineClassifier.TodoLineShape | noteBlocksParser.js:114-120 | a todo line is either an unquoted line starting with `- [ ]`, or a quoted line whose text after the quote starts with `- [ ]` |
| LineClassifier.BlankOrRuleKind | noteBlocksParser.js:148-164 | blank and `---` lines pass none of the earlier tests: they take the blank branch or the `---` branch respectively |
| LineClassifier.VisibleKind | noteBlocksParser.js:148-170 | a line that is neither blank nor `---` takes neither of those branches |
| NoteBlocks.KindAt | noteBlocksParser.js:52-54 | each line is classified where it stands, independently of the others |
| NoteBlocks.WalkSnoc | noteBlocksParser.js:52-53 | one more line is one more iteration, from any state |
| NoteBlocks.RunSnoc | noteBlocksParser.js:52-53 | the loop over some lines and then one more line is one more iteration after the loop over the first lines |
| NoteBlocks.ParseBlocks | noteBlocksParser.js:44-181 | the imperative loop with local state and final flush returns exactly `Parse(content)` |
| ParserInvariants.EmitRoundTrip | noteBlocksParser.js:230-240 | `addBlock` loses nothing: splitting the emitted `data` gives back the block's lines, and the emitted block is well formed |
| ParserInvariants.ClassifyFits | noteBlocksParser.js:54-146 | every line fits its branch, e.g. a header with its `#` count, or a todo item stored without its quote and starting with `- [ ]` |
| ParserInvariants.KindsFit | noteBlocksParser.js:52-54 | every line of a note fits the branch it takes |
| ParserInvariants.StoredVisible | noteBlocksParser.js:54-175 | any line a step stores, as a block's first line or appended, is neither blank nor `---` and holds no newline |
| ParserInvariants.StepInv | noteBlocksParser.js:52-176 | one iteration keeps the invariant: `currentHeaderLevel` is 0, the blank counter is 0 or 1, and every block is well formed |
| ParserInvariants.WalkInv | noteBlocksParser.js:52-176 | any number of iterations keep the invariant |
| ParserInvariants.RunInv | noteBlocksParser.js:44-176 | every state the loop reaches satisfies the invariant |
| ParserInvariants.ParseWellFormed | noteBlocksParser.js:44-181 | every block `parse` returns has at least one line and no blank or `---` line; its first line opens its type; its level is the `#` count for headers and 0 otherwise |
| ParserInvariants.StepLines | noteBlocksParser.js:52-176 | one iteration stores either nothing or exactly the line (unquoted, for todo and done items), at the end of the stored lines |
| ParserInvariants.StepSubseq | noteBlocksParser.js:52-176 | one iteration keeps the stored lines a derived subsequence of the lines read so far |
| ParserInvariants.WalkSubseq | noteBlocksParser.js:52-176 | after any prefix, the stored lines are picked in order from the input lines |
| ParserInvariants.ParseSubseq | noteBlocksParser.js:44-181 | the lines of all returned blocks, in order, are a subsequence of the input lines, each unchanged or stripped of its quote marker |
| ParserBehaviour.StepKeepsHeaderLevel | noteBlocksParser.js:47-176 | no iteration assigns `currentHeaderLevel` |
| ParserBehaviour.StepKeepsCounter | noteBlocksParser.js:148-174 | one iteration keeps the blank counter at 0 or 1 |
| ParserBehaviour.WalkCounters | noteBlocksParser.js:47-176 | any number of iterations keep `currentHeaderLevel` at 0 and the blank counter at 0 or 1 |
| ParserBehaviour.RunCounters | noteBlocksParser.js:47-151 | in every reachable state `currentHeaderLevel` is 0, so `newHeaderLevel < currentHeaderLevel` never holds; the blank counter is 0 or 1 |
| ParserBehaviour.DeadBranchDuplicatesLine | noteBlocksParser.js:68-74 | were the header-closing branch taken, the new block would hold the header line twice |
| ParserBehaviour.HeaderAbsorbsHeader | noteBlocksParser.js:54-76 | under an open header block, a header line of any level is appended to it and resets the counter; nothing is emitted |
| ParserBehaviour.RunHeaderAbsorbsHeader | noteBlocksParser.js:54-76 | the same, for every state the loop reaches |
| ParserBehaviour.StepHeaderOutside | noteBlocksParser.js:54-76 | outside a header block, a header line flushes the open block whatever its type, opens a header block holding only the line at its `#` count, and resets the blank counter |
| ParserBehaviour.RunHeaderOutside | noteBlocksParser.js:54-76 | the same, for every state the loop reaches: a header line inside a code, callout, mention, todo or done block closes it |
| ParserBehaviour.HeaderSwallows | noteBlocksParser.js:77-146 | under an open header block, callout, fence, mention, todo and done lines change nothing, not even the counter |
| ParserBehaviour.RunHeaderSwallows | noteBlocksParser.js:77-146 | the same, for every state the loop reaches |
| ParserBehaviour.StepUnderHeaderCloses | noteBlocksParser.js:148-169 | under an open header, a step emits exactly when it is a blank line that finds the counter at 1, or a `---`, and then leaves nothing open with the counter at 0 |
| ParserBehaviour.HeaderCloses | noteBlocksParser.js:148-169 | an open header block is closed exactly by the blank line that brings the counter to 2 or by a `---` line, and the counter is then 0; otherwise it stays open and nothing is emitted. A line the header swallows does not reset the counter, so the two blanks need not be adjacent |
| ParserBehaviour.RunHeaderCloses | noteBlocksParser.js:148-169 | the same, for every state the loop reaches |
| ParserBehaviour.WalkThen | noteBlocksParser.js:52-53 | walking two stretches of lines one after the other is walking both |
| ParserBehaviour.KindsThen | noteBlocksParser.js:52-54 | classifying two stretches of lines one after the other is classifying both |
| ParserBehaviour.RunThen | noteBlocksParser.js:52-53 | the loop over a prefix and then a run equals the loop over the run started from the state the prefix leaves |
| ParserBehaviour.StepUnderHeader | noteBlocksParser.js:54-175 | under an open header, a line that is neither blank nor `---` is appended if it is a header or plain line, and dropped otherwise |
| ParserBehaviour.WalkUnderHeader | noteBlocksParser.js:54-175 | under an open header, a run with no blank or `---` line emits nothing and appends exactly its header and plain lines |
| ParserBehaviour.HeaderRun | noteBlocksParser.js:54-175 | after any prefix leaving a header open, such a run keeps it open and adds exactly the run's header and plain lines |
| ParserBehaviour.StepOutsideHeader | noteBlocksParser.js:148-175 | outside a header, a plain, blank or `---` line emits nothing and is appended to the open block only if it is plain |
| ParserBehaviour.WalkInert | noteBlocksParser.js:148-175 | outside a header, a run of such lines emits nothing and appends exactly its plain lines |
| ParserBehaviour.PlainRun | noteBlocksParser.js:148-175 | after any prefix with no header open, blank and `---` lines close nothing; plain lines join the open block, or are dropped when none is open |
| ParserBehaviour.StepMerge | noteBlocksParser.js:77-103 | a callout (fence) line extends an open callout (code) block and otherwise closes the open block and opens its own |
| ParserBehaviour.WalkMerging | noteBlocksParser.js:77-103 | a run of callout (fence) lines makes one block holding all of them |
| ParserBehaviour.MergingRun | noteBlocksParser.js:77-103 | after any prefix with no header or same-type block open, a run of callout (fence) lines flushes the open block and makes one block holding the whole run; a closing fence closes nothing |
| ParserBehaviour.StepSingle | noteBlocksParser.js:104-146 | outside a header, a mention, todo or done line closes the open block and opens its own |
| ParserBehaviour.WalkSplitting | noteBlocksParser.js:104-146 | a run of mention, todo or done lines emits one block per line except the last, which stays open |
| ParserBehaviour.SplittingRun | noteBlocksParser.js:104-146 | after any prefix with no header open, each mention, todo or done line of a run closes the block before it, so n such lines give n blocks |
| ParserExamples.ParseOne | noteBlocksParser.js:44-181 | a one-line note is one iteration and the flush |
| ParserExamples.ParseTwo | noteBlocksParser.js:44-181 | a two-line note is two iterations and the flush |
| ParserExamples.ParseThree | noteBlocksParser.js:44-181 | a three-line note is three iterations and the flush |
| ParserExamples.ParseLines | noteBlocksParser.js:44-181 | a note made of newline-free lines is the loop over exactly those lines and the flush |
| ParserExamples.BlankNote | noteBlocksParser.js:148-179 | a note of one blank line gives no blocks |
| ParserExamples.EmptyNote | noteBlocksParser.js:44-181 | the empty note gives no blocks |
| ParserExamples.HeaderThenText | noteBlocksParser.js:54-175 | a header line and a plain line give one header block holding both, at the header's level |
| ParserExamples.HeaderThenHeader | noteBlocksParser.js:54-76 | two header lines give one header block at the first header's level, even when the second has a smaller level (`"## A\n# B"`) |
| ParserExamples.RuleClosesHeader | noteBlocksParser.js:164-175 | a header, a `---` and a plain line give the header block alone; the plain line is dropped |
| ParserExamples.TwoBlanksCloseHeader | noteBlocksParser.js:148-175 | a header, a plain line, two blank lines and a plain line give one header block holding the first two lines (`"# A\ntext1\n\n\ntext2"`) |
| ParserExamples.SwallowedLineKeepsCount | noteBlocksParser.js:77-90 | a header, a blank line, a callout line, a blank line and a plain line give the header block alone: the swallowed callout does not reset the counter, so the second blank closes the header and the plain line is dropped (`"# A\n\n> q\n\nx"`) |
| ParserExamples.FenceKind | noteBlocksParser.js:91-104 | a line starting with three backquotes takes the fence branch |
| ParserExamples.FencesMerge | noteBlocksParser.js:91-103 | a fence, a plain line and a fence give one code block holding all three lines |
| ParserExamples.MentionsSplit | noteBlocksParser.js:104-113 | two mention lines give two mention blocks |
| ParserExamples.MentionBeatsTodo | noteBlocksParser.js:104-132 | a todo item that mentions a page is a mention (`"- [ ] ask [[Bob]]"`) |
| ParserExamples.QuotedTodo | noteBlocksParser.js:114-132 | a quoted todo item that mentions no page gives one todo block holding the item without its quote (`"> - [ ] buy milk"`) |
| ParserExamples.QuotedDone | noteBlocksParser.js:77-90 | a quoted done item gives one callout block holding the line as written (`"> - [x] ok"`) |

## Where the code differs from its comments

The model follows the code.

- `currentHeaderLevel` is initialised to 0 (line 47) and never assigned again.
  So the branch that closes a header block on a header with a smaller level
  (lines 68-73) is never taken (`RunCounters`), and an open header block
  absorbs every later header line (`HeaderAbsorbsHeader`, `HeaderThenHeader`).
  The comments at lines 10 and 15 say a header of the same or higher level
  closes it. Were the branch taken, it would store the header line twice
  (`DeadBranchDuplicatesLine`). `Step` keeps the branch, as the code has it.
- `insideCodeBlock` (line 49) is never read. After the opening fence, fence
  lines and plain lines join the code block in any order (`FencesMerge` is
  fence, plain, fence); a closing fence is appended like any other fence line.
  Blank and `---` lines are skipped without closing it. A header, callout,
  mention, todo or done line closes it (`RunHeaderOutside`, `MergingRun`,
  `SplittingRun`).
- The comments at lines 10 and 17 say a header block finishes on two empty
  lines. The blank-line counter is reset only by header, `---` and plain lines
  and by the closing blank itself; the callout, fence, mention, todo and done
  branches skip a line under a header before any reset (lines 78, 92, 105, 115
  and 134). So the two blank lines need not be adjacent: in `"# A\n\n> q\n\nx"`
  the second blank closes the header and `x` is dropped
  (`SwallowedLineKeepsCount`).
- Plain lines are appended to whatever block is open (lines 170-173), mention,
  todo and done blocks included. So those blocks are not single-line, contrary
  to the comment at line 13.
- Apart from the blank line that brings it to 2, `emptyLineCount` is reset by
  header, `---` and plain lines only. Callout, fence, mention, todo and done
  lines leave it unchanged.
- The first half of `isTodoLine` and `isDoneLine` tests the untrimmed line
  (lines 213 and 217); only the quoted half trims it.
- A quoted done item (`> - [x] …`) is a callout: `isCallout` exempts only todo
  items (`QuotedDoneClassified`). So the done branch never strips a quote
  marker, although the code at lines 135-137 would.

## Left out

- `loadFile` (lines 33-42) and `run` (lines 242-257): asynchronous vault I/O and
  the aggregation of blocks across notes. The `page` field, which is only
  filled in there, is left out of `Block` and `OpenBlock`.
- `mtime` (line 225): a clock read (`Date.now()`). It is left out of both
  records; nothing in `parse` reads it.
- `insideCodeBlock` (line 49): declared and never used.
- Strings are sequences of Unicode scalar values, whereas JavaScript strings
  are sequences of UTF-16 code units. Outside the Basic Multilingual Plane
  the indices differ. No whitespace, `#`, `>`, `[`, `]`, `-` or backquote
  character lies outside it, so the tests come out the same.
- `getHeaderLevel` throws on a line without a leading `#` (line 205).
  `HeaderLevel` requires a header line, which is the only case `parse` calls
  it on.
- `headerLevel: block.level || 0` (line 237): `level` is always a number, and
  `0 || 0` is 0, so this is `level` itself.
- ParserInvariants.ParseSubseq: `Derived` allows any quoted line to appear
  without its quote marker. In fact only todo items are stored that way
  (`ClassifyFits`), so the stated property is weaker than the code's
  behaviour.
- ParserBehaviour.DeadBranchDuplicatesLine: it is stated about a state with a
  positive `currentHeaderLevel`, which the loop never reaches
  (`RunCounters`); it describes the code of the dead branch, not reachable
  behaviour.
