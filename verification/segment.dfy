/**
 * The block segmenter of the `nbe` documentation parser (parseReader in
 * cmd/nbe/parse.go): the scanned lines of a client's main file become typed,
 * line-numbered blocks of code and comments.
 */
module Segment {
  import opened Wrappers
  import opened Strs
  import opened LineClass

  datatype BlockType = EmptyBlock | CodeBlock | SingleLineCommentBlock | MultiLineCommentBlock

  /** A run of lines of one kind, numbered from 1, both ends inclusive. */
  datatype Block = Block(kind: BlockType, lines: seq<string>, startLine: nat, endLine: nat)

  /** What a classified line does to the current block. */
  datatype Action =
    | Keep                      // stay in the current block
    | Retype(kind: BlockType)   // an Empty block takes the type of its first non-blank line
    | Open(kind: BlockType)     // start a new block at this line
    | CloseAfter                // the line closes a multi-line comment; the next line starts a block
    | Fail                      // a stray close inside a single-line comment block

  /** The nested switch of parseReader, one case per (line type, block type) pair. */
  function Transition(kind: BlockType, lt: LineType): Action {
    match lt
    case EmptyLine => Keep
    case NormalLine =>
      (match kind
       case EmptyBlock => Retype(CodeBlock)
       case SingleLineCommentBlock => Open(CodeBlock)
       case _ => Keep)
    case SingleCommentLine =>
      (match kind
       case EmptyBlock => Retype(SingleLineCommentBlock)
       case CodeBlock => Open(SingleLineCommentBlock)
       case _ => Keep)
    case OpenMultiCommentLine =>
      (match kind
       case EmptyBlock => Retype(MultiLineCommentBlock)
       case CodeBlock => Open(MultiLineCommentBlock)
       case _ => Keep)
    case CloseMultiCommentLine =>
      (match kind
       case MultiLineCommentBlock => CloseAfter
       case SingleLineCommentBlock => Fail
       case _ => Keep)
  }

  /**
   * The scan loop's variables: the finished blocks, the current block (the
   * last element of the Go `blocks` slice, which the loop updates through a
   * pointer) and whether the previous line closed a multi-line comment.
   */
  datatype State = State(done: seq<Block>, cur: Block, endMultiLine: bool)

  /** Every block, the current one last. */
  function Blocks(st: State): seq<Block> {
    st.done + [st.cur]
  }

  const InitialBlock := Block(EmptyBlock, [], 1, 1)
  const Initial := State([], InitialBlock, false)

  /** The state line `n` meets: a fresh Empty block follows a closed multi-line comment. */
  function Enter(st: State, n: nat): State {
    if st.endMultiLine then State(Blocks(st), Block(EmptyBlock, [], n, n), false) else st
  }

  /** What one line adds to its block: the line, or as written a blank line twice. */
  function Added(blankTwice: bool, line: string, lt: LineType): seq<string> {
    if blankTwice && lt == EmptyLine then [line, line] else [line]
  }

  /**
   * One iteration of the scan loop for line number `n` of type `lt`. As
   * written, an empty line is appended to the current block twice (once in
   * its own case and once after the switch); `blankTwice` selects that.
   */
  function Step(blankTwice: bool, st: State, n: nat, line: string, lt: LineType): Result<State, ParseError> {
    var entered := Enter(st, n);
    var cur := entered.cur;
    var added := Added(blankTwice, line, lt);
    match Transition(cur.kind, lt)
    case Fail => Err(SyntaxError(n))
    case Open(k) => Ok(State(Blocks(entered), Block(k, added, n, n), false))
    case Retype(k) => Ok(State(entered.done, Block(k, cur.lines + added, cur.startLine, n), false))
    case Keep => Ok(State(entered.done, Block(cur.kind, cur.lines + added, cur.startLine, n), false))
    case CloseAfter => Ok(State(entered.done, Block(cur.kind, cur.lines + added, cur.startLine, n), true))
  }

  /** The scan loop over `lines`, failing at the first line that panics. */
  function RunWith(blankTwice: bool, lang: Language, lines: seq<string>): Result<State, ParseError>
    decreases |lines|
  {
    if |lines| == 0 then Ok(Initial)
    else
      match RunWith(blankTwice, lang, lines[..|lines| - 1])
      case Err(e) => Err(e)
      case Ok(st) =>
        match ParseLineType(lang, lines[|lines| - 1])
        case Err(e) => Err(e)
        case Ok(lt) => Step(blankTwice, st, |lines|, lines[|lines| - 1], lt)
  }

  /** parseReader's segmentation as written: empty lines are stored twice. */
  function RunAsWritten(lang: Language, lines: seq<string>): Result<State, ParseError> {
    RunWith(true, lang, lines)
  }

  /** parseReader's segmentation with each line stored once. */
  function Run(lang: Language, lines: seq<string>): Result<State, ParseError> {
    RunWith(false, lang, lines)
  }

  /** parseReader: the blocks and the source, the scanned lines joined with "\n". */
  function ParseSpec(lang: Language, text: string): Result<(seq<Block>, string), ParseError> {
    var lines := ScanLines(text);
    match Run(lang, lines)
    case Err(e) => Err(e)
    case Ok(st) => Ok((Blocks(st), Join(lines, "\n")))
  }

  // Round trip.

  /** Every block's lines, in order. */
  function Flatten(blocks: seq<Block>): seq<string> {
    if |blocks| == 0 then [] else Flatten(blocks[..|blocks| - 1]) + blocks[|blocks| - 1].lines
  }

  /** The lines a state holds, in order. */
  function Contents(st: State): seq<string> {
    Flatten(st.done) + st.cur.lines
  }

  /** The lines as the as-written segmenter stores them: every blank line twice. */
  function DoubleBlanks(lines: seq<string>): seq<string> {
    if |lines| == 0 then []
    else
      var l := lines[|lines| - 1];
      DoubleBlanks(lines[..|lines| - 1]) + (if IsBlank(l) then [l, l] else [l])
  }

  lemma FlattenSnoc(blocks: seq<Block>, b: Block)
    ensures Flatten(blocks + [b]) == Flatten(blocks) + b.lines
  {
    assert (blocks + [b])[..|blocks|] == blocks;
  }

  lemma FlattenBlocks(st: State)
    ensures Flatten(Blocks(st)) == Contents(st)
  {
    FlattenSnoc(st.done, st.cur);
  }

  lemma AppendAssoc<T>(a: seq<T>, b: seq<T>, c: seq<T>)
    ensures a + (b + c) == (a + b) + c
  {
  }

  /** Entering a line keeps the contents; a step adds the line (twice, for a blank line as written). */
  lemma StepContents(blankTwice: bool, st: State, n: nat, line: string, lt: LineType)
    requires Step(blankTwice, st, n, line, lt).Ok?
    ensures Contents(Step(blankTwice, st, n, line, lt).value) == Contents(st) + Added(blankTwice, line, lt)
  {
    var entered := Enter(st, n);
    var added := Added(blankTwice, line, lt);
    FlattenBlocks(st);
    assert Contents(entered) == Contents(st);
    if Transition(entered.cur.kind, lt).Open? {
      FlattenBlocks(entered);
    } else {
      AppendAssoc(Flatten(entered.done), entered.cur.lines, added);
    }
  }

  /** A successful run over some lines extends a successful run over all but the last. */
  lemma RunWithSnoc(blankTwice: bool, lang: Language, lines: seq<string>)
    requires |lines| > 0 && RunWith(blankTwice, lang, lines).Ok?
    ensures RunWith(blankTwice, lang, lines[..|lines| - 1]).Ok?
    ensures ParseLineType(lang, lines[|lines| - 1]).Ok?
    ensures RunWith(blankTwice, lang, lines)
      == Step(blankTwice, RunWith(blankTwice, lang, lines[..|lines| - 1]).value, |lines|,
              lines[|lines| - 1], ParseLineType(lang, lines[|lines| - 1]).value)
  {
  }

  lemma LineTypeOfBlank(lang: Language, line: string)
    requires ParseLineType(lang, line).Ok?
    ensures ParseLineType(lang, line).value == EmptyLine <==> IsBlank(line)
  {
  }

  lemma SplitLast<T>(s: seq<T>)
    requires s != []
    ensures s[..|s| - 1] + [s[|s| - 1]] == s
  {
  }

  lemma {:induction false} ContentsRun(blankTwice: bool, lang: Language, lines: seq<string>)
    requires RunWith(blankTwice, lang, lines).Ok?
    ensures Contents(RunWith(blankTwice, lang, lines).value)
      == if blankTwice then DoubleBlanks(lines) else lines
  {
    if |lines| > 0 {
      var prefix := lines[..|lines| - 1];
      var l := lines[|lines| - 1];
      RunWithSnoc(blankTwice, lang, lines);
      ContentsRun(blankTwice, lang, prefix);
      var lt := ParseLineType(lang, l).value;
      StepContents(blankTwice, RunWith(blankTwice, lang, prefix).value, |lines|, l, lt);
      LineTypeOfBlank(lang, l);
      SplitLast(lines);
    }
  }

  /** Round trip: the blocks' lines, concatenated, are exactly the scanned lines. */
  lemma RoundTrip(lang: Language, lines: seq<string>)
    requires Run(lang, lines).Ok?
    ensures Flatten(Blocks(Run(lang, lines).value)) == lines
  {
    ContentsRun(false, lang, lines);
    FlattenBlocks(Run(lang, lines).value);
  }

  /** As written, the concatenated blocks hold every blank line twice. */
  lemma RoundTripAsWritten(lang: Language, lines: seq<string>)
    requires RunAsWritten(lang, lines).Ok?
    ensures Flatten(Blocks(RunAsWritten(lang, lines).value)) == DoubleBlanks(lines)
  {
    ContentsRun(true, lang, lines);
    FlattenBlocks(RunAsWritten(lang, lines).value);
  }

  // Line numbering.

  /** Block `b` spans lines `startLine..endLine` of `lines` and holds exactly those lines. */
  predicate Holds(b: Block, lines: seq<string>) {
    1 <= b.startLine <= b.endLine <= |lines| && b.lines == lines[b.startLine - 1..b.endLine]
  }

  predicate AllHold(bs: seq<Block>, lines: seq<string>) {
    forall i | 0 <= i < |bs| :: Holds(bs[i], lines)
  }

  /** The finished blocks and the current one follow each other without gaps, from line 1. */
  predicate Chained(done: seq<Block>, cur: Block) {
    (forall i | 0 < i < |done| :: done[i].startLine == done[i - 1].endLine + 1)
    && (done == [] ==> cur.startLine == 1)
    && (done != [] ==> done[0].startLine == 1 && cur.startLine == done[|done| - 1].endLine + 1)
  }

  /** The state after reading every line of `lines`. */
  predicate Numbered(st: State, lines: seq<string>) {
    AllHold(st.done, lines) && Chained(st.done, st.cur) && Holds(st.cur, lines) && st.cur.endLine == |lines|
  }

  /** The state met by the last line of `lines`, before that line is stored. */
  predicate Pending(st: State, lines: seq<string>) {
    AllHold(st.done, lines) && Chained(st.done, st.cur) && !st.endMultiLine
    && 1 <= st.cur.startLine <= |lines| && st.cur.lines == lines[st.cur.startLine - 1..|lines| - 1]
    && (st.cur.kind != EmptyBlock ==> st.cur.startLine <= st.cur.endLine == |lines| - 1)
  }

  lemma SliceAppendLeft<T>(f: seq<T>, g: seq<T>, i: nat, j: nat)
    requires i <= j <= |f|
    ensures (f + g)[i..j] == f[i..j]
  {
  }

  lemma SliceSnoc<T>(f: seq<T>, x: T, i: nat)
    requires i <= |f|
    ensures (f + [x])[i..|f| + 1] == f[i..] + [x]
  {
  }

  lemma AllHoldSnoc(bs: seq<Block>, lines: seq<string>, l: string)
    requires AllHold(bs, lines)
    ensures AllHold(bs, lines + [l])
  {
    forall i | 0 <= i < |bs| ensures Holds(bs[i], lines + [l]) {
      SliceAppendLeft(lines, [l], bs[i].startLine - 1, bs[i].endLine);
    }
  }

  lemma EnterPending(st: State, lines: seq<string>, l: string)
    requires (lines == [] && st == Initial) || (Numbered(st, lines) && (st.endMultiLine ==> st.cur.kind == MultiLineCommentBlock))
    ensures Pending(Enter(st, |lines| + 1), lines + [l])
  {
    var lines' := lines + [l];
    if lines != [] {
      AllHoldSnoc(st.done, lines, l);
      SliceAppendLeft(lines, [l], st.cur.startLine - 1, st.cur.endLine);
      assert Holds(st.cur, lines');
      if st.endMultiLine {
        AllHoldSnoc(Blocks(st), lines, l);
        assert Blocks(st)[|Blocks(st)| - 1] == st.cur;
      } else {
        assert lines'[st.cur.startLine - 1..|lines'| - 1] == lines'[st.cur.startLine - 1..st.cur.endLine];
      }
    }
  }

  lemma StepNumbered(st: State, lines: seq<string>, lt: LineType)
    requires lines != [] && Pending(st, lines) && Step(false, st, |lines|, lines[|lines| - 1], lt).Ok?
    ensures Numbered(Step(false, st, |lines|, lines[|lines| - 1], lt).value, lines)
  {
    var n := |lines|;
    var cur := st.cur;
    assert Enter(st, n) == st;
    var act := Transition(cur.kind, lt);
    if act.Open? {
      OpenNumbered(st, lines);
    } else {
      var k := if act.Retype? then act.kind else cur.kind;
      GrowNumbered(st, lines, k, act == CloseAfter);
    }
  }

  lemma GrowNumbered(st: State, lines: seq<string>, k: BlockType, endMulti: bool)
    requires lines != [] && Pending(st, lines)
    ensures Numbered(State(st.done, Block(k, st.cur.lines + [lines[|lines| - 1]], st.cur.startLine, |lines|), endMulti), lines)
  {
    var n := |lines|;
    SliceSnoc(lines[..n - 1], lines[n - 1], st.cur.startLine - 1);
    SplitLast(lines);
  }

  lemma OpenNumbered(st: State, lines: seq<string>)
    requires lines != [] && Pending(st, lines) && st.cur.kind != EmptyBlock
    ensures AllHold(Blocks(st), lines) && Chained(Blocks(st), Block(st.cur.kind, [lines[|lines| - 1]], |lines|, |lines|))
    ensures Holds(Block(st.cur.kind, [lines[|lines| - 1]], |lines|, |lines|), lines)
  {
    var n := |lines|;
    assert Holds(st.cur, lines);
    assert Blocks(st)[|st.done|] == st.cur;
    assert lines[n - 1..n] == [lines[n - 1]];
  }

  /**
   * Numbering: the first block starts at line 1, each block starts right after
   * the previous one ends, the last ends at the last line, and every block
   * holds exactly the lines its numbers span.
   */
  lemma {:induction false} RunNumbered(lang: Language, lines: seq<string>)
    requires Run(lang, lines).Ok?
    ensures lines == [] ==> Run(lang, lines).value == Initial
    ensures lines != [] ==> Numbered(Run(lang, lines).value, lines)
    ensures Run(lang, lines).value.endMultiLine ==> Run(lang, lines).value.cur.kind == MultiLineCommentBlock
  {
    if lines != [] {
      var prefix := lines[..|lines| - 1];
      var l := lines[|lines| - 1];
      RunWithSnoc(false, lang, lines);
      RunNumbered(lang, prefix);
      SplitLast(lines);
      StepKeepsNumbered(Run(lang, prefix).value, prefix, l, ParseLineType(lang, l).value);
    }
  }

  lemma StepKeepsNumbered(st: State, lines: seq<string>, l: string, lt: LineType)
    requires (lines == [] && st == Initial) || Numbered(st, lines)
    requires st.endMultiLine ==> st.cur.kind == MultiLineCommentBlock
    requires Step(false, st, |lines| + 1, l, lt).Ok?
    ensures Numbered(Step(false, st, |lines| + 1, l, lt).value, lines + [l])
    ensures Step(false, st, |lines| + 1, l, lt).value.endMultiLine
      ==> Step(false, st, |lines| + 1, l, lt).value.cur.kind == MultiLineCommentBlock
  {
    var n := |lines| + 1;
    EnterPending(st, lines, l);
    assert (lines + [l])[n - 1] == l;
    StepNumbered(Enter(st, n), lines + [l], lt);
    EnterStep(st, n, l, lt);
  }

  /** A step from a state is the step from the state it enters. */
  lemma EnterStep(st: State, n: nat, line: string, lt: LineType)
    ensures Step(false, st, n, line, lt) == Step(false, Enter(st, n), n, line, lt)
    ensures Step(false, st, n, line, lt).Ok? && Step(false, st, n, line, lt).value.endMultiLine
      ==> Step(false, st, n, line, lt).value.cur.kind == MultiLineCommentBlock
  {
  }

  /** The finished blocks and the current one, read as one sequence. */
  lemma BlocksIndex(st: State)
    ensures |Blocks(st)| == |st.done| + 1 && Blocks(st)[|st.done|] == st.cur
    ensures forall i | 0 <= i < |st.done| :: Blocks(st)[i] == st.done[i]
  {
  }

  /**
   * Numbering: with no lines there is only the initial block; otherwise the
   * first block starts at line 1, each block starts right after the previous
   * one ends, the last ends at the last line, and every block holds exactly
   * the lines its numbers span.
   */
  lemma BlockNumbering(lang: Language, lines: seq<string>)
    requires Run(lang, lines).Ok?
    ensures lines == [] ==> Blocks(Run(lang, lines).value) == [InitialBlock]
    ensures var bs := Blocks(Run(lang, lines).value);
      lines != [] ==>
        bs[0].startLine == 1 && bs[|bs| - 1].endLine == |lines|
        && (forall i | 0 < i < |bs| :: bs[i].startLine == bs[i - 1].endLine + 1)
        && (forall i | 0 <= i < |bs| ::
              1 <= bs[i].startLine <= bs[i].endLine <= |lines|
              && bs[i].lines == lines[bs[i].startLine - 1..bs[i].endLine])
  {
    RunNumbered(lang, lines);
    var st := Run(lang, lines).value;
    BlocksIndex(st);
    if lines != [] {
      var bs := Blocks(st);
      forall i | 0 < i < |bs| ensures bs[i].startLine == bs[i - 1].endLine + 1 {
        if i < |st.done| {
          assert bs[i] == st.done[i] && bs[i - 1] == st.done[i - 1];
        }
      }
      forall i | 0 <= i < |bs| ensures Holds(bs[i], lines) {
        if i < |st.done| {
          assert bs[i] == st.done[i];
        }
      }
    }
  }

  // Block kinds.

  /**
   * The kinds two neighbouring blocks may have: anything may follow a closed
   * multi-line comment; otherwise code follows a single-line comment, and a
   * comment of either sort follows code.
   */
  predicate Adjacent(prev: BlockType, next: BlockType) {
    prev == MultiLineCommentBlock
    || (prev == SingleLineCommentBlock && next == CodeBlock)
    || (prev == CodeBlock && (next == SingleLineCommentBlock || next == MultiLineCommentBlock))
  }

  predicate KindsOrdered(st: State) {
    (forall i | 0 < i < |st.done| :: Adjacent(st.done[i - 1].kind, st.done[i].kind))
    && (st.done != [] ==> Adjacent(st.done[|st.done| - 1].kind, st.cur.kind))
    && (st.endMultiLine ==> st.cur.kind == MultiLineCommentBlock)
  }

  lemma EnterKindsOrdered(st: State, n: nat)
    requires KindsOrdered(st)
    ensures KindsOrdered(Enter(st, n)) && !Enter(st, n).endMultiLine
    ensures Enter(st, n).cur.kind == EmptyBlock ==>
      Enter(st, n).done == [] || Enter(st, n).done[|Enter(st, n).done| - 1].kind == MultiLineCommentBlock
  {
  }

  lemma StepKindsOrdered(blankTwice: bool, st: State, n: nat, line: string, lt: LineType)
    requires KindsOrdered(st) && Step(blankTwice, st, n, line, lt).Ok?
    ensures KindsOrdered(Step(blankTwice, st, n, line, lt).value)
  {
    EnterKindsOrdered(st, n);
    var entered := Enter(st, n);
    if Transition(entered.cur.kind, lt).Open? {
      BlocksIndex(entered);
    }
  }

  lemma {:induction false} RunKindsOrdered(blankTwice: bool, lang: Language, lines: seq<string>)
    requires RunWith(blankTwice, lang, lines).Ok?
    ensures KindsOrdered(RunWith(blankTwice, lang, lines).value)
  {
    if |lines| > 0 {
      RunWithSnoc(blankTwice, lang, lines);
      RunKindsOrdered(blankTwice, lang, lines[..|lines| - 1]);
      StepKindsOrdered(blankTwice, RunWith(blankTwice, lang, lines[..|lines| - 1]).value, |lines|,
                       lines[|lines| - 1], ParseLineType(lang, lines[|lines| - 1]).value);
    }
  }

  /**
   * Neighbouring blocks are Adjacent; so only the last block can remain
   * Empty-typed, and neighbours share a kind only as two multi-line comments.
   */
  lemma BlockKinds(lang: Language, lines: seq<string>)
    requires Run(lang, lines).Ok?
    ensures var bs := Blocks(Run(lang, lines).value);
      (forall i | 0 < i < |bs| :: Adjacent(bs[i - 1].kind, bs[i].kind))
      && (forall i | 0 <= i < |bs| - 1 :: bs[i].kind != EmptyBlock)
      && (forall i | 0 < i < |bs| :: bs[i - 1].kind == bs[i].kind ==> bs[i].kind == MultiLineCommentBlock)
  {
    RunKindsOrdered(false, lang, lines);
    var st := Run(lang, lines).value;
    var bs := Blocks(st);
    BlocksIndex(st);
    forall i | 0 < i < |bs| ensures Adjacent(bs[i - 1].kind, bs[i].kind) {
      if i < |st.done| {
        assert bs[i] == st.done[i] && bs[i - 1] == st.done[i - 1];
      }
    }
    forall i | 0 <= i < |bs| - 1 ensures bs[i].kind != EmptyBlock {
      assert Adjacent(bs[i].kind, bs[i + 1].kind);
    }
  }

  // What decides a block's kind. The lemmas take the line classifier as a
  // function `ty`, so that they hold for any classification and leave the
  // classifier's own rules out of the argument.

  /** The classifier's verdict on each line; a successful run never meets its Empty fallback. */
  function TypeOf(lang: Language): string -> LineType {
    line => match ParseLineType(lang, line) case Ok(lt) => lt case Err(_) => EmptyLine
  }

  /** The line types that decide a block's kind: neither blank nor a closing delimiter. */
  predicate SignificantType(lt: LineType) {
    lt == NormalLine || lt == SingleCommentLine || lt == OpenMultiCommentLine
  }

  /** The kind a block takes from its first significant line. */
  function KindFor(lt: LineType): (k: BlockType)
    ensures k != EmptyBlock <==> SignificantType(lt)
  {
    match lt
    case NormalLine => CodeBlock
    case SingleCommentLine => SingleLineCommentBlock
    case OpenMultiCommentLine => MultiLineCommentBlock
    case _ => EmptyBlock
  }

  /** The type of the first significant line, if any. */
  function FirstSignificant(ty: string -> LineType, lines: seq<string>): (r: Option<LineType>)
    ensures r.Some? ==> SignificantType(r.value)
    decreases |lines|
  {
    if |lines| == 0 then None
    else match FirstSignificant(ty, lines[..|lines| - 1])
      case Some(lt) => Some(lt)
      case None => if SignificantType(ty(lines[|lines| - 1])) then Some(ty(lines[|lines| - 1])) else None
  }

  /** The kind the first significant line of `lines` calls for; Empty when there is none. */
  function KindOfLines(ty: string -> LineType, lines: seq<string>): BlockType {
    match FirstSignificant(ty, lines)
    case None => EmptyBlock
    case Some(lt) => KindFor(lt)
  }

  lemma FirstSignificantSnoc(ty: string -> LineType, lines: seq<string>, line: string)
    ensures FirstSignificant(ty, lines + [line])
      == if FirstSignificant(ty, lines).Some? then FirstSignificant(ty, lines)
         else if SignificantType(ty(line)) then Some(ty(line)) else None
  {
    assert (lines + [line])[..|lines|] == lines;
  }

  /** Every block's kind is the one its first significant line calls for. */
  predicate KindsExplained(ty: string -> LineType, st: State) {
    (forall i | 0 <= i < |st.done| :: st.done[i].kind == KindOfLines(ty, st.done[i].lines))
    && st.cur.kind == KindOfLines(ty, st.cur.lines)
  }

  lemma EnterKindsExplained(ty: string -> LineType, st: State, n: nat)
    requires KindsExplained(ty, st)
    ensures KindsExplained(ty, Enter(st, n))
  {
    if st.endMultiLine {
      BlocksIndex(st);
    }
  }

  /** The kind a block ends up with after a line is added, whether or not the line retypes it. */
  lemma GrowKind(ty: string -> LineType, lines: seq<string>, kind: BlockType, k: BlockType, added: seq<string>, line: string)
    requires kind == KindOfLines(ty, lines)
    requires added == [line] || (added == [line, line] && !SignificantType(ty(line)))
    requires (kind == EmptyBlock && SignificantType(ty(line)) && k == KindFor(ty(line)))
      || (k == kind && (kind != EmptyBlock || !SignificantType(ty(line))))
    ensures k == KindOfLines(ty, lines + added)
  {
    FirstSignificantSnoc(ty, lines, line);
    if added == [line, line] {
      FirstSignificantSnoc(ty, lines + [line], line);
      assert lines + added == lines + [line] + [line];
    }
  }

  lemma StepKindsExplained(blankTwice: bool, ty: string -> LineType, st: State, n: nat, line: string)
    requires KindsExplained(ty, st) && Step(blankTwice, st, n, line, ty(line)).Ok?
    ensures KindsExplained(ty, Step(blankTwice, st, n, line, ty(line)).value)
  {
    var lt := ty(line);
    EnterKindsExplained(ty, st, n);
    var entered := Enter(st, n);
    var cur := entered.cur;
    var added := Added(blankTwice, line, lt);
    var act := Transition(cur.kind, lt);
    if act.Open? {
      BlocksIndex(entered);
      GrowKind(ty, [], EmptyBlock, act.kind, added, line);
      assert [] + added == added;
    } else {
      var k := if act.Retype? then act.kind else cur.kind;
      GrowKind(ty, cur.lines, cur.kind, k, added, line);
    }
  }

  lemma {:induction false} RunKindsExplained(blankTwice: bool, lang: Language, lines: seq<string>)
    requires RunWith(blankTwice, lang, lines).Ok?
    ensures KindsExplained(TypeOf(lang), RunWith(blankTwice, lang, lines).value)
  {
    if |lines| > 0 {
      var l := lines[|lines| - 1];
      RunWithSnoc(blankTwice, lang, lines);
      RunKindsExplained(blankTwice, lang, lines[..|lines| - 1]);
      assert TypeOf(lang)(l) == ParseLineType(lang, l).value;
      StepKindsExplained(blankTwice, TypeOf(lang), RunWith(blankTwice, lang, lines[..|lines| - 1]).value, |lines|, l);
    }
  }

  // Multi-line comments and block boundaries.

  predicate EndsWithClose(ty: string -> LineType, b: Block) {
    b.lines != [] && ty(b.lines[|b.lines| - 1]) == CloseMultiCommentLine
  }

  predicate StartsSignificant(ty: string -> LineType, b: Block) {
    b.lines != [] && SignificantType(ty(b.lines[0]))
  }

  /**
   * Every finished multi-line comment block ends with its closing line, and
   * the flag that opens a new block is up exactly when the current block is a
   * multi-line comment that has just been closed.
   */
  predicate ClosesTracked(ty: string -> LineType, st: State) {
    (forall i | 0 <= i < |st.done| :: st.done[i].kind == MultiLineCommentBlock ==> EndsWithClose(ty, st.done[i]))
    && (st.endMultiLine <==> st.cur.kind == MultiLineCommentBlock && EndsWithClose(ty, st.cur))
  }

  /** A block that does not follow a multi-line comment starts with a significant line. */
  predicate BoundariesSignificant(ty: string -> LineType, st: State) {
    (forall i | 0 < i < |st.done| ::
       st.done[i - 1].kind != MultiLineCommentBlock ==> StartsSignificant(ty, st.done[i]))
    && (st.done != [] && st.done[|st.done| - 1].kind != MultiLineCommentBlock ==> StartsSignificant(ty, st.cur))
  }

  lemma EnterBoundaries(ty: string -> LineType, st: State, n: nat)
    requires ClosesTracked(ty, st) && BoundariesSignificant(ty, st)
    ensures ClosesTracked(ty, Enter(st, n)) && BoundariesSignificant(ty, Enter(st, n))
  {
    if st.endMultiLine {
      BlocksIndex(st);
    }
  }

  lemma StepBoundaries(blankTwice: bool, ty: string -> LineType, st: State, n: nat, line: string)
    requires ClosesTracked(ty, st) && BoundariesSignificant(ty, st)
    requires Step(blankTwice, st, n, line, ty(line)).Ok?
    ensures ClosesTracked(ty, Step(blankTwice, st, n, line, ty(line)).value)
    ensures BoundariesSignificant(ty, Step(blankTwice, st, n, line, ty(line)).value)
  {
    EnterBoundaries(ty, st, n);
    var entered := Enter(st, n);
    var cur := entered.cur;
    var added := Added(blankTwice, line, ty(line));
    var act := Transition(cur.kind, ty(line));
    if act.Open? {
      OpenBoundaries(ty, entered, act.kind, added, n, line);
    } else {
      var k := if act.Retype? then act.kind else cur.kind;
      GrowBoundaries(ty, entered, k, added, n, line, act == CloseAfter);
    }
  }

  lemma OpenBoundaries(ty: string -> LineType, st: State, k: BlockType, added: seq<string>, n: nat, line: string)
    requires ClosesTracked(ty, st) && BoundariesSignificant(ty, st) && !st.endMultiLine
    requires st.cur.kind != MultiLineCommentBlock && SignificantType(ty(line))
    requires added == [line]
    ensures ClosesTracked(ty, State(Blocks(st), Block(k, added, n, n), false))
    ensures BoundariesSignificant(ty, State(Blocks(st), Block(k, added, n, n), false))
  {
    BlocksIndex(st);
  }

  lemma GrowBoundaries(ty: string -> LineType, st: State, k: BlockType, added: seq<string>, n: nat, line: string, endMulti: bool)
    requires ClosesTracked(ty, st) && BoundariesSignificant(ty, st) && !st.endMultiLine
    requires added == [line] || added == [line, line]
    requires k == MultiLineCommentBlock ==> st.cur.kind == MultiLineCommentBlock || ty(line) == OpenMultiCommentLine
    requires endMulti <==> k == MultiLineCommentBlock && ty(line) == CloseMultiCommentLine
    ensures var st' := State(st.done, Block(k, st.cur.lines + added, st.cur.startLine, n), endMulti);
      ClosesTracked(ty, st') && BoundariesSignificant(ty, st')
  {
    GrowEnds(st.cur.lines, added, line);
  }

  lemma GrowEnds(lines: seq<string>, added: seq<string>, line: string)
    requires added == [line] || added == [line, line]
    ensures var r := lines + added;
      r != [] && r[|r| - 1] == line && (lines != [] ==> r[0] == lines[0]) && (lines == [] ==> r[0] == line)
  {
  }

  lemma {:induction false} RunBoundaries(blankTwice: bool, lang: Language, lines: seq<string>)
    requires RunWith(blankTwice, lang, lines).Ok?
    ensures ClosesTracked(TypeOf(lang), RunWith(blankTwice, lang, lines).value)
    ensures BoundariesSignificant(TypeOf(lang), RunWith(blankTwice, lang, lines).value)
  {
    if |lines| > 0 {
      var l := lines[|lines| - 1];
      RunWithSnoc(blankTwice, lang, lines);
      RunBoundaries(blankTwice, lang, lines[..|lines| - 1]);
      assert TypeOf(lang)(l) == ParseLineType(lang, l).value;
      StepBoundaries(blankTwice, TypeOf(lang), RunWith(blankTwice, lang, lines[..|lines| - 1]).value, |lines|, l);
    }
  }

  /** A line of a successful run that the classifier calls significant is not blank. */
  lemma SignificantNotBlank(lang: Language, line: string)
    requires SignificantType(TypeOf(lang)(line))
    ensures !IsBlank(line)
  {
    BlankLineIsEmpty(lang, line);
  }

  /**
   * What the segmenter guarantees about its blocks: each block's kind comes
   * from its first significant line (Empty if it has none); every multi-line
   * comment block but the last ends with its closing line; a block that does
   * not follow a multi-line comment starts with a significant line, so blank
   * lines never start a block of their own.
   */
  lemma BlockStructure(lang: Language, lines: seq<string>)
    requires Run(lang, lines).Ok?
    ensures var bs := Blocks(Run(lang, lines).value);
      (forall i | 0 <= i < |bs| :: bs[i].kind == KindOfLines(TypeOf(lang), bs[i].lines))
      && (forall i | 0 <= i < |bs| - 1 :: bs[i].kind == MultiLineCommentBlock ==> EndsWithClose(TypeOf(lang), bs[i]))
      && (forall i | 0 < i < |bs| :: bs[i - 1].kind != MultiLineCommentBlock ==>
            StartsSignificant(TypeOf(lang), bs[i]) && !IsBlank(bs[i].lines[0]))
  {
    var ty := TypeOf(lang);
    RunKindsExplained(false, lang, lines);
    RunBoundaries(false, lang, lines);
    var st := Run(lang, lines).value;
    var bs := Blocks(st);
    BlocksIndex(st);
    forall i | 0 <= i < |bs| ensures bs[i].kind == KindOfLines(ty, bs[i].lines) {
      if i < |st.done| {
        assert bs[i] == st.done[i];
      }
    }
    forall i | 0 < i < |bs| && bs[i - 1].kind != MultiLineCommentBlock
      ensures StartsSignificant(ty, bs[i]) && !IsBlank(bs[i].lines[0])
    {
      if i < |st.done| {
        assert bs[i] == st.done[i] && bs[i - 1] == st.done[i - 1];
      }
      SignificantNotBlank(lang, bs[i].lines[0]);
    }
  }

  // Failures.

  lemma RunWithSnocUnfold(blankTwice: bool, lang: Language, prefix: seq<string>, l: string)
    ensures RunWith(blankTwice, lang, prefix + [l])
      == match RunWith(blankTwice, lang, prefix)
         case Err(e) => Err(e)
         case Ok(st) =>
           match ParseLineType(lang, l)
           case Err(e) => Err(e)
           case Ok(lt) => Step(blankTwice, st, |prefix| + 1, l, lt)
  {
    assert (prefix + [l])[..|prefix|] == prefix;
  }

  /** The first failure stops the scan: later lines cannot change the error. */
  lemma {:induction false} FailureIsFinal(lang: Language, prefix: seq<string>, rest: seq<string>)
    requires Run(lang, prefix).Err?
    ensures Run(lang, prefix + rest) == Run(lang, prefix)
    decreases |rest|
  {
    if |rest| > 0 {
      var init := rest[..|rest| - 1];
      FailureIsFinal(lang, prefix, init);
      RunWithSnocUnfold(false, lang, prefix + init, rest[|rest| - 1]);
      assert prefix + rest == (prefix + init) + [rest[|rest| - 1]];
    } else {
      assert prefix + rest == prefix;
    }
  }

  /**
   * A closing line after lines that parse fails exactly when the current
   * block is a single-line comment block. Inside an Empty or Code block it is
   * absorbed: no block starts and the flag stays down. Inside a multi-line
   * comment it raises the flag, so the next line starts a block.
   */
  lemma StrayClose(lang: Language, prefix: seq<string>, l: string)
    requires Run(lang, prefix).Ok? && ParseLineType(lang, l) == Ok(CloseMultiCommentLine)
    ensures var st := Run(lang, prefix).value;
      var kind := if st.endMultiLine then EmptyBlock else st.cur.kind;
      var r := Run(lang, prefix + [l]);
      (r == Err(SyntaxError(|prefix| + 1)) <==> kind == SingleLineCommentBlock)
      && (r.Ok? ==> r.value.endMultiLine == (kind == MultiLineCommentBlock) && r.value.cur.kind == kind)
      && (r.Ok? ==> |Blocks(r.value)| == |Blocks(st)| + (if st.endMultiLine then 1 else 0))
  {
    RunWithSnocUnfold(false, lang, prefix, l);
  }

  predicate AllBlank(lines: seq<string>) {
    forall k | 0 <= k < |lines| :: IsBlank(lines[k])
  }

  lemma AllBlankSnoc(prefix: seq<string>, l: string)
    ensures AllBlank(prefix + [l]) <==> AllBlank(prefix) && IsBlank(l)
  {
    var lines := prefix + [l];
    if AllBlank(prefix) && IsBlank(l) {
      forall k | 0 <= k < |lines| ensures IsBlank(lines[k]) {
        if k < |prefix| {
          assert lines[k] == prefix[k];
        }
      }
    }
    if AllBlank(lines) {
      forall k | 0 <= k < |prefix| ensures IsBlank(prefix[k]) {
        assert lines[k] == prefix[k];
      }
      assert lines[|prefix|] == l;
    }
  }

  lemma {:induction false} UnsupportedRun(lang: Language, lines: seq<string>)
    requires lang !in Supported
    ensures Run(lang, lines).Ok? <==> AllBlank(lines)
    ensures Run(lang, lines).Err? ==> Run(lang, lines) == Err(UnsupportedLanguage(lang))
  {
    if |lines| > 0 {
      var prefix := lines[..|lines| - 1];
      var l := lines[|lines| - 1];
      UnsupportedRun(lang, prefix);
      SplitLast(lines);
      RunWithSnocUnfold(false, lang, prefix, l);
      AllBlankSnoc(prefix, l);
      UnsupportedLanguageRule(lang, l);
      BlankLineIsEmpty(lang, l);
    }
  }

  lemma {:induction false} SupportedRun(lang: Language, lines: seq<string>)
    requires lang in Supported
    ensures Run(lang, lines).Err? ==> Run(lang, lines).error.SyntaxError?
  {
    if |lines| > 0 {
      var prefix := lines[..|lines| - 1];
      var l := lines[|lines| - 1];
      SupportedRun(lang, prefix);
      SplitLast(lines);
      RunWithSnocUnfold(false, lang, prefix, l);
      UnsupportedLanguageRule(lang, l);
    }
  }

  /** An unlisted language fails exactly when some line is not blank; a listed one never fails that way. */
  lemma UnsupportedLanguageRun(lang: Language, lines: seq<string>)
    ensures lang !in Supported ==>
      (Run(lang, lines) == Err(UnsupportedLanguage(lang)) <==> exists k | 0 <= k < |lines| :: !IsBlank(lines[k]))
    ensures lang !in Supported ==> Run(lang, lines).Ok? || Run(lang, lines) == Err(UnsupportedLanguage(lang))
    ensures lang in Supported ==> forall e :: Run(lang, lines) != Err(UnsupportedLanguage(e))
  {
    if lang in Supported {
      SupportedRun(lang, lines);
    } else {
      UnsupportedRun(lang, lines);
    }
  }

  /** The scan over lines whose types are already known. */
  function StepAll(lines: seq<string>, types: seq<LineType>): Result<State, ParseError>
    requires |types| == |lines|
  {
    if |lines| == 0 then Ok(Initial)
    else
      match StepAll(lines[..|lines| - 1], types[..|types| - 1])
      case Err(e) => Err(e)
      case Ok(st) => Step(false, st, |lines|, lines[|lines| - 1], types[|types| - 1])
  }

  /** `types` holds the type the classifier gives each of the lines. */
  predicate Classified(lang: Language, lines: seq<string>, types: seq<LineType>) {
    |types| == |lines| && forall k | 0 <= k < |lines| :: ParseLineType(lang, lines[k]) == Ok(types[k])
  }

  /** Once every line's type is known, the scan is the steps over those types. */
  lemma {:induction false} RunClassified(lang: Language, lines: seq<string>, types: seq<LineType>)
    requires Classified(lang, lines, types)
    ensures Run(lang, lines) == StepAll(lines, types)
  {
    if |lines| > 0 {
      var n := |lines|;
      RunClassified(lang, lines[..n - 1], types[..n - 1]);
      assert ParseLineType(lang, lines[n - 1]) == Ok(types[n - 1]);
    }
  }

  /** Once every line's type is known, the scan ends where the steps over those types end. */
  lemma RunSteps(lang: Language, lines: seq<string>, types: seq<LineType>, st: State)
    requires Classified(lang, lines, types) && StepAll(lines, types) == Ok(st)
    ensures Run(lang, lines) == Ok(st)
  {
    RunClassified(lang, lines, types);
  }

  /**
   * A sequence of states, one before each line and one after the last, each
   * reached from the one before by a step: the scan ends in the last.
   */
  lemma {:induction false} StepsChain(lines: seq<string>, types: seq<LineType>, sts: seq<State>)
    requires |types| == |lines| && |sts| == |lines| + 1 && sts[0] == Initial
    requires forall k | 0 <= k < |lines| :: Step(false, sts[k], k + 1, lines[k], types[k]) == Ok(sts[k + 1])
    ensures StepAll(lines, types) == Ok(sts[|lines|])
    decreases |lines|
  {
    if |lines| > 0 {
      var n := |lines|;
      StepsChain(lines[..n - 1], types[..n - 1], sts[..n]);
    }
  }

  // The scan loop itself.

  /**
   * parseReader over the text the scanner reads: the loop keeps the finished
   * blocks, the current block, the flag and the lines read so far, and ends
   * in the blocks and the rejoined source that ParseSpec describes. A panic
   * of the Go code is an error result here.
   */
  method ParseReader(lang: Language, text: string) returns (res: Result<(seq<Block>, string), ParseError>)
    ensures res == ParseSpec(lang, text)
  {
    var scanned := ScanLines(text);
    var lineNum := 0;
    var block := InitialBlock;
    var blocks: seq<Block> := [];
    var endMultiLine := false;
    var lines: seq<string> := [];
    while lineNum < |scanned|
      invariant 0 <= lineNum <= |scanned| && lines == scanned[..lineNum]
      invariant Run(lang, lines) == Ok(State(blocks, block, endMultiLine))
    {
      var line := scanned[lineNum];
      ghost var st0 := State(blocks, block, endMultiLine);
      assert scanned[..lineNum + 1] == lines + [line];
      lineNum := lineNum + 1;
      lines := lines + [line];
      if endMultiLine {
        blocks := blocks + [block];
        block := Block(EmptyBlock, [], lineNum, lineNum);
      }
      endMultiLine := false;
      var lineType := ParseLineType(lang, line);
      ReaderStep(lang, lines, st0, lineType);
      if lineType.Err? {
        ReaderFails(lang, text, lineNum);
        return Err(lineType.error);
      }
      var failed;
      blocks, block, endMultiLine, failed := HandleLine(false, blocks, block, lineNum, line, lineType.value);
      if failed {
        ReaderFails(lang, text, lineNum);
        return Err(SyntaxError(lineNum));
      }
    }
    assert lines == scanned;
    return Ok((blocks + [block], Join(lines, "\n")));
  }

  /** One more line: the run so far, then the classifier, then a step from the entered state. */
  lemma ReaderStep(lang: Language, lines: seq<string>, st0: State, lineType: Result<LineType, ParseError>)
    requires lines != [] && Run(lang, lines[..|lines| - 1]) == Ok(st0)
    requires lineType == ParseLineType(lang, lines[|lines| - 1])
    ensures lineType.Err? ==> Run(lang, lines) == Err(lineType.error)
    ensures lineType.Ok? ==>
              Run(lang, lines) == Step(false, Enter(st0, |lines|), |lines|, lines[|lines| - 1], lineType.value)
  {
    var n := |lines|;
    SplitLast(lines);
    RunWithSnocUnfold(false, lang, lines[..n - 1], lines[n - 1]);
    if lineType.Ok? {
      EnterStep(st0, n, lines[n - 1], lineType.value);
    }
  }

  /** A failure on line `n` is the failure of the whole text. */
  lemma ReaderFails(lang: Language, text: string, n: nat)
    requires 0 < n <= |ScanLines(text)| && Run(lang, ScanLines(text)[..n]).Err?
    ensures ParseSpec(lang, text) == Err(Run(lang, ScanLines(text)[..n]).error)
  {
    var scanned := ScanLines(text);
    FailureIsFinal(lang, scanned[..n], scanned[n..]);
    assert scanned[..n] + scanned[n..] == scanned;
  }

  /**
   * The body of parseReader's loop after the flag is handled: the switch on
   * the line type and the block type, then the append of the line. `failed`
   * stands for the panic on a stray close. With `blankTwice` the EmptyLine
   * case appends the line as the source does, so that it is stored twice;
   * without it, the line is stored once.
   */
  method HandleLine(blankTwice: bool, blocks: seq<Block>, block: Block, lineNum: nat, line: string, lineType: LineType)
    returns (blocks': seq<Block>, block': Block, endMultiLine: bool, failed: bool)
    ensures failed <==> Step(blankTwice, State(blocks, block, false), lineNum, line, lineType).Err?
    ensures !failed ==>
      Step(blankTwice, State(blocks, block, false), lineNum, line, lineType) == Ok(State(blocks', block', endMultiLine))
  {
    assert [] + [line] == [line];
    blocks' := blocks;
    block' := block;
    endMultiLine := false;
    failed := false;
    match lineType {
      case EmptyLine =>
        if blankTwice {
          block' := block'.(lines := block'.lines + [line]);
          assert block'.lines + [line] == block.lines + [line, line];
        }
      case NormalLine =>
        match block.kind {
          case EmptyBlock =>
            block' := block'.(kind := CodeBlock);
          case SingleLineCommentBlock =>
            blocks' := blocks' + [block'];
            block' := Block(CodeBlock, [], lineNum, lineNum);
          case _ =>
        }
      case SingleCommentLine =>
        match block.kind {
          case EmptyBlock =>
            block' := block'.(kind := SingleLineCommentBlock);
          case CodeBlock =>
            blocks' := blocks' + [block'];
            block' := Block(SingleLineCommentBlock, [], lineNum, lineNum);
          case _ =>
        }
      case OpenMultiCommentLine =>
        match block.kind {
          case EmptyBlock =>
            block' := block'.(kind := MultiLineCommentBlock);
          case CodeBlock =>
            blocks' := blocks' + [block'];
            block' := Block(MultiLineCommentBlock, [], lineNum, lineNum);
          case _ =>
        }
      case CloseMultiCommentLine =>
        match block.kind {
          case MultiLineCommentBlock =>
            endMultiLine := true;
          case SingleLineCommentBlock =>
            failed := true;
            return;
          case _ =>
        }
    }
    block' := block'.(lines := block'.lines + [line], endLine := lineNum);
  }
}
