/**
 * The CLI's `processTokens`: one pass over the flat token stream with a
 * cursor, a list depth counter, a buffer of pending list items and a buffer
 * of table rows, calling the generator's `add*` methods as it goes.
 *
 * `Run` is the specification: a step function on the compiler's state,
 * iterated until the cursor passes the end or a read past the end of the
 * token array throws. `ProcessTokens` is the loop itself, proved to leave
 * the generator holding exactly the blocks of the calls `Run` lists.
 */
module CliCompiler {
  import opened Wrappers
  import opened Text
  import opened Tokens
  import opened Cache
  import opened Blocks
  import opened MarkdownParser
  import opened Toc
  import opened DocxGenerator

  /** A call `processTokens` makes on the generator, with its arguments. */
  datatype Call =
    | HeadingCall(text: string, heading: Option<int>)
    | ParagraphCall(text: string)
    | TaskCall(text: string, checked: bool, level: int)
    | ListCall(items: seq<string>, ordered: bool, level: int)
    | CodeCall(code: string, language: string)
    | TableCall(data: seq<seq<string>>)

  /** A buffered list item and the depth (`listLevel - 1`) it was met at. */
  datatype ListEntry = ListEntry(text: string, level: int)

  /** The compiler's variables: the cursor and the four locals of `processTokens`. */
  datatype CompilerState = CompilerState(i: nat, listLevel: int, items: seq<ListEntry>,
                                         ordered: bool, table: seq<seq<string>>)

  const Start := CompilerState(0, 0, [], false, [])

  // ----- task items

  predicate IsTaskBox(c: char) { c == ' ' || c == 'x' || c == 'X' }

  predicate SingleLine(s: string)
  {
    forall k :: 0 <= k < |s| ==> !IsLineTerminator(s[k])
  }

  /**
   * `content.match(/^\[([ x])\]\s*(.*)$/i)`: whether the box is checked and
   * the text after it. `\s*` is greedy and `.` stops at a line terminator,
   * so the text is what follows the box once all leading whitespace is
   * gone, and it must hold no line terminator.
   */
  function TaskMatch(content: string): (r: Option<(bool, string)>)
    ensures r.Some? ==> |content| >= 3 && (r.value.0 <==> content[1] != ' ')
  {
    if |content| >= 3 && content[0] == '[' && IsTaskBox(content[1]) && content[2] == ']'
       && SingleLine(TrimStart(content[3..]))
    then Some((content[1] == 'x' || content[1] == 'X', TrimStart(content[3..])))
    else None
  }

  /**
   * The regular expression's reading: a match needs the box at the very
   * start and a text without line terminators; the text never opens with
   * a space, which the greedy `\s*` takes.
   */
  lemma TaskMatchShape(content: string)
    ensures TaskMatch(content).Some?
        <==> (|content| >= 3 && content[0] == '[' && IsTaskBox(content[1]) && content[2] == ']'
              && SingleLine(TrimStart(content[3..])))
    ensures TaskMatch(content).Some? ==> SingleLine(TaskMatch(content).value.1)
    ensures TaskMatch(content).Some? && TaskMatch(content).value.1 != [] ==> !IsSpace(TaskMatch(content).value.1[0])
  {
    if |content| >= 3 {
      TrimStartShape(content[3..]);
    }
  }

  /** The text of a task item is what follows the box and its spaces: a suffix of the content, at most three shorter. */
  lemma TaskTextIsSuffix(content: string)
    requires TaskMatch(content).Some?
    ensures var text := TaskMatch(content).value.1;
            |text| <= |content| - 3 && content[|content| - |text|..] == text
  {
    var text := TrimStart(content[3..]);
    TrimStartShape(content[3..]);
    assert content[|content| - |text|..] == content[3..][|content[3..]| - |text|..];
  }

  /** A task line written `[c] text` reads back as its box and its text. */
  lemma TaskMatchOfLine(c: char, text: string)
    requires IsTaskBox(c) && SingleLine(text) && (text == [] || !IsSpace(text[0]))
    ensures TaskMatch("[" + [c] + "] " + text) == Some((c != ' ', text))
  {
    var content := "[" + [c] + "] " + text;
    assert content[0] == '[' && content[1] == c && content[2] == ']' && content[3] == ' ';
    assert content[3..][1..] == text;
    assert TrimStart(text) == text;
    assert TrimStart(content[3..]) == text;
  }

  /** Text that does not open with a box is never a task item. */
  lemma PlainTextIsNoTask(content: string)
    requires content == [] || content[0] != '['
    ensures TaskMatch(content).None?
  {
  }

  // ----- the list flush

  /** `items.filter(item => item.level === level).map(item => item.text)`. */
  function TextsAt(items: seq<ListEntry>, level: int): (r: seq<string>)
    ensures |r| <= |items|
    ensures r != [] ==> level <= MaxLevel(items)
  {
    if items == [] then []
    else (if items[0].level == level then [items[0].text] else []) + TextsAt(items[1..], level)
  }

  function MaxLevel(items: seq<ListEntry>): (m: int)
    ensures forall k :: 0 <= k < |items| ==> items[k].level <= m
  {
    if items == [] then -1
    else if |items| == 1 || MaxLevel(items[1..]) <= items[0].level then items[0].level
    else MaxLevel(items[1..])
  }

  /** The `while (currentLevelItems.length > 0)` flush from `level` on: one list per level until a level is empty. */
  function FlushFrom(items: seq<ListEntry>, ordered: bool, level: int): seq<Call>
    decreases MaxLevel(items) - level
  {
    if TextsAt(items, level) == [] then []
    else [ListCall(TextsAt(items, level), ordered, level)] + FlushFrom(items, ordered, level + 1)
  }

  /**
   * The flush emits one list per level `from`, `from + 1`, … in ascending
   * order, each holding that level's texts in buffer order, and stops at
   * the first level with no items.
   */
  lemma {:induction false} FlushLevels(items: seq<ListEntry>, ordered: bool, from: int)
    ensures var f := FlushFrom(items, ordered, from);
            && (forall k :: 0 <= k < |f| ==>
                  f[k] == ListCall(TextsAt(items, from + k), ordered, from + k) && f[k].items != [])
            && TextsAt(items, from + |f|) == []
    decreases MaxLevel(items) - from
  {
    if TextsAt(items, from) != [] {
      FlushLevels(items, ordered, from + 1);
      var f := FlushFrom(items, ordered, from);
      var g := FlushFrom(items, ordered, from + 1);
      assert f == [ListCall(TextsAt(items, from), ordered, from)] + g;
      forall k | 0 <= k < |f|
        ensures f[k] == ListCall(TextsAt(items, from + k), ordered, from + k) && f[k].items != []
      {
        if k > 0 {
          assert f[k] == g[k - 1];
        }
      }
    }
  }

  /** Every level from 0 up to `level` holds at least one buffered item. */
  predicate LevelsFilled(items: seq<ListEntry>, level: int)
  {
    forall l :: 0 <= l <= level ==> TextsAt(items, l) != []
  }

  /** The flush starting at level 0 emits the list of `level`'s items. */
  predicate Flushed(items: seq<ListEntry>, ordered: bool, level: int)
  {
    exists k :: 0 <= k < |FlushFrom(items, ordered, 0)|
                && FlushFrom(items, ordered, 0)[k] == ListCall(TextsAt(items, level), ordered, level)
  }

  /** When every level up to `level` holds an item, the flush emits that level's list at position `level`. */
  lemma {:induction false} FlushedWhenLevelsFilled(items: seq<ListEntry>, ordered: bool, level: nat)
    requires LevelsFilled(items, level)
    ensures level < |FlushFrom(items, ordered, 0)|
    ensures FlushFrom(items, ordered, 0)[level] == ListCall(TextsAt(items, level), ordered, level)
  {
    var f := FlushFrom(items, ordered, 0);
    FlushLevels(items, ordered, 0);
    assert |f| <= level ==> TextsAt(items, |f|) != [];
  }

  /** A list the flush emits at some position proves every level up to its own non-empty. */
  lemma {:induction false} LevelsFilledWhenFlushed(items: seq<ListEntry>, ordered: bool, level: nat, k: nat)
    requires k < |FlushFrom(items, ordered, 0)|
    requires FlushFrom(items, ordered, 0)[k] == ListCall(TextsAt(items, level), ordered, level)
    ensures LevelsFilled(items, level)
  {
    var f := FlushFrom(items, ordered, 0);
    FlushLevels(items, ordered, 0);
    assert f[k] == ListCall(TextsAt(items, k), ordered, k);
    assert k == level;
    forall l | 0 <= l <= level ensures TextsAt(items, l) != [] {
      assert f[l].items != [];
    }
  }

  /** An item is flushed exactly when every level from 0 up to its own holds an item. */
  lemma ItemFlushedIff(items: seq<ListEntry>, ordered: bool, e: ListEntry)
    requires e in items && e.level >= 0
    ensures Flushed(items, ordered, e.level) <==> LevelsFilled(items, e.level)
  {
    if LevelsFilled(items, e.level) {
      FlushedWhenLevelsFilled(items, ordered, e.level);
    }
    if Flushed(items, ordered, e.level) {
      var k :| 0 <= k < |FlushFrom(items, ordered, 0)|
               && FlushFrom(items, ordered, 0)[k] == ListCall(TextsAt(items, e.level), ordered, e.level);
      LevelsFilledWhenFlushed(items, ordered, e.level, k);
    }
  }

  // ----- one step

  datatype StepResult = Next(calls: seq<Call>, next: CompilerState) | Crash

  /**
   * The `while (tokens[j].type !== 'tr_close')` scan from `j`, collecting
   * into `row` the content of each `td_open`/`th_open` directly followed
   * by an `inline` token: the row and the index of its `tr_close`, or
   * `None` where the scan reads past the end of the array.
   */
  function ScanRow(tokens: seq<Token>, j: nat, row: seq<string>): (r: Option<(seq<string>, nat)>)
    ensures r.Some? ==> j <= r.value.1 < |tokens| && tokens[r.value.1].kind == TrClose
    ensures r.Some? ==> row <= r.value.0 && CellsWithin(tokens, j, r.value.1, r.value.0[|row|..])
    decreases |tokens| - j
  {
    if j >= |tokens| then None
    else if tokens[j].kind == TrClose then Some((row, j))
    else if tokens[j].kind.IsCellOpen() then
      if j + 1 >= |tokens| then None
      else if tokens[j + 1].kind == Inline then
        var r := ScanRow(tokens, j + 3, row + [tokens[j + 1].content]);
        if r.Some? then
          CellsWithinCons(tokens, j, j + 3, r.value.1, row, tokens[j + 1].content, r.value.0);
          r
        else r
      else ScanRow(tokens, j + 1, row)
    else ScanRow(tokens, j + 1, row)
  }

  /** `heading_open`: the next token's content is the heading text; the turn skips that token. */
  function HeadingStep(tokens: seq<Token>, s: CompilerState): StepResult
    requires s.i < |tokens|
  {
    if s.i + 1 >= |tokens| then Crash
    else Next([HeadingCall(tokens[s.i + 1].content, HeadingLevel(tokens[s.i].tag))], s.(i := s.i + 2))
  }

  /** `paragraph_open`: a non-empty content in the next token becomes a paragraph; the turn skips that token. */
  function ParagraphStep(tokens: seq<Token>, s: CompilerState): StepResult
    requires s.i < |tokens|
  {
    if s.i + 1 >= |tokens| then Crash
    else Next(if tokens[s.i + 1].content != "" then [ParagraphCall(tokens[s.i + 1].content)] else [], s.(i := s.i + 2))
  }

  /** `bullet_list_open`/`ordered_list_open`: one level deeper; the kind is taken only when no item is pending. */
  function ListOpenStep(s: CompilerState, ordered: bool): CompilerState
  {
    s.(i := s.i + 1, listLevel := s.listLevel + 1, ordered := if s.items == [] then ordered else s.ordered)
  }

  /** `bullet_list_close`/`ordered_list_close`: one level up; back at 0, the pending items are flushed. */
  function ListCloseStep(s: CompilerState): StepResult
  {
    if s.listLevel - 1 == 0 && s.items != [] then
      Next(FlushFrom(s.items, s.ordered, 0), s.(i := s.i + 1, listLevel := 0, items := []))
    else Next([], s.(i := s.i + 1, listLevel := s.listLevel - 1))
  }

  /**
   * `list_item_open`: the text two tokens on is a task item, which is
   * added at once and skipped, or is buffered at depth `listLevel - 1`;
   * missing or empty text is ignored.
   */
  function ListItemStep(tokens: seq<Token>, s: CompilerState): StepResult
    requires s.i < |tokens|
  {
    var i := s.i;
    if i + 2 < |tokens| && tokens[i + 2].content != "" then
      var content := tokens[i + 2].content;
      var m := TaskMatch(content);
      if m.Some? then Next([TaskCall(m.value.1, m.value.0, s.listLevel - 1)], s.(i := i + 3))
      else Next([], s.(i := i + 1, items := s.items + [ListEntry(content, s.listLevel - 1)]))
    else Next([], s.(i := i + 1))
  }

  /** `ListItemStep` on a task item, for callers whose context is too large to unfold it cheaply. */
  lemma ListItemTaskStep(tokens: seq<Token>, s: CompilerState)
    requires s.i + 2 < |tokens| && tokens[s.i + 2].content != "" && TaskMatch(tokens[s.i + 2].content).Some?
    ensures var m := TaskMatch(tokens[s.i + 2].content).value;
            ListItemStep(tokens, s) == Next([TaskCall(m.1, m.0, s.listLevel - 1)], s.(i := s.i + 3))
  {
  }

  /** The plain case of `ListItemStep`: the item is buffered at depth `listLevel - 1`. */
  lemma ListItemBufferStep(tokens: seq<Token>, s: CompilerState)
    requires s.i + 2 < |tokens| && tokens[s.i + 2].content != "" && TaskMatch(tokens[s.i + 2].content).None?
    ensures ListItemStep(tokens, s)
            == Next([], s.(i := s.i + 1, items := s.items + [ListEntry(tokens[s.i + 2].content, s.listLevel - 1)]))
  {
  }

  /** `tr_open`: the scanned row joins the table and the cursor moves past the row's `tr_close`. */
  function TableRowStep(tokens: seq<Token>, s: CompilerState): (r: StepResult)
    ensures r.Next? ==> s.i < r.next.i <= |tokens|
    ensures r.Next? ==> |r.next.table| == |s.table| + 1 && r.next.table[..|s.table|] == s.table
    ensures r.Next? ==> CellsWithin(tokens, s.i + 1, r.next.i - 1, r.next.table[|s.table|])
  {
    match ScanRow(tokens, s.i + 1, [])
    case None => Crash
    case Some(row) => Next([], s.(i := row.1 + 1, table := s.table + [row.0]))
  }

  /** `table_close`: the collected rows, when there are any, become one table. */
  function TableCloseStep(s: CompilerState): StepResult
  {
    if s.table != [] then Next([TableCall(s.table)], s.(i := s.i + 1, table := []))
    else Next([], s.(i := s.i + 1))
  }

  /** One turn of the `for` loop: the token at the cursor decides the calls and the new state. */
  function Step(tokens: seq<Token>, s: CompilerState): (r: StepResult)
    requires s.i < |tokens|
    ensures r.Next? ==> s.i < r.next.i <= |tokens|
  {
    var t := tokens[s.i];
    match t.kind
    case HeadingOpen => HeadingStep(tokens, s)
    case ParagraphOpen => ParagraphStep(tokens, s)
    case BulletListOpen => Next([], ListOpenStep(s, false))
    case OrderedListOpen => Next([], ListOpenStep(s, true))
    case ListItemOpen => ListItemStep(tokens, s)
    case BulletListClose => ListCloseStep(s)
    case OrderedListClose => ListCloseStep(s)
    case Fence => Next([CodeCall(t.content, t.info)], s.(i := s.i + 1))
    case TableOpen => Next([], s.(i := s.i + 1, table := []))
    case TrOpen => TableRowStep(tokens, s)
    case TableClose => TableCloseStep(s)
    case _ => Next([], s.(i := s.i + 1))
  }

  /** A `list_item_open` token is handled by `ListItemStep`. */
  lemma StepOfListItem(tokens: seq<Token>, s: CompilerState)
    requires s.i < |tokens| && tokens[s.i].kind == ListItemOpen
    ensures Step(tokens, s) == ListItemStep(tokens, s)
  {
  }

  /** A `paragraph_open` token is handled by `ParagraphStep`. */
  lemma StepOfParagraph(tokens: seq<Token>, s: CompilerState)
    requires s.i < |tokens| && tokens[s.i].kind == ParagraphOpen
    ensures Step(tokens, s) == ParagraphStep(tokens, s)
  {
  }

  /** The calls made from state `s` on, and whether the pass ends by throwing. */
  function Run(tokens: seq<Token>, s: CompilerState): (seq<Call>, bool)
    requires s.i <= |tokens|
    decreases |tokens| - s.i
  {
    if s.i == |tokens| then ([], false)
    else match Step(tokens, s)
      case Crash => ([], true)
      case Next(calls, next) =>
        var rest := Run(tokens, next);
        (calls + rest.0, rest.1)
  }

  function Compile(tokens: seq<Token>): (seq<Call>, bool)
  {
    Run(tokens, Start)
  }

  // ----- the blocks a call appends

  function CallBlocks(theme: Theme, c: Call): seq<Block>
    requires |theme.headings| == 6
  {
    match c
    case HeadingCall(text, level) => [HeadingBlock(theme, text, level)]
    case ParagraphCall(text) => [ParagraphBlock(theme, text)]
    case TaskCall(text, checked, level) => [TaskItem(text, checked, level)]
    case ListCall(items, ordered, level) => ListBlocks(theme, items, ordered, level)
    case CodeCall(code, _) => [CodeBlock(code)]
    case TableCall(data) => TableBlocks(theme, data)
  }

  function Render(theme: Theme, calls: seq<Call>): seq<Block>
    requires |theme.headings| == 6
  {
    if calls == [] then [] else CallBlocks(theme, calls[0]) + Render(theme, calls[1..])
  }

  lemma {:induction false} RenderAppend(theme: Theme, a: seq<Call>, b: seq<Call>)
    requires |theme.headings| == 6
    ensures Render(theme, a + b) == Render(theme, a) + Render(theme, b)
  {
    if a != [] {
      assert (a + b)[1..] == a[1..] + b;
      RenderAppend(theme, a[1..], b);
    } else {
      assert a + b == b;
    }
  }

  lemma RenderOne(theme: Theme, c: Call)
    requires |theme.headings| == 6
    ensures Render(theme, [c]) == CallBlocks(theme, c)
  {
    assert [c][1..] == [];
  }

  /** Text blocks only: the token pass appends no image, caption or placeholder. */
  predicate IsImagePart(b: Block) { b.Image? || b.Caption? || b.Placeholder? }

  lemma {:induction false} RenderHasNoImages(theme: Theme, calls: seq<Call>)
    requires |theme.headings| == 6
    ensures forall b :: b in Render(theme, calls) ==> !IsImagePart(b)
  {
    if calls != [] {
      RenderHasNoImages(theme, calls[1..]);
      var c := calls[0];
      if c.ListCall? {
        forall b | b in ListBlocks(theme, c.items, c.ordered, c.level) ensures !IsImagePart(b) {
          var k :| 0 <= k < |ListBlocks(theme, c.items, c.ordered, c.level)| && ListBlocks(theme, c.items, c.ordered, c.level)[k] == b;
        }
      }
    }
  }

  // ----- what the pass emits

  /** The calls the pass can make: paragraphs carry text, lists carry items at a depth from 0, tables carry rows. */
  predicate EmittedShape(c: Call)
  {
    && (c.ParagraphCall? ==> c.text != "")
    && (c.ListCall? ==> c.items != [] && c.level >= 0)
    && (c.TableCall? ==> c.data != [])
  }

  lemma StepShape(tokens: seq<Token>, s: CompilerState)
    requires s.i < |tokens|
    ensures Step(tokens, s).Next? ==> forall c :: c in Step(tokens, s).calls ==> EmittedShape(c)
  {
    if tokens[s.i].kind.IsListClose() && s.listLevel - 1 == 0 && s.items != [] {
      var f := FlushFrom(s.items, s.ordered, 0);
      FlushLevels(s.items, s.ordered, 0);
      forall c | c in f ensures EmittedShape(c) {
        var k :| 0 <= k < |f| && f[k] == c;
      }
    }
  }

  /** Every call of the pass has the shape `EmittedShape` states. */
  lemma {:induction false} RunShape(tokens: seq<Token>, s: CompilerState)
    requires s.i <= |tokens|
    ensures forall c :: c in Run(tokens, s).0 ==> EmittedShape(c)
    decreases |tokens| - s.i
  {
    if s.i < |tokens| {
      StepShape(tokens, s);
      if Step(tokens, s).Next? {
        RunShape(tokens, Step(tokens, s).next);
      }
    }
  }

  /** No empty paragraph, no empty list and no empty table is ever requested, and list depths start at 0. */
  lemma CompileShape(tokens: seq<Token>)
    ensures forall c :: c in Compile(tokens).0 ==> EmittedShape(c)
  {
    RunShape(tokens, Start);
  }

  /** One unfolding of `Run` at a step that does not throw. */
  lemma RunNext(tokens: seq<Token>, s: CompilerState, calls: seq<Call>, next: CompilerState)
    requires s.i < |tokens| && Step(tokens, s) == Next(calls, next)
    ensures Run(tokens, s) == (calls + Run(tokens, next).0, Run(tokens, next).1)
  {
  }

  /**
   * A plain list item is buffered, and the cursor stops on the item's own
   * `paragraph_open`, so the next turn emits the same text as a paragraph
   * too: a plain item reaches the document twice.
   */
  lemma PlainItemAlsoParagraph(tokens: seq<Token>, s: CompilerState)
    requires s.i + 2 < |tokens| && tokens[s.i].kind == ListItemOpen && tokens[s.i + 1].kind == ParagraphOpen
    requires tokens[s.i + 2].content != "" && TaskMatch(tokens[s.i + 2].content).None?
    ensures var text := tokens[s.i + 2].content;
            var buffered := s.(i := s.i + 1, items := s.items + [ListEntry(text, s.listLevel - 1)]);
            && Step(tokens, s) == Next([], buffered)
            && Step(tokens, buffered) == Next([ParagraphCall(text)], buffered.(i := s.i + 3))
  {
    var text := tokens[s.i + 2].content;
    var buffered := s.(i := s.i + 1, items := s.items + [ListEntry(text, s.listLevel - 1)]);
    StepOfListItem(tokens, s);
    ListItemBufferStep(tokens, s);
    StepOfParagraph(tokens, buffered);
  }

  /** A task item is emitted at once at depth `listLevel - 1`, nothing is buffered, and its paragraph is skipped. */
  lemma TaskItemSkipsParagraph(tokens: seq<Token>, s: CompilerState)
    requires s.i + 2 < |tokens| && tokens[s.i].kind == ListItemOpen
    requires tokens[s.i + 2].content != "" && TaskMatch(tokens[s.i + 2].content).Some?
    ensures var m := TaskMatch(tokens[s.i + 2].content).value;
            Step(tokens, s) == Next([TaskCall(m.1, m.0, s.listLevel - 1)], s.(i := s.i + 3))
  {
    StepOfListItem(tokens, s);
    ListItemTaskStep(tokens, s);
  }

  /** A heading that is the last token reads its text past the end: the pass throws. */
  lemma HeadingAtEndThrows(before: seq<Token>)
    requires forall k :: 0 <= k < |before| ==> before[k].kind == Inline
    ensures Compile(before + [Token(HeadingOpen, "h1", "", "")]) == ([], true)
  {
    var t := before + [Token(HeadingOpen, "h1", "", "")];
    var k := 0;
    while k < |before|
      invariant k <= |before|
      invariant Run(t, Start) == Run(t, Start.(i := k))
    {
      assert t[k] == before[k];
      RunNext(t, Start.(i := k), [], Start.(i := k + 1));
      assert [] + Run(t, Start.(i := k + 1)).0 == Run(t, Start.(i := k + 1)).0;
      k := k + 1;
    }
    assert Step(t, Start.(i := k)) == Crash;
  }

  // ----- the loop

  /**
   * `processTokens(tokens, generator)`. The locals `currentListItems`,
   * `isOrderedList`, `tableData`, `listLevel` and the cursor `i` are the
   * fields of `state`. `crashed` stands for the `TypeError` thrown when the
   * cursor reads a token past the end; the blocks appended before that stay
   * in the generator.
   */
  method ProcessTokens(tokens: seq<Token>, generator: DocxGenerator) returns (crashed: bool)
    requires |generator.theme.headings| == 6
    modifies generator
    ensures generator.children == old(generator.children) + Render(generator.theme, Compile(tokens).0)
    ensures crashed == Compile(tokens).1
    ensures generator.imageQueue == old(generator.imageQueue)
  {
    var state := CompilerState(0, 0, [], false, []);
    ghost var theme := generator.theme;
    ghost var done: seq<Call> := [];
    assert done + Run(tokens, state).0 == Run(tokens, state).0;
    while state.i < |tokens|
      invariant state.i <= |tokens| && generator.imageQueue == old(generator.imageQueue)
      invariant generator.children == old(generator.children) + Render(theme, done)
      invariant Compile(tokens) == (done + Run(tokens, state).0, Run(tokens, state).1)
      decreases |tokens| - state.i
    {
      ghost var before := generator.children;
      var stop, next := ProcessToken(tokens, generator, state);
      if stop {
        assert Step(tokens, state).Crash?;
        assert Run(tokens, state) == ([], true);
        assert done + [] == done;
        return true;
      }
      ghost var calls := Step(tokens, state).calls;
      assert Run(tokens, state) == (calls + Run(tokens, next).0, Run(tokens, next).1);
      AppendAssoc(done, calls, Run(tokens, next).0);
      RenderAppend(theme, done, calls);
      AppendAssoc(old(generator.children), Render(theme, done), Render(theme, calls));
      done := done + calls;
      state := next;
    }
    assert Run(tokens, state) == ([], false);
    assert done + [] == done;
    crashed := false;
  }

  /**
   * The generator went from `before` to `after` as the step `r` says: on a
   * crash nothing was appended; otherwise the blocks of `r`'s calls were,
   * and `next` is `r`'s new state.
   */
  ghost predicate Applied(theme: Theme, r: StepResult, crashed: bool, next: CompilerState, before: seq<Block>, after: seq<Block>)
    requires |theme.headings| == 6
  {
    if r.Crash? then crashed && after == before
    else !crashed && next == r.next && after == before + Render(theme, r.calls)
  }

  /**
   * `convertMarkdownToDocx` without its file I/O, clock and logging: the
   * parser's split of the tokens, the table of contents when enabled, every
   * image the parser found queued and processed, and only then the token
   * pass over the tokens the parser kept.
   */
  method Convert(tokens: seq<Token>, generator: DocxGenerator, tocEnabled: bool, now: int) returns (crashed: bool)
    requires generator.Valid() && generator.imageQueue == []
    modifies generator, generator.processor.cache
    ensures var queued := QueueBlocks(old(generator.Env()), old(generator.processor.cache.State()), AllImages(tokens), now);
            && generator.children == old(generator.children) + (if tocEnabled then TocBlocks(generator.toc) else [])
                                     + queued.0 + Render(generator.theme, Compile(FilterTokens(tokens)).0)
            && generator.processor.cache.State() == queued.1
    ensures crashed == Compile(FilterTokens(tokens)).1
  {
    var kept, images := Parse(tokens);
    crashed := ConvertParsed(kept, images, generator, tocEnabled, now);
  }

  /** The conversion after parsing: the table of contents, the images, then the token pass. */
  method ConvertParsed(kept: seq<Token>, images: seq<ImageRef>, generator: DocxGenerator, tocEnabled: bool, now: int)
    returns (crashed: bool)
    requires generator.Valid() && generator.imageQueue == []
    modifies generator, generator.processor.cache
    ensures var queued := QueueBlocks(old(generator.Env()), old(generator.processor.cache.State()), images, now);
            && generator.children == old(generator.children) + (if tocEnabled then TocBlocks(generator.toc) else [])
                                     + queued.0 + Render(generator.theme, Compile(kept).0)
            && generator.processor.cache.State() == queued.1
    ensures crashed == Compile(kept).1
  {
    ghost var queued := QueueBlocks(generator.Env(), generator.processor.cache.State(), images, now);
    if tocEnabled {
      generator.AddTableOfContents();
    } else {
      assert generator.children == old(generator.children) + [];
    }
    ghost var head := generator.children;
    ProcessImages(generator, images, now);
    assert generator.children == head + queued.0;
    crashed := ProcessTokens(kept, generator);
  }

  /** The `images.length > 0` branch of the conversion: queue every image, then process the queue. */
  method ProcessImages(generator: DocxGenerator, images: seq<ImageRef>, now: int)
    requires generator.Valid() && generator.imageQueue == []
    modifies generator, generator.processor.cache
    ensures generator.Valid() && generator.imageQueue == []
    ensures var queued := QueueBlocks(old(generator.Env()), old(generator.processor.cache.State()), images, now);
            generator.children == old(generator.children) + queued.0 && generator.processor.cache.State() == queued.1
  {
    if |images| > 0 {
      ghost var env := generator.Env();
      ghost var st := generator.processor.cache.State();
      var k := 0;
      while k < |images|
        invariant k <= |images| && generator.imageQueue == images[..k] && generator.children == old(generator.children)
        invariant generator.Valid() && generator.Env() == env && generator.processor.cache.State() == st
      {
        generator.AddImageToQueue(images[k]);
        assert images[..k + 1] == images[..k] + [images[k]];
        k := k + 1;
      }
      assert images[..k] == images;
      var succeeded, failed := generator.ProcessImageQueue(now);
    } else {
      assert generator.children == old(generator.children) + [];
    }
  }

  /** Every block the image queue yields is an image, a caption or a placeholder. */
  lemma {:induction false} QueueAllImageParts(env: ImageEnv, st: Store, images: seq<ImageRef>, now: int)
    ensures forall b :: b in QueueBlocks(env, st, images, now).0 ==> IsImagePart(b)
    decreases images
  {
    if images != [] {
      var first := QueuedImageBlocks(env, st, images[0], now);
      QueuedImageShape(env, st, images[0], now);
      QueueAllImageParts(env, first.2, images[1..], now);
      assert forall b :: b in first.1 ==> IsImagePart(b);
    }
  }

  /**
   * Images are processed before the tokens: after the table of contents,
   * the document's blocks are image blocks exactly up to the end of what
   * the queue yielded, and text blocks from there on.
   */
  lemma ImagesPrecedeText(env: ImageEnv, st: Store, images: seq<ImageRef>, now: int, theme: Theme, calls: seq<Call>)
    requires |theme.headings| == 6
    ensures var q := QueueBlocks(env, st, images, now).0;
            var out := q + Render(theme, calls);
            forall k :: 0 <= k < |out| ==> (IsImagePart(out[k]) <==> k < |q|)
  {
    var q := QueueBlocks(env, st, images, now).0;
    var r := Render(theme, calls);
    QueueAllImageParts(env, st, images, now);
    RenderHasNoImages(theme, calls);
    forall k | 0 <= k < |q + r| ensures IsImagePart((q + r)[k]) <==> k < |q| {
      if k < |q| {
        assert (q + r)[k] == q[k];
      } else {
        assert (q + r)[k] == r[k - |q|];
      }
    }
  }

  /**
   * One turn of the `for` loop: the `switch` on the token at the cursor,
   * the generator calls its case makes, and the `i++` that ends the turn.
   */
  method ProcessToken(tokens: seq<Token>, generator: DocxGenerator, s: CompilerState)
    returns (crashed: bool, next: CompilerState)
    requires s.i < |tokens| && |generator.theme.headings| == 6
    modifies generator
    ensures Applied(generator.theme, Step(tokens, s), crashed, next, old(generator.children), generator.children)
    ensures generator.imageQueue == old(generator.imageQueue)
  {
    assert generator.children + Render(generator.theme, []) == generator.children;
    var token := tokens[s.i];
    crashed := false;
    match token.kind {
      case HeadingOpen =>
        crashed, next := OnHeadingOpen(tokens, generator, s);
      case ParagraphOpen =>
        crashed, next := OnParagraphOpen(tokens, generator, s);
      case BulletListOpen =>
        next := s.(i := s.i + 1, listLevel := s.listLevel + 1);
        if |s.items| == 0 {
          next := next.(ordered := false);
        }
      case OrderedListOpen =>
        next := s.(i := s.i + 1, listLevel := s.listLevel + 1);
        if |s.items| == 0 {
          next := next.(ordered := true);
        }
      case ListItemOpen =>
        crashed, next := OnListItemOpen(tokens, generator, s);
      case BulletListClose =>
        next := OnListClose(generator, s);
      case OrderedListClose =>
        next := OnListClose(generator, s);
      case Fence =>
        generator.AddCodeBlock(token.content, token.info);
        RenderOne(generator.theme, CodeCall(token.content, token.info));
        next := s.(i := s.i + 1);
      case TableOpen =>
        next := s.(i := s.i + 1, table := []);
      case TrOpen =>
        crashed, next := OnTableRow(tokens, generator, s);
      case TableClose =>
        next := OnTableClose(generator, s);
      case _ =>
        next := s.(i := s.i + 1);
    }
  }

  /** The `heading_open` case: `addHeading` with the next token's content, which the turn then skips. */
  method OnHeadingOpen(tokens: seq<Token>, generator: DocxGenerator, s: CompilerState)
    returns (crashed: bool, next: CompilerState)
    requires s.i < |tokens| && |generator.theme.headings| == 6
    modifies generator
    ensures Applied(generator.theme, HeadingStep(tokens, s), crashed, next, old(generator.children), generator.children)
    ensures generator.imageQueue == old(generator.imageQueue)
  {
    var i := s.i;
    if i + 1 >= |tokens| {
      return true, s;
    }
    var level := HeadingLevel(tokens[i].tag);
    generator.AddHeading(tokens[i + 1].content, level);
    RenderOne(generator.theme, HeadingCall(tokens[i + 1].content, level));
    i := i + 1;
    next := s.(i := i + 1);
    crashed := false;
  }

  /** The `paragraph_open` case: `addParagraph` when the next token has content; the turn skips it. */
  method OnParagraphOpen(tokens: seq<Token>, generator: DocxGenerator, s: CompilerState)
    returns (crashed: bool, next: CompilerState)
    requires s.i < |tokens| && |generator.theme.headings| == 6
    modifies generator
    ensures Applied(generator.theme, ParagraphStep(tokens, s), crashed, next, old(generator.children), generator.children)
    ensures generator.imageQueue == old(generator.imageQueue)
  {
    var i := s.i;
    if i + 1 >= |tokens| {
      return true, s;
    }
    var content := tokens[i + 1].content;
    if content != "" {
      generator.AddParagraph(content);
      RenderOne(generator.theme, ParagraphCall(content));
    } else {
      assert generator.children + Render(generator.theme, []) == generator.children;
    }
    i := i + 1;
    next := s.(i := i + 1);
    crashed := false;
  }

  /**
   * The `list_item_open` case: a task item two tokens on is added at once
   * and skipped; any other non-empty text joins `currentListItems`.
   */
  method OnListItemOpen(tokens: seq<Token>, generator: DocxGenerator, s: CompilerState)
    returns (crashed: bool, next: CompilerState)
    requires s.i < |tokens| && |generator.theme.headings| == 6
    modifies generator
    ensures Applied(generator.theme, ListItemStep(tokens, s), crashed, next, old(generator.children), generator.children)
    ensures generator.imageQueue == old(generator.imageQueue)
  {
    ghost var theme := generator.theme;
    var i := s.i;
    crashed := false;
    if i + 2 < |tokens| && tokens[i + 2].content != "" {
      var content := tokens[i + 2].content;
      var taskListMatch := TaskMatch(content);
      if taskListMatch.Some? {
        var isChecked := taskListMatch.value.0;
        var text := taskListMatch.value.1;
        ghost var call := TaskCall(text, isChecked, s.listLevel - 1);
        ListItemTaskStep(tokens, s);
        generator.AddTaskListItem(text, isChecked, s.listLevel - 1);
        RenderOne(theme, call);
        next := s.(i := i + 3);
      } else {
        ListItemBufferStep(tokens, s);
        next := s.(i := i + 1, items := s.items + [ListEntry(content, s.listLevel - 1)]);
        assert generator.children == old(generator.children) + Render(theme, []);
      }
    } else {
      next := s.(i := i + 1);
      assert generator.children == old(generator.children) + Render(theme, []);
    }
  }

  /** The `bullet_list_close`/`ordered_list_close` case: `listLevel--`, the flush at 0, and the buffer cleared. */
  method OnListClose(generator: DocxGenerator, s: CompilerState) returns (next: CompilerState)
    requires |generator.theme.headings| == 6
    modifies generator
    ensures Applied(generator.theme, ListCloseStep(s), false, next, old(generator.children), generator.children)
    ensures generator.imageQueue == old(generator.imageQueue)
  {
    var listLevel := s.listLevel - 1;
    var currentListItems := s.items;
    CloseList(generator, currentListItems, s.ordered, listLevel);
    if listLevel == 0 && |currentListItems| > 0 {
      currentListItems := [];
    }
    next := s.(i := s.i + 1, listLevel := listLevel, items := currentListItems);
  }

  /** The `tr_open` case: the row scan, whose cells join `tableData`; the cursor moves to the row's `tr_close`. */
  method OnTableRow(tokens: seq<Token>, generator: DocxGenerator, s: CompilerState)
    returns (crashed: bool, next: CompilerState)
    requires |generator.theme.headings| == 6
    ensures Applied(generator.theme, TableRowStep(tokens, s), crashed, next, generator.children, generator.children)
  {
    var row, j := ScanTableRow(tokens, s.i);
    if row.None? {
      return true, s;
    }
    assert generator.children + Render(generator.theme, []) == generator.children;
    next := s.(i := j + 1, table := s.table + [row.value]);
    crashed := false;
  }

  /** The `table_close` case: `addTable` when rows were collected, and `tableData` reset. */
  method OnTableClose(generator: DocxGenerator, s: CompilerState) returns (next: CompilerState)
    requires |generator.theme.headings| == 6
    modifies generator
    ensures Applied(generator.theme, TableCloseStep(s), false, next, old(generator.children), generator.children)
    ensures generator.imageQueue == old(generator.imageQueue)
  {
    var tableData := s.table;
    if |tableData| > 0 {
      generator.AddTable(tableData);
      RenderOne(generator.theme, TableCall(tableData));
      tableData := [];
    } else {
      assert generator.children + Render(generator.theme, []) == generator.children;
    }
    next := s.(i := s.i + 1, table := tableData);
  }

  /**
   * The `bullet_list_close`/`ordered_list_close` flush, at the depth the
   * close leaves: when that is 0 and items are pending, one `addList` per
   * level from 0 up while the level holds items.
   */
  method CloseList(generator: DocxGenerator, items: seq<ListEntry>, ordered: bool, listLevel: int)
    requires |generator.theme.headings| == 6
    modifies generator
    ensures generator.children == old(generator.children)
              + Render(generator.theme, if listLevel == 0 && items != [] then FlushFrom(items, ordered, 0) else [])
    ensures generator.imageQueue == old(generator.imageQueue)
  {
    if listLevel == 0 && |items| > 0 {
      AddLevelLists(generator, items, ordered);
    } else {
      assert Render(generator.theme, []) == [];
      assert generator.children + [] == generator.children;
    }
  }

  /** The `while (currentLevelItems.length > 0)` loop of the flush: one `addList` per level from 0 up. */
  method AddLevelLists(generator: DocxGenerator, items: seq<ListEntry>, ordered: bool)
    requires |generator.theme.headings| == 6
    modifies generator
    ensures generator.children == old(generator.children) + Render(generator.theme, FlushFrom(items, ordered, 0))
    ensures generator.imageQueue == old(generator.imageQueue)
  {
    ghost var theme := generator.theme;
    var currentLevel := 0;
    var currentLevelItems := TextsAt(items, currentLevel);
    while |currentLevelItems| > 0
      invariant currentLevelItems == TextsAt(items, currentLevel)
      invariant old(generator.children) + Render(theme, FlushFrom(items, ordered, 0))
                == generator.children + Render(theme, FlushFrom(items, ordered, currentLevel))
      invariant generator.imageQueue == old(generator.imageQueue)
      decreases MaxLevel(items) - currentLevel
    {
      FlushTurn(theme, items, ordered, currentLevel, old(generator.children), generator.children);
      generator.AddList(currentLevelItems, ordered, currentLevel);
      currentLevel := currentLevel + 1;
      currentLevelItems := TextsAt(items, currentLevel);
    }
    FlushEnd(theme, items, ordered, currentLevel);
  }

  /** The loop invariant of `AddLevelLists` survives one `addList` for a non-empty level. */
  lemma FlushTurn(theme: Theme, items: seq<ListEntry>, ordered: bool, level: int, start: seq<Block>, before: seq<Block>)
    requires |theme.headings| == 6 && TextsAt(items, level) != []
    requires start + Render(theme, FlushFrom(items, ordered, 0)) == before + Render(theme, FlushFrom(items, ordered, level))
    ensures start + Render(theme, FlushFrom(items, ordered, 0))
            == (before + ListBlocks(theme, TextsAt(items, level), ordered, level)) + Render(theme, FlushFrom(items, ordered, level + 1))
  {
    FlushRender(theme, items, ordered, level);
    AppendAssoc(before, ListBlocks(theme, TextsAt(items, level), ordered, level), Render(theme, FlushFrom(items, ordered, level + 1)));
  }

  /** At the first empty level the flush has nothing left to render. */
  lemma FlushEnd(theme: Theme, items: seq<ListEntry>, ordered: bool, level: int)
    requires |theme.headings| == 6 && TextsAt(items, level) == []
    ensures Render(theme, FlushFrom(items, ordered, level)) == []
  {
  }

  /** One turn of the flush: the list of this level, then the lists of the levels after it. */
  lemma FlushRender(theme: Theme, items: seq<ListEntry>, ordered: bool, level: int)
    requires |theme.headings| == 6 && TextsAt(items, level) != []
    ensures Render(theme, FlushFrom(items, ordered, level))
            == ListBlocks(theme, TextsAt(items, level), ordered, level) + Render(theme, FlushFrom(items, ordered, level + 1))
  {
    var call := ListCall(TextsAt(items, level), ordered, level);
    assert FlushFrom(items, ordered, level) == [call] + FlushFrom(items, ordered, level + 1);
    RenderOne(theme, call);
    RenderAppend(theme, [call], FlushFrom(items, ordered, level + 1));
  }

  /**
   * The `tr_open` scan starting after the row's opening token at `i`: the
   * row's cells and the index of its `tr_close`, or `None` where reading
   * `tokens[j]` or `tokens[j + 1]` past the end throws.
   */
  method ScanTableRow(tokens: seq<Token>, i: nat) returns (row: Option<seq<string>>, j: nat)
    ensures row.None? <==> ScanRow(tokens, i + 1, []).None?
    ensures row.Some? ==> ScanRow(tokens, i + 1, []) == Some((row.value, j))
  {
    var cells: seq<string> := [];
    j := i + 1;
    while j < |tokens| && tokens[j].kind != TrClose
      invariant ScanRow(tokens, i + 1, []) == ScanRow(tokens, j, cells)
      decreases |tokens| - j
    {
      if tokens[j].kind.IsCellOpen() {
        if j + 1 >= |tokens| {
          return None, j;
        }
        if tokens[j + 1].kind == Inline {
          cells := cells + [tokens[j + 1].content];
          j := j + 2;
        }
      }
      j := j + 1;
    }
    if j >= |tokens| {
      return None, j;
    }
    row := Some(cells);
  }
}
