/**
 * The web worker's `DocxGenerator`: a simpler converter than the CLI's. It
 * has plain text runs with no inline styling, one list per list close, no
 * task items and no images. Its `processTokens` is one pass over the flat
 * token stream, with the cursor, the pending list items, the orderedness
 * flag and the table rows as its locals.
 *
 * `Run` is the specification: a step function on those locals, iterated
 * until the cursor passes the end or a read past the end of the token array
 * throws. `WorkerGenerator.ProcessTokens` is the loop itself.
 */
module WorkerDocx {
  import opened Wrappers
  import opened Text
  import opened Tokens
  import DocxGenerator

  /** The paragraphs and tables the worker appends, as values. */
  datatype Element =
    /** A heading paragraph: `style` names `HEADING_<style>`; `size` is `None` where the level is NaN. */
    | Heading(text: string, style: int, size: Option<int>)
    /** A size-24 body paragraph. */
    | Paragraph(text: string)
    /** A `Courier New` size-20 paragraph holding the code. */
    | Code(code: string)
    /** One list paragraph, indented 720, whose text already starts with its marker. */
    | ListLine(text: string)
    /** A full-width table of single-run cells. */
    | Table(rows: seq<seq<string>>)

  /** The text `generate` puts in an otherwise empty document. */
  const EmptyDocumentText := "文档内容为空"

  /** `getHeadingLevel`: levels 1 to 6 name their own heading style; anything else, NaN included, is heading 1. */
  function HeadingStyle(level: Option<int>): (n: int)
    ensures 1 <= n <= 6
    ensures level.Some? && 1 <= level.value <= 6 ==> n == level.value
    ensures (level.None? || level.value < 1 || level.value > 6) ==> n == 1
  {
    match level
    case Some(l) => if 1 <= l <= 6 then l else 1
    case None => 1
  }

  /** The heading run's size `28 + (6 - level) * 2`, which is NaN when the level is. */
  function HeadingSize(level: Option<int>): (r: Option<int>)
    ensures r.Some? <==> level.Some?
    ensures level.Some? && 1 <= level.value <= 6 ==> 28 <= r.value <= 38 && r.value % 2 == 0
  {
    match level
    case Some(l) => Some(28 + (6 - l) * 2)
    case None => None
  }

  /** Deeper headings get smaller text, two half-points per level. */
  lemma HeadingSizeShrinks(a: int, b: int)
    requires a < b
    ensures HeadingSize(Some(b)).value == HeadingSize(Some(a)).value - 2 * (b - a)
  {
  }

  /** The marker in front of the item at `index`: `<index + 1>.` when ordered, `•` otherwise. */
  function LineMarker(ordered: bool, index: nat): string
  {
    if ordered then NatToString(index + 1) + "." else "•"
  }

  /** `addList`'s paragraphs: one per item, in order, each the marker, a space and the item. */
  function ListLines(items: seq<string>, ordered: bool): (r: seq<Element>)
    ensures |r| == |items|
    ensures forall k :: 0 <= k < |r| ==> r[k].ListLine? && r[k].text == LineMarker(ordered, k) + " " + items[k]
  {
    seq(|items|, k requires 0 <= k < |items| => ListLine(LineMarker(ordered, k) + " " + items[k]))
  }

  /** The worker writes the same list markers as the CLI generator, followed by the item's raw text. */
  lemma MarkersMatchCli(items: seq<string>, ordered: bool, k: nat)
    requires k < |items|
    ensures ListLines(items, ordered)[k].text == DocxGenerator.ListMarker(ordered, k) + items[k]
  {
    assert LineMarker(ordered, k) + " " + items[k] == (LineMarker(ordered, k) + " ") + items[k];
  }

  /** `addTable`: nothing for no rows, one table otherwise. */
  function TableElements(data: seq<seq<string>>): (r: seq<Element>)
    ensures |r| <= 1 && (r == [] <==> data == [])
    ensures r != [] ==> r[0] == Table(data)
  {
    if data == [] then [] else [Table(data)]
  }

  // ----- the token pass, as a step function

  /** The locals of `processTokens`: the cursor, `currentListItems`, `isOrderedList` and `tableData`. */
  datatype WorkerState = WorkerState(i: nat, items: seq<string>, ordered: bool, table: seq<seq<string>>)

  const Start := WorkerState(0, [], false, [])

  datatype StepResult = Advance(out: seq<Element>, next: WorkerState) | Throw

  /**
   * The `tr_open` scan from `j`, bounded by the end of the array, collecting
   * into `row` the content of each `td_open`/`th_open` directly followed by
   * an `inline` token: the row and where the scan stopped (a `tr_close` or
   * the end), or `None` where a cell opener is the last token and reading
   * the token after it throws.
   */
  function ScanRow(tokens: seq<Token>, j: nat, row: seq<string>): (r: Option<(seq<string>, nat)>)
    requires j <= |tokens|
    ensures r.Some? ==> j <= r.value.1 <= |tokens|
    ensures r.Some? && r.value.1 < |tokens| ==> tokens[r.value.1].kind == TrClose
    ensures r.Some? ==> row <= r.value.0 && CellsWithin(tokens, j, r.value.1, r.value.0[|row|..])
    decreases |tokens| - j
  {
    if j >= |tokens| || tokens[j].kind == TrClose then Some((row, j))
    else if tokens[j].kind.IsCellOpen() then
      if j + 1 >= |tokens| then None
      else if tokens[j + 1].kind == Inline then
        var r := ScanRow(tokens, j + 2, row + [tokens[j + 1].content]);
        if r.Some? then
          CellsWithinCons(tokens, j, j + 2, r.value.1, row, tokens[j + 1].content, r.value.0);
          r
        else r
      else ScanRow(tokens, j + 1, row)
    else ScanRow(tokens, j + 1, row)
  }

  /** A heading or a paragraph whose opener is the last token reads past the end and throws. */
  function HeadingStep(tokens: seq<Token>, s: WorkerState): StepResult
    requires s.i < |tokens|
  {
    if s.i + 1 >= |tokens| then Throw
    else
      var level := HeadingLevel(tokens[s.i].tag);
      Advance([Heading(tokens[s.i + 1].content, HeadingStyle(level), HeadingSize(level))], s.(i := s.i + 3))
  }

  function ParagraphStep(tokens: seq<Token>, s: WorkerState): StepResult
    requires s.i < |tokens|
  {
    if s.i + 1 >= |tokens| then Throw
    else
      var content := tokens[s.i + 1].content;
      Advance(if content != "" then [Paragraph(content)] else [], s.(i := s.i + 3))
  }

  function ListItemStep(tokens: seq<Token>, s: WorkerState): StepResult
  {
    if s.i + 2 < |tokens| && tokens[s.i + 2].content != "" then
      Advance([], s.(i := s.i + 1, items := s.items + [tokens[s.i + 2].content]))
    else Advance([], s.(i := s.i + 1))
  }

  function ListCloseStep(s: WorkerState): StepResult
  {
    if s.items != [] then Advance(ListLines(s.items, s.ordered), s.(i := s.i + 1, items := []))
    else Advance([], s.(i := s.i + 1))
  }

  function TableRowStep(tokens: seq<Token>, s: WorkerState): (r: StepResult)
    requires s.i < |tokens|
    ensures r.Advance? ==> s.i < r.next.i
    ensures r.Advance? ==> |r.next.table| == |s.table| + 1 && r.next.table[..|s.table|] == s.table
    ensures r.Advance? ==> CellsWithin(tokens, s.i + 1, r.next.i - 1, r.next.table[|s.table|])
  {
    match ScanRow(tokens, s.i + 1, [])
    case None => Throw
    case Some(row) => Advance([], s.(i := row.1 + 1, table := s.table + [row.0]))
  }

  function TableCloseStep(s: WorkerState): StepResult
  {
    if s.table != [] then Advance(TableElements(s.table), s.(i := s.i + 1, table := []))
    else Advance([], s.(i := s.i + 1))
  }

  /** One turn of the `for` loop, its closing `i++` included. */
  function Step(tokens: seq<Token>, s: WorkerState): (r: StepResult)
    requires s.i < |tokens|
    ensures r.Advance? ==> s.i < r.next.i
  {
    var t := tokens[s.i];
    match t.kind
    case HeadingOpen => HeadingStep(tokens, s)
    case ParagraphOpen => ParagraphStep(tokens, s)
    case BulletListOpen => Advance([], s.(i := s.i + 1, ordered := false, items := []))
    case OrderedListOpen => Advance([], s.(i := s.i + 1, ordered := true, items := []))
    case ListItemOpen => ListItemStep(tokens, s)
    case BulletListClose => ListCloseStep(s)
    case OrderedListClose => ListCloseStep(s)
    case Fence => Advance([Code(t.content)], s.(i := s.i + 1))
    case TableOpen => Advance([], s.(i := s.i + 1, table := []))
    case TrOpen => TableRowStep(tokens, s)
    case TableClose => TableCloseStep(s)
    case _ => Advance([], s.(i := s.i + 1))
  }

  /** The elements appended from state `s` on, and whether the pass ends by throwing. */
  function Run(tokens: seq<Token>, s: WorkerState): (seq<Element>, bool)
    decreases |tokens| - s.i
  {
    if s.i >= |tokens| then ([], false)
    else match Step(tokens, s)
      case Throw => ([], true)
      case Advance(out, next) =>
        var rest := Run(tokens, next);
        (out + rest.0, rest.1)
  }

  function Compile(tokens: seq<Token>): (seq<Element>, bool)
  {
    Run(tokens, Start)
  }

  // ----- what the pass emits

  /** Paragraphs carry text, lists are whole list paragraphs, tables carry rows. */
  predicate Emitted(e: Element)
  {
    && (e.Paragraph? ==> e.text != "")
    && (e.Table? ==> e.rows != [])
    && (e.Heading? ==> 1 <= e.style <= 6)
  }

  lemma StepEmitted(tokens: seq<Token>, s: WorkerState)
    requires s.i < |tokens|
    ensures Step(tokens, s).Advance? ==> forall e :: e in Step(tokens, s).out ==> Emitted(e)
  {
    if tokens[s.i].kind.IsListClose() && s.items != [] {
      var lines := ListLines(s.items, s.ordered);
      forall e | e in lines ensures Emitted(e) {
        var k :| 0 <= k < |lines| && lines[k] == e;
      }
    }
  }

  /** No empty paragraph and no empty table ever reaches the document, and every heading names a real style. */
  lemma {:induction false} RunEmitted(tokens: seq<Token>, s: WorkerState)
    ensures forall e :: e in Run(tokens, s).0 ==> Emitted(e)
    decreases |tokens| - s.i
  {
    if s.i < |tokens| {
      StepEmitted(tokens, s);
      if Step(tokens, s).Advance? {
        RunEmitted(tokens, Step(tokens, s).next);
      }
    }
  }

  /**
   * A list opened while items are pending discards them: the nested list's
   * items are the only ones its close emits, and those before it are lost.
   */
  lemma NestedOpenDropsPending(tokens: seq<Token>, s: WorkerState)
    requires s.i < |tokens| && tokens[s.i].kind.IsListOpen()
    ensures Step(tokens, s).Advance? && Step(tokens, s).out == []
    ensures Step(tokens, s).next.items == []
    ensures Step(tokens, s).next.ordered <==> tokens[s.i].kind == OrderedListOpen
  {
  }

  /**
   * An item's text is read two tokens on, but the cursor stays on the
   * item's own `paragraph_open`: the next turn emits the buffered text as a
   * paragraph too.
   */
  lemma ItemAlsoParagraph(tokens: seq<Token>, s: WorkerState)
    requires s.i + 2 < |tokens| && tokens[s.i].kind == ListItemOpen && tokens[s.i + 1].kind == ParagraphOpen
    requires tokens[s.i + 2].content != ""
    ensures var buffered := s.(i := s.i + 1, items := s.items + [tokens[s.i + 2].content]);
            && Step(tokens, s) == Advance([], buffered)
            && Step(tokens, buffered) == Advance([Paragraph(tokens[s.i + 2].content)], buffered.(i := s.i + 4))
  {
    var buffered := s.(i := s.i + 1, items := s.items + [tokens[s.i + 2].content]);
    assert Step(tokens, s) == ListItemStep(tokens, s);
    assert Step(tokens, buffered) == ParagraphStep(tokens, buffered);
  }

  /** A row scan throws only where a cell opener is the last token it reaches. */
  lemma {:induction false} ScanRowThrows(tokens: seq<Token>, j: nat, row: seq<string>)
    requires j <= |tokens| && ScanRow(tokens, j, row).None?
    ensures |tokens| > 0 && tokens[|tokens| - 1].kind.IsCellOpen()
    decreases |tokens| - j
  {
    if tokens[j].kind.IsCellOpen() && j + 1 < |tokens| {
      if tokens[j + 1].kind == Inline {
        ScanRowThrows(tokens, j + 2, row + [tokens[j + 1].content]);
      } else {
        ScanRowThrows(tokens, j + 1, row);
      }
    } else if !tokens[j].kind.IsCellOpen() {
      ScanRowThrows(tokens, j + 1, row);
    }
  }

  /**
   * The document went from `before` to `after` as the step `r` says: on a
   * throw nothing was appended; otherwise `r`'s elements were, and `next`
   * is `r`'s new state.
   */
  ghost predicate Applied(r: StepResult, crashed: bool, next: WorkerState, before: seq<Element>, after: seq<Element>)
  {
    if r.Throw? then crashed && after == before
    else !crashed && next == r.next && after == before + r.out
  }

  /** One unfolding of `Run` at a step that does not throw. */
  lemma RunAdvance(tokens: seq<Token>, s: WorkerState, out: seq<Element>, next: WorkerState)
    requires s.i < |tokens| && Step(tokens, s) == Advance(out, next)
    ensures Run(tokens, s) == (out + Run(tokens, next).0, Run(tokens, next).1)
  {
  }

  // ----- the generator

  class WorkerGenerator {
    var children: seq<Element>

    constructor()
      ensures children == []
    {
      children := [];
    }

    /** `addHeading`: the style from `getHeadingLevel`, the size from the level itself. */
    method AddHeading(text: string, level: Option<int>)
      modifies this
      ensures children == old(children) + [Heading(text, HeadingStyle(level), HeadingSize(level))]
    {
      children := children + [Heading(text, HeadingStyle(level), HeadingSize(level))];
    }

    method AddParagraph(text: string)
      modifies this
      ensures children == old(children) + [Paragraph(text)]
    {
      children := children + [Paragraph(text)];
    }

    /** `addCodeBlock`: the language is accepted and not used. */
    method AddCodeBlock(code: string, language: string)
      modifies this
      ensures children == old(children) + [Code(code)]
    {
      children := children + [Code(code)];
    }

    method AddList(items: seq<string>, ordered: bool)
      modifies this
      ensures children == old(children) + ListLines(items, ordered)
    {
      children := children + ListLines(items, ordered);
    }

    method AddTable(data: seq<seq<string>>)
      modifies this
      ensures children == old(children) + TableElements(data)
    {
      if |data| == 0 {
        assert children == children + [];
        return;
      }
      children := children + [Table(data)];
    }

    /**
     * `processTokens`: the `for` loop over the tokens. `crashed` stands for
     * the `TypeError` thrown when the cursor reads past the end; what was
     * appended before that stays.
     */
    method ProcessTokens(tokens: seq<Token>) returns (crashed: bool)
      modifies this
      ensures children == old(children) + Compile(tokens).0
      ensures crashed == Compile(tokens).1
    {
      var state := Start;
      ghost var done: seq<Element> := [];
      assert done + Run(tokens, state).0 == Run(tokens, state).0;
      while state.i < |tokens|
        invariant children == old(children) + done
        invariant Compile(tokens) == (done + Run(tokens, state).0, Run(tokens, state).1)
        decreases |tokens| - state.i
      {
        ghost var before := children;
        var stop, next := ProcessToken(tokens, state);
        if stop {
          assert Step(tokens, state).Throw?;
          assert Run(tokens, state) == ([], true);
          assert done + [] == done;
          return true;
        }
        ghost var out := Step(tokens, state).out;
        RunAdvance(tokens, state, out, next);
        AppendAssoc(done, out, Run(tokens, next).0);
        AppendAssoc(old(children), done, out);
        done := done + out;
        state := next;
      }
      assert Run(tokens, state) == ([], false);
      assert done + [] == done;
      crashed := false;
    }

    /** One turn of the loop: the `switch` on the token at the cursor and the `i++` that ends the turn. */
    method ProcessToken(tokens: seq<Token>, s: WorkerState) returns (crashed: bool, next: WorkerState)
      requires s.i < |tokens|
      modifies this
      ensures Applied(Step(tokens, s), crashed, next, old(children), children)
    {
      assert children + [] == children;
      var i := s.i;
      var token := tokens[i];
      crashed := false;
      match token.kind {
        case HeadingOpen =>
          crashed, next := OnHeadingOpen(tokens, s);
        case ParagraphOpen =>
          crashed, next := OnParagraphOpen(tokens, s);
        case BulletListOpen =>
          next := s.(i := i + 1, ordered := false, items := []);
        case OrderedListOpen =>
          next := s.(i := i + 1, ordered := true, items := []);
        case ListItemOpen =>
          if i + 2 < |tokens| && tokens[i + 2].content != "" {
            next := s.(i := i + 1, items := s.items + [tokens[i + 2].content]);
          } else {
            next := s.(i := i + 1);
          }
        case BulletListClose =>
          next := OnListClose(s);
        case OrderedListClose =>
          next := OnListClose(s);
        case Fence =>
          AddCodeBlock(token.content, token.info);
          next := s.(i := i + 1);
        case TableOpen =>
          next := s.(i := i + 1, table := []);
        case TrOpen =>
          var row, j := ScanTableRow(tokens, i);
          if row.None? {
            return true, s;
          }
          next := s.(i := j + 1, table := s.table + [row.value]);
        case TableClose =>
          next := OnTableClose(s);
        case _ =>
          next := s.(i := i + 1);
      }
    }

    /** The `heading_open` case: `addHeading`, then `i += 2` past the text and the closing token. */
    method OnHeadingOpen(tokens: seq<Token>, s: WorkerState) returns (crashed: bool, next: WorkerState)
      requires s.i < |tokens|
      modifies this
      ensures Applied(HeadingStep(tokens, s), crashed, next, old(children), children)
    {
      var i := s.i;
      if i + 1 >= |tokens| {
        return true, s;
      }
      var level := HeadingLevel(tokens[i].tag);
      ghost var heading := Heading(tokens[i + 1].content, HeadingStyle(level), HeadingSize(level));
      assert HeadingStep(tokens, s) == Advance([heading], s.(i := i + 3));
      AddHeading(tokens[i + 1].content, level);
      i := i + 2;
      next := s.(i := i + 1);
      crashed := false;
    }

    /** The `paragraph_open` case: `addParagraph` for non-empty text, then `i += 2`. */
    method OnParagraphOpen(tokens: seq<Token>, s: WorkerState) returns (crashed: bool, next: WorkerState)
      requires s.i < |tokens|
      modifies this
      ensures Applied(ParagraphStep(tokens, s), crashed, next, old(children), children)
    {
      var i := s.i;
      if i + 1 >= |tokens| {
        return true, s;
      }
      var content := tokens[i + 1].content;
      if content != "" {
        AddParagraph(content);
      } else {
        assert children == old(children) + [];
      }
      i := i + 2;
      next := s.(i := i + 1);
      crashed := false;
    }

    /** The list-close case: `addList` with the pending items when there are any, which are then cleared. */
    method OnListClose(s: WorkerState) returns (next: WorkerState)
      modifies this
      ensures Applied(ListCloseStep(s), false, next, old(children), children)
    {
      if |s.items| > 0 {
        AddList(s.items, s.ordered);
        next := s.(i := s.i + 1, items := []);
      } else {
        assert children == old(children) + [];
        next := s.(i := s.i + 1);
      }
    }

    /** The `table_close` case: `addTable` when rows were collected, and `tableData` reset. */
    method OnTableClose(s: WorkerState) returns (next: WorkerState)
      modifies this
      ensures Applied(TableCloseStep(s), false, next, old(children), children)
    {
      if |s.table| > 0 {
        AddTable(s.table);
        next := s.(i := s.i + 1, table := []);
      } else {
        assert children == old(children) + [];
        next := s.(i := s.i + 1);
      }
    }

    /**
     * `generate`'s guard: an empty document gets one paragraph saying so;
     * the elements handed to the document are then never empty.
     */
    method Generate() returns (document: seq<Element>)
      modifies this
      ensures document == children && document != []
      ensures old(children) == [] ==> children == [Paragraph(EmptyDocumentText)]
      ensures old(children) != [] ==> children == old(children)
    {
      if |children| == 0 {
        AddParagraph(EmptyDocumentText);
      }
      document := children;
    }
  }

  /**
   * The `tr_open` scan starting after the row's opening token at `i`: the
   * row's cells and the index where it stopped, or `None` where reading the
   * token after a final cell opener throws.
   */
  method ScanTableRow(tokens: seq<Token>, i: nat) returns (row: Option<seq<string>>, j: nat)
    requires i < |tokens|
    ensures row.None? <==> ScanRow(tokens, i + 1, []).None?
    ensures row.Some? ==> ScanRow(tokens, i + 1, []) == Some((row.value, j))
  {
    var cells: seq<string> := [];
    j := i + 1;
    while j < |tokens| && tokens[j].kind != TrClose
      invariant j <= |tokens| && ScanRow(tokens, i + 1, []) == ScanRow(tokens, j, cells)
      decreases |tokens| - j
    {
      if tokens[j].kind.IsCellOpen() && j + 1 >= |tokens| {
        return None, j;
      }
      if tokens[j].kind.IsCellOpen() && tokens[j + 1].kind == Inline {
        cells := cells + [tokens[j + 1].content];
        j := j + 2;
      } else {
        j := j + 1;
      }
    }
    row := Some(cells);
  }
}
