/**
 * The CLI `DocxGenerator`: an append-only `children` list of document
 * blocks and a queue of image references. Each `add*` method appends the
 * blocks a pure function of its arguments describes; images go through the
 * image processor and its cache.
 */
module DocxGenerator {
  import opened Wrappers
  import opened Text
  import opened CacheIndex
  import opened Cache
  import opened InlineStyles
  import opened Images
  import opened MarkdownParser
  import opened Blocks
  import opened Toc

  /** The style table after `{...defaultStyles, ...customStyles}`: body, `heading1`…`heading6`, code, table. */
  datatype Theme = Theme(body: Style, headings: seq<Style>, code: Style, table: Style)

  /** The `images` and `toc` parts of the custom styles; `None` is an absent key. */
  datatype ImageStyles = ImageStyles(maxWidth: Option<int>, quality: Option<int>,
                                     cacheMaxAge: Option<int>, cacheMaxSize: Option<int>)
  datatype TocStyles = TocStyles(title: Option<string>, maxLevel: Option<int>)

  const GeneratorMaxWidth: int := 800
  const GeneratorQuality: int := 85
  const DisplayMaxWidth: int := 600
  const QuoteColor: string := "666666"

  /** JavaScript `text || fallback`: the empty string counts as absent. */
  function TextOrElse(value: Option<string>, fallback: string): (r: string)
    ensures value.Some? && value.value != "" ==> r == value.value
    ensures value.None? || value.value == "" ==> r == fallback
  {
    if value.Some? && value.value != "" then value.value else fallback
  }

  // ----- headings and paragraphs

  /** `Math.min(Math.max(level, 1), 6)` on a number. */
  function ClampLevel(level: int): (r: int)
    ensures 1 <= r <= 6
    ensures 1 <= level <= 6 ==> r == level
    ensures level < 1 ==> r == 1
    ensures level > 6 ==> r == 6
  {
    if level < 1 then 1 else if level > 6 then 6 else level
  }

  /**
   * `addHeading`: the level is clamped to 1–6 and picks the heading style.
   * A NaN level stays NaN through the clamp; it names no style, so the runs
   * fall back to the body style and the paragraph has no heading level.
   */
  function HeadingBlock(theme: Theme, text: string, level: Option<int>): (b: Block)
    requires |theme.headings| == 6
    ensures b.Heading? && Texts(b.runs) == StripMarkers(text)
    ensures level.Some? ==> b.level == Some(ClampLevel(level.value))
    ensures level.None? ==> b.level.None?
  {
    InlineRunsShape(text, if level.Some? then theme.headings[ClampLevel(level.value) - 1] else theme.body, theme.code);
    match level
    case None => Heading(None, InlineRuns(text, theme.body, theme.code))
    case Some(l) => Heading(Some(ClampLevel(l)), InlineRuns(text, theme.headings[ClampLevel(l) - 1], theme.code))
  }

  function QuoteStyle(theme: Theme): Style
  {
    Style(theme.body.font, theme.body.size, QuoteColor)
  }

  /**
   * `addParagraph`: text starting with `> ` loses that prefix and becomes a
   * quote in grey; other text keeps the body style. The base style's
   * `italic` is never read by the run builder, so a quote is not italic.
   */
  function ParagraphBlock(theme: Theme, text: string): (b: Block)
    ensures b.Paragraph?
    ensures b.quote <==> StartsWith(text, "> ")
    ensures b.quote ==> Texts(b.runs) == StripMarkers(text[2..])
    ensures !b.quote ==> Texts(b.runs) == StripMarkers(text)
    ensures forall k :: 0 <= k < |b.runs| && !b.runs[k].code ==>
              b.runs[k].style == if b.quote then QuoteStyle(theme) else theme.body
  {
    if StartsWith(text, "> ") then
      InlineRunsShape(text[2..], QuoteStyle(theme), theme.code);
      Paragraph(InlineRuns(text[2..], QuoteStyle(theme), theme.code), true)
    else
      InlineRunsShape(text, theme.body, theme.code);
      Paragraph(InlineRuns(text, theme.body, theme.code), false)
  }

  // ----- lists

  /** `${index + 1}. ` for an ordered list, `• ` otherwise. */
  function ListMarker(ordered: bool, index: nat): string
  {
    if ordered then NatToString(index + 1) + ". " else "• "
  }

  /** The marker of the item at `index` counts from one. */
  lemma ListMarkerNumbers(index: nat)
    ensures var m := ListMarker(true, index);
            |m| >= 3 && m[|m| - 2..] == ". " && DecimalValue(m[..|m| - 2]) == index + 1
  {
    var m := ListMarker(true, index);
    assert m[..|m| - 2] == NatToString(index + 1);
    NatToStringValue(index + 1);
  }

  function ListIndent(level: int): int
  {
    720 + level * 360
  }

  /** The paragraph of the item at `index`. */
  function ListItemBlock(theme: Theme, item: string, ordered: bool, level: int, index: nat): Block
  {
    ListItem(ListMarker(ordered, index), InlineRuns(item, theme.body, theme.code), ListIndent(level))
  }

  /** `addList`: one paragraph per item, in order. */
  function ListBlocks(theme: Theme, items: seq<string>, ordered: bool, level: int): (r: seq<Block>)
    ensures |r| == |items|
  {
    seq(|items|, k requires 0 <= k < |items| => ListItemBlock(theme, items[k], ordered, level, k))
  }

  /**
   * The paragraph at position `k` of a list is the `k`-th item's text
   * behind its marker, indented by `720 + 360 * level`.
   */
  lemma ListBlocksItems(theme: Theme, items: seq<string>, ordered: bool, level: int, k: nat)
    requires k < |items|
    ensures var b := ListBlocks(theme, items, ordered, level)[k];
            && b == ListItem(ListMarker(ordered, k), InlineRuns(items[k], theme.body, theme.code), 720 + 360 * level)
            && Texts(b.runs) == StripMarkers(items[k])
  {
    InlineRunsShape(items[k], theme.body, theme.code);
  }

  // ----- tables

  /** `Math.floor(100 / n)`: the widest whole percentage `n` cells can share. */
  function CellWidth(n: int): (w: int)
    requires n > 0
    ensures n * w <= 100 < n * (w + 1)
  {
    100 / n
  }

  function RowCells(theme: Theme, row: seq<string>): (cells: seq<Cell>)
    ensures |cells| == |row|
  {
    seq(|row|, k requires 0 <= k < |row| =>
      Cell(InlineRuns(row[k], theme.table, theme.code), CellWidth(|row|)))
  }

  /**
   * `addTable`: nothing for no rows, otherwise one table. The header row
   * is handed a style with `bold` set, which the run builder never reads,
   * so every row is rendered alike.
   */
  function TableBlocks(theme: Theme, data: seq<seq<string>>): (r: seq<Block>)
    ensures data == [] <==> r == []
    ensures r != [] ==> |r| == 1 && r[0].Table? && |r[0].rows| == |data|
    ensures r != [] ==> forall i :: 0 <= i < |data| ==> r[0].rows[i] == RowCells(theme, data[i])
  {
    if data == [] then []
    else [Table(seq(|data|, i requires 0 <= i < |data| => RowCells(theme, data[i])))]
  }

  /** Header cells are built exactly like body cells with the same text. */
  lemma HeaderRowNotForcedBold(theme: Theme, data: seq<seq<string>>, i: nat, j: nat)
    requires 0 < i < |data| && |data[0]| == |data[i]|
    requires forall k :: 0 <= k < |data[0]| ==> data[0][k] == data[i][k]
    ensures TableBlocks(theme, data)[0].rows[0] == TableBlocks(theme, data)[0].rows[i]
  {
    assert data[0] == data[i];
  }

  // ----- images

  /**
   * The display size: wider than 600 is scaled to 600 wide and the height
   * by the same ratio, rounded to the nearest integer with halves up;
   * otherwise the native size. The height is the exact quotient
   * `height * 600 / width` rounded, not the source's floating-point
   * `Math.round(height * (600 / width))`.
   */
  function DisplaySize(width: int, height: int): (size: (int, int))
    ensures width <= DisplayMaxWidth ==> size == (width, height)
    ensures width > DisplayMaxWidth ==> size.0 == DisplayMaxWidth
    ensures width > DisplayMaxWidth ==>
              -width < 2 * (size.1 * width - height * DisplayMaxWidth) <= width
  {
    if width > DisplayMaxWidth then
      var scaled := 2 * height * DisplayMaxWidth + width;
      var h := scaled / (2 * width);
      assert scaled == 2 * width * h + scaled % (2 * width);
      (DisplayMaxWidth, h)
    else (width, height)
  }

  /** The image paragraph, then a caption when the title is not empty. */
  function ImageBlocks(image: Processed, title: string): (r: seq<Block>)
    ensures 1 <= |r| <= 2 && r[0].Image? && r[0].data == image.buffer
    ensures |r| == 2 <==> title != ""
    ensures |r| == 2 ==> r[1] == Caption(title)
  {
    var size := DisplaySize(image.metadata.width, image.metadata.height);
    [Image(image.buffer, size.0, size.1)] + (if title != "" then [Caption(title)] else [])
  }

  function PlaceholderText(image: ImageRef): string
  {
    "[Failed to load image: " + (if image.alt != "" then image.alt else image.src) + "]"
  }

  /** What the image processor needs besides its cache contents. */
  datatype ImageEnv = ImageEnv(platform: Platform, maxWidth: int, quality: int, cache: Config)

  /** `addImage`'s dispatch on the source: URL, data URI, or a local path. */
  function FetchImage(env: ImageEnv, st: Store, src: string, now: int): (Result<Processed>, Store)
  {
    if StartsWith(src, "http://") || StartsWith(src, "https://") then
      ProcessUrlSpec(env.platform, env.maxWidth, env.quality, env.cache, st, src, now)
    else if StartsWith(src, "data:image/") then
      ProcessBase64Spec(env.platform, env.maxWidth, env.quality, env.cache, st, src, now)
    else
      ProcessLocalSpec(env.platform, env.maxWidth, env.quality, env.cache, st, src, now)
  }

  /** One queued image: its paragraphs, or the placeholder the queue's `catch` appends. */
  function QueuedImageBlocks(env: ImageEnv, st: Store, image: ImageRef, now: int): (Result<Processed>, seq<Block>, Store)
  {
    var fetched := FetchImage(env, st, image.src, now);
    (fetched.0,
     if fetched.0.Ok? then ImageBlocks(fetched.0.value, image.title) else [Placeholder(PlaceholderText(image))],
     fetched.1)
  }

  /** `processImageQueue`, one image after the other. */
  function QueueBlocks(env: ImageEnv, st: Store, images: seq<ImageRef>, now: int): (seq<Block>, Store)
    decreases images
  {
    if images == [] then ([], st)
    else
      var first := QueuedImageBlocks(env, st, images[0], now);
      var rest := QueueBlocks(env, first.2, images[1..], now);
      (first.1 + rest.0, rest.1)
  }

  /** Every queued image yields one or two blocks; a failed one exactly its placeholder. */
  lemma QueuedImageShape(env: ImageEnv, st: Store, image: ImageRef, now: int)
    ensures var r := QueuedImageBlocks(env, st, image, now);
            && (r.0.Err? ==> r.1 == [Placeholder(PlaceholderText(image))])
            && (r.0.Ok? ==> r.1 == ImageBlocks(r.0.value, image.title))
            && 1 <= |r.1| <= 2
  {
  }

  /** The queue yields between one and two blocks per image. */
  lemma {:induction false} QueueBlocksCount(env: ImageEnv, st: Store, images: seq<ImageRef>, now: int)
    ensures |images| <= |QueueBlocks(env, st, images, now).0| <= 2 * |images|
    decreases images
  {
    if images != [] {
      var first := QueuedImageBlocks(env, st, images[0], now);
      QueuedImageShape(env, st, images[0], now);
      QueueBlocksCount(env, first.2, images[1..], now);
    }
  }

  /** A local file that cannot be read becomes a placeholder naming the image by its alt text, or its path without one. */
  lemma UnreadableLocalImage(env: ImageEnv, st: Store, image: ImageRef, now: int)
    requires !StartsWith(image.src, "http://") && !StartsWith(image.src, "https://")
    requires !StartsWith(image.src, "data:image/")
    requires env.platform.readFile(image.src).Err?
    ensures QueuedImageBlocks(env, st, image, now).1
            == [Placeholder("[Failed to load image: " + (if image.alt != "" then image.alt else image.src) + "]")]
    ensures QueuedImageBlocks(env, st, image, now).2 == st
  {
  }

  class DocxGenerator {
    const theme: Theme
    const toc: TocConfig
    const processor: ImageProcessor
    var children: seq<Block>
    var imageQueue: seq<ImageRef>

    ghost predicate Valid()
      reads processor, processor.cache
    {
      |theme.headings| == 6 && processor.Valid()
    }

    function Env(): ImageEnv
      reads processor, processor.cache
    {
      ImageEnv(processor.platform, processor.maxWidth, processor.quality, processor.cache.Cfg())
    }

    /**
     * The generator hands the image processor `x || default` for each
     * image option (800 wide, quality 85, 7 days, 500 MB), and the table
     * of contents `title || '目录'` and `maxLevel || 3`.
     */
    constructor(theme: Theme, images: ImageStyles, tocStyles: TocStyles, platform: Platform,
                dir: map<string, Bytes>, index: seq<Item>, failing: BlobFaults, indexFails: bool)
      requires |theme.headings| == 6 && DistinctKeys(index)
      ensures Valid() && fresh(processor) && fresh(processor.cache)
      ensures this.theme == theme && children == [] && imageQueue == []
      ensures processor.maxWidth == OrElse(images.maxWidth, GeneratorMaxWidth)
      ensures processor.quality == OrElse(images.quality, GeneratorQuality)
      ensures processor.cache.maxAge == OrElse(images.cacheMaxAge, DefaultCacheMaxAge)
      ensures processor.cache.maxSize == OrElse(images.cacheMaxSize, DefaultCacheMaxSize)
      ensures toc == TocConfig(TextOrElse(tocStyles.title, DefaultTitle), OrElse(tocStyles.maxLevel, DefaultMaxLevel))
    {
      this.theme := theme;
      processor := new ImageProcessor(
        ProcessorOptions(Some(OrElse(images.maxWidth, GeneratorMaxWidth)), Some(OrElse(images.quality, GeneratorQuality)),
                         Some(OrElse(images.cacheMaxAge, DefaultCacheMaxAge)),
                         Some(OrElse(images.cacheMaxSize, DefaultCacheMaxSize))),
        platform, dir, index, failing, indexFails);
      toc := Configure(TocOptions(Some(TextOrElse(tocStyles.title, DefaultTitle)),
                                  Some(OrElse(tocStyles.maxLevel, DefaultMaxLevel))));
      children := [];
      imageQueue := [];
    }

    method AddImageToQueue(image: ImageRef)
      modifies this
      ensures imageQueue == old(imageQueue) + [image] && children == old(children)
    {
      imageQueue := imageQueue + [image];
    }

    method AddParagraph(text: string)
      modifies this
      ensures children == old(children) + [ParagraphBlock(theme, text)] && imageQueue == old(imageQueue)
    {
      var isQuote := StartsWith(text, "> ");
      var cleanText := if isQuote then text[2..] else text;
      var base := if isQuote then QuoteStyle(theme) else theme.body;
      var runs := ParseInlineStyles(cleanText, base, theme.code);
      children := children + [Paragraph(runs, isQuote)];
    }

    method AddHeading(text: string, level: Option<int>)
      requires |theme.headings| == 6
      modifies this
      ensures children == old(children) + [HeadingBlock(theme, text, level)] && imageQueue == old(imageQueue)
    {
      if level.None? {
        var runs := ParseInlineStyles(text, theme.body, theme.code);
        children := children + [Heading(None, runs)];
      } else {
        var headingLevel := ClampLevel(level.value);
        var runs := ParseInlineStyles(text, theme.headings[headingLevel - 1], theme.code);
        children := children + [Heading(Some(headingLevel), runs)];
      }
    }

    method AddList(items: seq<string>, ordered: bool, level: int)
      modifies this
      ensures children == old(children) + ListBlocks(theme, items, ordered, level) && imageQueue == old(imageQueue)
    {
      var index := 0;
      while index < |items|
        invariant index <= |items| && imageQueue == old(imageQueue)
        invariant children == old(children) + ListBlocks(theme, items, ordered, level)[..index]
      {
        var marker := if ordered then NatToString(index + 1) + ". " else "• ";
        var runs := ParseInlineStyles(items[index], theme.body, theme.code);
        children := children + [ListItem(marker, runs, 720 + level * 360)];
        assert ListBlocks(theme, items, ordered, level)[..index + 1]
            == ListBlocks(theme, items, ordered, level)[..index] + [ListItemBlock(theme, items[index], ordered, level, index)];
        index := index + 1;
      }
      assert ListBlocks(theme, items, ordered, level)[..index] == ListBlocks(theme, items, ordered, level);
    }

    /** Called by the compiler for task items; the generator has no such method, so its output is left abstract. */
    method AddTaskListItem(text: string, checked: bool, level: int)
      modifies this
      ensures children == old(children) + [TaskItem(text, checked, level)] && imageQueue == old(imageQueue)
    {
      children := children + [TaskItem(text, checked, level)];
    }

    /** `addCodeBlock`: the language is accepted and not used. */
    method AddCodeBlock(code: string, language: string)
      modifies this
      ensures children == old(children) + [CodeBlock(code)] && imageQueue == old(imageQueue)
    {
      children := children + [CodeBlock(code)];
    }

    method AddTable(data: seq<seq<string>>)
      modifies this
      ensures children == old(children) + TableBlocks(theme, data) && imageQueue == old(imageQueue)
    {
      if |data| == 0 {
        return;
      }
      var rows: seq<seq<Cell>> := [];
      var i := 0;
      while i < |data|
        invariant i <= |data| && unchanged(this)
        invariant rows == TableBlocks(theme, data)[0].rows[..i]
      {
        var cells: seq<Cell> := [];
        var j := 0;
        while j < |data[i]|
          invariant j <= |data[i]| && unchanged(this)
          invariant cells == RowCells(theme, data[i])[..j]
        {
          var runs := ParseInlineStyles(data[i][j], theme.table, theme.code);
          cells := cells + [Cell(runs, 100 / |data[i]|)];
          j := j + 1;
        }
        assert cells == RowCells(theme, data[i]);
        rows := rows + [cells];
        i := i + 1;
      }
      assert rows == TableBlocks(theme, data)[0].rows;
      assert TableBlocks(theme, data) == [Table(rows)];
      children := children + [Table(rows)];
    }

    /**
     * `addImage`: fetch through the processor, then append the image and its
     * caption. On failure nothing is appended and the error is returned.
     */
    method AddImage(src: string, alt: string, title: string, now: int) returns (outcome: Result<Processed>)
      requires Valid()
      modifies this, processor.cache
      ensures Valid() && imageQueue == old(imageQueue)
      ensures (outcome, processor.cache.State()) == FetchImage(Env(), old(processor.cache.State()), src, now)
      ensures children == old(children) + (if outcome.Ok? then ImageBlocks(outcome.value, title) else [])
    {
      if StartsWith(src, "http://") || StartsWith(src, "https://") {
        outcome := processor.ProcessUrlImage(src, now);
      } else if StartsWith(src, "data:image/") {
        outcome := processor.ProcessBase64Image(src, now);
      } else {
        outcome := processor.ProcessLocalImage(src, now);
      }
      if outcome.Err? {
        return;
      }
      var size := DisplaySize(outcome.value.metadata.width, outcome.value.metadata.height);
      children := children + [Image(outcome.value.buffer, size.0, size.1)];
      if title != "" {
        children := children + [Caption(title)];
      }
    }

    /** The callback `processImageQueue` runs for one image: add it, or catch the failure and add a placeholder. */
    method AddQueuedImage(image: ImageRef, now: int)
      requires Valid()
      modifies this, processor.cache
      ensures Valid() && imageQueue == old(imageQueue)
      ensures var step := QueuedImageBlocks(Env(), old(processor.cache.State()), image, now);
              children == old(children) + step.1 && processor.cache.State() == step.2
    {
      var outcome := AddImage(image.src, image.alt, image.title, now);
      if outcome.Err? {
        children := children + [Placeholder(PlaceholderText(image))];
      }
    }

    /**
     * `processImageQueue`: every queued image is added or replaced by its
     * placeholder, the queue is emptied, and since each failure is caught
     * inside the callback no image counts as failed.
     */
    method ProcessImageQueue(now: int) returns (succeeded: nat, failed: nat)
      requires Valid()
      modifies this, processor.cache
      ensures Valid()
      ensures imageQueue == []
      ensures succeeded == |old(imageQueue)| && failed == 0
      ensures var total := QueueBlocks(Env(), old(processor.cache.State()), old(imageQueue), now);
              children == old(children) + total.0 && processor.cache.State() == total.1
    {
      if |imageQueue| == 0 {
        assert children == old(children) + [];
        return 0, 0;
      }
      var queue := imageQueue;
      ghost var env := Env();
      ghost var total := QueueBlocks(env, processor.cache.State(), queue, now);
      var k := 0;
      while k < |queue|
        invariant k <= |queue| && Valid() && imageQueue == queue && Env() == env
        invariant var rest := QueueBlocks(env, processor.cache.State(), queue[k..], now);
                  old(children) + total.0 == children + rest.0 && total.1 == rest.1
      {
        ghost var st := processor.cache.State();
        ghost var before := children;
        ghost var step := QueuedImageBlocks(env, st, queue[k], now);
        ghost var rest := QueueBlocks(env, step.2, queue[k + 1..], now);
        assert queue[k..][1..] == queue[k + 1..];
        assert QueueBlocks(env, st, queue[k..], now) == (step.1 + rest.0, rest.1);
        AddQueuedImage(queue[k], now);
        assert children == before + step.1;
        AppendAssoc(before, step.1, rest.0);
        k := k + 1;
      }
      assert queue[k..] == [];
      imageQueue := [];
      return |queue|, 0;
    }

    /** `addTableOfContents`: the three table-of-contents blocks. */
    method AddTableOfContents()
      modifies this
      ensures children == old(children) + TocBlocks(toc) && imageQueue == old(imageQueue)
    {
      var paragraphs := Generate(toc);
      children := children + paragraphs;
    }
  }
}
