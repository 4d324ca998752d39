/**
 * The document elements the CLI generator appends to its `children` list,
 * as values. Each stands for the paragraph or table the docx library would
 * build; only the parts the generator chooses are kept.
 */
module Blocks {
  import opened Wrappers
  import opened CacheIndex
  import opened InlineStyles

  /** A table cell: its runs and its width in percent of the table. */
  datatype Cell = Cell(runs: seq<Run>, widthPercent: int)

  datatype Block =
    /** A heading paragraph; `level` names the heading style, `None` when the level is NaN. */
    | Heading(level: Option<int>, runs: seq<Run>)
    /** A body paragraph; a quote has a 720 left indent and 200 space before. */
    | Paragraph(runs: seq<Run>, quote: bool)
    /** One list paragraph: the marker run, then the item's runs, indented by `indent`. */
    | ListItem(marker: string, runs: seq<Run>, indent: int)
    /** A task-list item (the generator has no method for it: its rendering is left abstract). */
    | TaskItem(text: string, checked: bool, depth: int)
    /** A shaded code paragraph holding the code text in the code style. */
    | CodeBlock(code: string)
    | Table(rows: seq<seq<Cell>>)
    /** A centred image paragraph with its display size. */
    | Image(data: Bytes, width: int, height: int)
    /** The caption paragraph under an image. */
    | Caption(title: string)
    /** The red bold paragraph that replaces an image that failed to load. */
    | Placeholder(text: string)
    /** The table-of-contents title paragraph (size 32, bold). */
    | TocTitle(title: string)
    /** The table-of-contents field over heading styles `1-<maxLevel>`. */
    | TocField(styleRange: string)
    /** An empty paragraph with 800 space after it. */
    | Spacer
}
