/**
 * `TocGenerator`: the headings a table of contents lists, and the three
 * elements it contributes to the document.
 */
module Toc {
  import opened Wrappers
  import opened Text
  import opened Tokens
  import opened Blocks

  const DefaultTitle: string := "目录"
  const DefaultMaxLevel: int := 3

  /** The constructor's options; `None` is an absent key. */
  datatype TocOptions = TocOptions(title: Option<string>, maxLevel: Option<int>)

  /** `{title: t || default, maxLevel: m || default, ...options}`: a present key always wins. */
  datatype TocConfig = TocConfig(title: string, maxLevel: int)

  function Configure(options: TocOptions): (c: TocConfig)
    ensures options.title.None? ==> c.title == DefaultTitle
    ensures options.title.Some? ==> c.title == options.title.value
    ensures options.maxLevel.None? ==> c.maxLevel == DefaultMaxLevel
    ensures options.maxLevel.Some? ==> c.maxLevel == options.maxLevel.value
  {
    TocConfig(if options.title.Some? then options.title.value else DefaultTitle,
              if options.maxLevel.Some? then options.maxLevel.value else DefaultMaxLevel)
  }

  /** One entry of the table of contents. */
  datatype TocHeading = TocHeading(text: string, level: int)

  /**
   * Whether the token at `i` is listed: a `heading_open` whose level is a
   * number no greater than `maxLevel` and whose next token is `inline`.
   * NaN compares false with everything, so a level that is not a number is
   * never listed.
   */
  predicate Listed(tokens: seq<Token>, i: nat, maxLevel: int)
    requires i < |tokens|
  {
    && tokens[i].kind == HeadingOpen
    && HeadingLevel(tokens[i].tag).Some?
    && HeadingLevel(tokens[i].tag).value <= maxLevel
    && i + 1 < |tokens| && tokens[i + 1].kind == Inline
  }

  /** The entry a listed token contributes. */
  function EntryAt(tokens: seq<Token>, i: nat, maxLevel: int): TocHeading
    requires i < |tokens| && Listed(tokens, i, maxLevel)
  {
    TocHeading(tokens[i + 1].content, HeadingLevel(tokens[i].tag).value)
  }

  /** The entries of the tokens from position `i` on, in document order. */
  function HeadingsFrom(tokens: seq<Token>, i: nat, maxLevel: int): seq<TocHeading>
    requires i <= |tokens|
    decreases |tokens| - i
  {
    if i == |tokens| then []
    else (if Listed(tokens, i, maxLevel) then [EntryAt(tokens, i, maxLevel)] else [])
         + HeadingsFrom(tokens, i + 1, maxLevel)
  }

  /** `getHeadings`: the loop over the tokens pushing one entry per listed heading. */
  method GetHeadings(config: TocConfig, tokens: seq<Token>) returns (headings: seq<TocHeading>)
    ensures headings == HeadingsFrom(tokens, 0, config.maxLevel)
    ensures forall h :: h in headings ==> h.level <= config.maxLevel
  {
    headings := [];
    var index := 0;
    while index < |tokens|
      invariant index <= |tokens|
      invariant headings + HeadingsFrom(tokens, index, config.maxLevel) == HeadingsFrom(tokens, 0, config.maxLevel)
    {
      ghost var before := headings;
      ghost var added := if Listed(tokens, index, config.maxLevel) then [EntryAt(tokens, index, config.maxLevel)] else [];
      var token := tokens[index];
      if token.kind == HeadingOpen {
        var level := HeadingLevel(token.tag);
        if level.Some? && level.value <= config.maxLevel {
          if index + 1 < |tokens| && tokens[index + 1].kind == Inline {
            assert Listed(tokens, index, config.maxLevel);
            headings := headings + [TocHeading(tokens[index + 1].content, level.value)];
          } else {
            assert !Listed(tokens, index, config.maxLevel);
          }
        } else {
          assert !Listed(tokens, index, config.maxLevel);
        }
      } else {
        assert !Listed(tokens, index, config.maxLevel);
      }
      assert headings == before + added;
      HeadingsStep(tokens, index, config.maxLevel);
      AppendAssoc(before, added, HeadingsFrom(tokens, index + 1, config.maxLevel));
      index := index + 1;
    }
    HeadingsLevels(tokens, 0, config.maxLevel);
  }

  /** One position of the scan: the entry of the token at `i`, if listed, then the rest. */
  lemma HeadingsStep(tokens: seq<Token>, i: nat, maxLevel: int)
    requires i < |tokens|
    ensures HeadingsFrom(tokens, i, maxLevel)
            == (if Listed(tokens, i, maxLevel) then [EntryAt(tokens, i, maxLevel)] else []) + HeadingsFrom(tokens, i + 1, maxLevel)
  {
  }

  /**
   * An entry is listed exactly when some `heading_open` at or after `i`
   * passes the level test and is followed by an `inline` token carrying
   * its text.
   */
  lemma HeadingsMember(tokens: seq<Token>, i: nat, maxLevel: int)
    requires i <= |tokens|
    ensures forall h :: h in HeadingsFrom(tokens, i, maxLevel) <==>
              exists j :: i <= j < |tokens| && Listed(tokens, j, maxLevel) && h == EntryAt(tokens, j, maxLevel)
  {
    HeadingsListed(tokens, i, maxLevel);
    HeadingsComplete(tokens, i, maxLevel);
  }

  /** Every entry comes from a listed token at or after `i`. */
  lemma {:induction false} HeadingsListed(tokens: seq<Token>, i: nat, maxLevel: int)
    requires i <= |tokens|
    ensures forall h :: h in HeadingsFrom(tokens, i, maxLevel) ==>
              exists j :: i <= j < |tokens| && Listed(tokens, j, maxLevel) && h == EntryAt(tokens, j, maxLevel)
    decreases |tokens| - i
  {
    if i < |tokens| {
      HeadingsListed(tokens, i + 1, maxLevel);
      var rest := HeadingsFrom(tokens, i + 1, maxLevel);
      forall h | h in HeadingsFrom(tokens, i, maxLevel)
        ensures exists j :: i <= j < |tokens| && Listed(tokens, j, maxLevel) && h == EntryAt(tokens, j, maxLevel)
      {
        if Listed(tokens, i, maxLevel) && h == EntryAt(tokens, i, maxLevel) {
        } else {
          assert HeadingsFrom(tokens, i, maxLevel) == (if Listed(tokens, i, maxLevel) then [EntryAt(tokens, i, maxLevel)] else []) + rest;
          assert h in rest;
        }
      }
    }
  }

  /** Every listed token at or after `i` contributes its entry. */
  lemma {:induction false} HeadingsComplete(tokens: seq<Token>, i: nat, maxLevel: int)
    requires i <= |tokens|
    ensures forall j :: i <= j < |tokens| && Listed(tokens, j, maxLevel) ==>
              EntryAt(tokens, j, maxLevel) in HeadingsFrom(tokens, i, maxLevel)
    decreases |tokens| - i
  {
    if i < |tokens| {
      HeadingsComplete(tokens, i + 1, maxLevel);
      var rest := HeadingsFrom(tokens, i + 1, maxLevel);
      forall j | i <= j < |tokens| && Listed(tokens, j, maxLevel)
        ensures EntryAt(tokens, j, maxLevel) in HeadingsFrom(tokens, i, maxLevel)
      {
        if j == i {
          assert HeadingsFrom(tokens, i, maxLevel) == [EntryAt(tokens, i, maxLevel)] + rest;
        } else {
          assert EntryAt(tokens, j, maxLevel) in rest;
          assert HeadingsFrom(tokens, i, maxLevel) == (if Listed(tokens, i, maxLevel) then [EntryAt(tokens, i, maxLevel)] else []) + rest;
        }
      }
    }
  }

  /** No entry is deeper than `maxLevel`. */
  lemma {:induction false} HeadingsLevels(tokens: seq<Token>, i: nat, maxLevel: int)
    requires i <= |tokens|
    ensures forall h :: h in HeadingsFrom(tokens, i, maxLevel) ==> h.level <= maxLevel
    decreases |tokens| - i
  {
    if i < |tokens| {
      HeadingsLevels(tokens, i + 1, maxLevel);
    }
  }

  /** A `heading_open` whose next token is not `inline`, or that ends the stream, contributes nothing. */
  lemma HeadingWithoutTextSkipped(tokens: seq<Token>, i: nat, maxLevel: int)
    requires i < |tokens| && tokens[i].kind == HeadingOpen
    requires i + 1 == |tokens| || tokens[i + 1].kind != Inline
    ensures HeadingsFrom(tokens, i, maxLevel) == HeadingsFrom(tokens, i + 1, maxLevel)
  {
  }

  /** There are never more entries than tokens. */
  lemma {:induction false} HeadingsCount(tokens: seq<Token>, i: nat, maxLevel: int)
    requires i <= |tokens|
    ensures |HeadingsFrom(tokens, i, maxLevel)| <= |tokens| - i
    decreases |tokens| - i
  {
    if i < |tokens| {
      HeadingsCount(tokens, i + 1, maxLevel);
    }
  }

  /** `generate`: the title, the contents field, then a spacer. */
  method Generate(config: TocConfig) returns (paragraphs: seq<Block>)
    ensures |paragraphs| == 3
    ensures paragraphs[0] == TocTitle(config.title)
    ensures paragraphs[1].TocField? && paragraphs[1].styleRange == "1-" + IntText(config.maxLevel)
    ensures paragraphs[2] == Spacer
  {
    paragraphs := [];
    paragraphs := paragraphs + [TocTitle(config.title)];
    paragraphs := paragraphs + [TocField("1-" + IntText(config.maxLevel))];
    paragraphs := paragraphs + [Spacer];
  }

  /** A number as a template literal prints it. */
  function IntText(n: int): (r: string)
    ensures n >= 0 ==> r == NatToString(n)
    ensures n < 0 ==> r == "-" + NatToString(-n)
  {
    if n >= 0 then NatToString(n) else "-" + NatToString(-n)
  }

  /** The blocks `generate` produces, as a value for the generator's own contract. */
  function TocBlocks(config: TocConfig): seq<Block>
  {
    [TocTitle(config.title), TocField("1-" + IntText(config.maxLevel)), Spacer]
  }
}
