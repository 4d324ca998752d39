/**
 * The flat token stream the Markdown tokenizer hands to the compilers.
 * Nesting is encoded only by paired `*_open`/`*_close` tokens; text sits in
 * `inline` tokens placed at fixed offsets after the opening token.
 */
module Tokens {
  import opened Wrappers
  import opened Text

  /** The token types the compilers look at; every other type is `Other`. */
  datatype Kind =
    | HeadingOpen | HeadingClose
    | ParagraphOpen | ParagraphClose
    | Inline
    | BulletListOpen | BulletListClose
    | OrderedListOpen | OrderedListClose
    | ListItemOpen | ListItemClose
    | Fence
    | TableOpen | TableClose
    | TrOpen | TrClose
    | ThOpen | ThClose
    | TdOpen | TdClose
    | Other(name: string)
  {
    predicate IsListOpen() { BulletListOpen? || OrderedListOpen? }
    predicate IsListClose() { BulletListClose? || OrderedListClose? }
    predicate IsCellOpen() { TdOpen? || ThOpen? }
  }

  /**
   * A token as the tokenizer produces it. `content`, `tag` and `info`
   * are the empty string when the tokenizer leaves them unset.
   */
  datatype Token = Token(kind: Kind, tag: string, content: string, info: string)

  /** A text-carrying `inline` token. */
  function InlineToken(text: string): Token
  {
    Token(Inline, "", text, "")
  }

  function Marker(kind: Kind): Token
  {
    Token(kind, "", "", "")
  }

  /** Cell text `c` sits at `k`: a `th`/`td` opener followed by an `inline` token holding `c`. */
  predicate CellAt(tokens: seq<Token>, k: int, c: string)
  {
    0 <= k && k + 1 < |tokens| && tokens[k].kind.IsCellOpen() && tokens[k + 1].kind == Inline
    && tokens[k + 1].content == c
  }

  /** Every text of `cells` sits at some cell of `tokens[lo..hi]`. */
  ghost predicate CellsWithin(tokens: seq<Token>, lo: int, hi: int, cells: seq<string>)
  {
    forall c :: c in cells ==> exists k :: lo <= k < hi && CellAt(tokens, k, c)
  }

  /** A cell found at `lo`, followed by cells found from `mid` on, are cells found from `lo` on. */
  lemma CellsWithinCons(tokens: seq<Token>, lo: int, mid: int, hi: int, row: seq<string>, x: string,
                        cells: seq<string>)
    requires CellAt(tokens, lo, x) && lo <= mid && lo < hi
    requires row + [x] <= cells && CellsWithin(tokens, mid, hi, cells[|row| + 1..])
    ensures row <= cells && CellsWithin(tokens, lo, hi, cells[|row|..])
  {
    assert cells[|row|..] == [x] + cells[|row| + 1..];
    assert cells[..|row|] == (row + [x])[..|row|] == row;
  }

  /** The text with its leading whitespace removed. */
  function TrimStart(s: string): (r: string)
    ensures |r| <= |s|
  {
    if s != [] && IsSpace(s[0]) then TrimStart(s[1..]) else s
  }

  /** Trimming keeps a suffix of the text, and what it keeps no longer opens with whitespace. */
  lemma {:induction false} TrimStartShape(s: string)
    ensures var r := TrimStart(s); s[|s| - |r|..] == r && (r != [] ==> !IsSpace(r[0]))
    decreases |s|
  {
    if s != [] && IsSpace(s[0]) {
      TrimStartShape(s[1..]);
      assert s[1..][|s| - 1 - |TrimStart(s)|..] == s[|s| - |TrimStart(s)|..];
    }
  }

  /**
   * JavaScript's `parseInt` with no radix, on decimal text: leading
   * whitespace skipped, an optional sign, then the longest run of digits;
   * no digit at all is NaN (`None`).
   */
  function ParseInt(s: string): Option<int>
    decreases |s|
  {
    if s != [] && IsSpace(s[0]) then ParseInt(s[1..])
    else
      var digits := LeadingDigits(SignStripped(s));
      LeadingDigitsRun(SignStripped(s));
      var value: int := DecimalValue(digits);
      if digits == [] then None
      else if s[0] == '-' then Some(-value)
      else Some(value)
  }

  /** NaN exactly when no digit follows the leading whitespace and the sign. */
  lemma {:induction false} ParseIntNaN(s: string)
    ensures ParseInt(s).None? <==> LeadingDigits(SignStripped(TrimStart(s))) == []
    decreases |s|
  {
    if s != [] && IsSpace(s[0]) {
      ParseIntNaN(s[1..]);
    }
  }

  function SignStripped(t: string): string
  {
    if t != [] && (t[0] == '-' || t[0] == '+') then t[1..] else t
  }

  lemma {:induction false} LeadingDigitsOfDigits(ds: string, rest: string)
    requires forall k :: 0 <= k < |ds| ==> IsDigit(ds[k])
    requires rest == [] || !IsDigit(rest[0])
    ensures LeadingDigits(ds + rest) == ds
  {
    if ds != [] {
      assert (ds + rest)[1..] == ds[1..] + rest;
      LeadingDigitsOfDigits(ds[1..], rest);
    } else {
      assert ds + rest == rest;
    }
  }

  /** The decimal text of a number, followed by anything but a digit, reads back as that number. */
  lemma ParseIntOfDecimal(n: nat, rest: string)
    requires rest == [] || !IsDigit(rest[0])
    ensures ParseInt(NatToString(n) + rest) == Some(n)
  {
    var s := NatToString(n) + rest;
    assert s[0] == NatToString(n)[0];
    assert SignStripped(s) == s;
    LeadingDigitsOfDigits(NatToString(n), rest);
    NatToStringValue(n);
  }

  /** `parseInt(tag.slice(1))`: the heading level a tag such as `h2` names; NaN is `None`. */
  function HeadingLevel(tag: string): Option<int>
  {
    ParseInt(if tag == [] then [] else tag[1..])
  }

  /** The tags `h1` … `h6` the tokenizer produces name their own levels. */
  lemma HeadingLevelOfTag(n: nat)
    ensures HeadingLevel("h" + NatToString(n)) == Some(n)
  {
    assert ("h" + NatToString(n))[1..] == NatToString(n) + [];
    ParseIntOfDecimal(n, []);
  }
}
