/**
 * `MarkdownParser`: image references pulled out of `inline` tokens with the
 * regular expression `!\[([^\]]*)\]\(([^)\s]+)(?:\s+"([^"]*)")?\)` under a
 * global `exec` loop, and the token filter that drops every `inline` token
 * containing `![`. The tokenizer itself is not part of this model: both
 * operations start from its token sequence.
 */
module MarkdownParser {
  import opened Wrappers
  import opened Text
  import opened Tokens

  /** One reference as `parseImages` reports it. */
  datatype ImageRef = ImageRef(src: string, alt: string, title: string, isUrl: bool, isBase64: bool)

  /** A successful match starting at some position; `end` is where the next search resumes. */
  datatype Match = Match(alt: string, src: string, title: string, end: nat)

  /** `[^)\s]`: a character the source group accepts. */
  predicate IsSrcChar(c: char)
  {
    c != ')' && !IsSpace(c)
  }

  /** The first position at or after `from` holding `c`, or `|s|` when there is none. */
  function FindChar(s: string, from: nat, c: char): (r: nat)
    requires from <= |s|
    ensures from <= r <= |s|
    ensures r < |s| ==> s[r] == c
    ensures forall k :: from <= k < r ==> s[k] != c
    decreases |s| - from
  {
    if from == |s| then |s|
    else if s[from] == c then from
    else FindChar(s, from + 1, c)
  }

  /** The end of the longest run of source characters starting at `from`. */
  function SrcEnd(s: string, from: nat): (e: nat)
    requires from <= |s|
    ensures from <= e <= |s|
    ensures forall k :: from <= k < e ==> IsSrcChar(s[k])
    ensures e < |s| ==> !IsSrcChar(s[e])
    decreases |s| - from
  {
    if from < |s| && IsSrcChar(s[from]) then SrcEnd(s, from + 1) else from
  }

  /** The end of the longest run of whitespace starting at `from`. */
  function SpaceEnd(s: string, from: nat): (e: nat)
    requires from <= |s|
    ensures from <= e <= |s|
    ensures forall k :: from <= k < e ==> IsSpace(s[k])
    ensures e < |s| ==> !IsSpace(s[e])
    decreases |s| - from
  {
    if from < |s| && IsSpace(s[from]) then SpaceEnd(s, from + 1) else from
  }

  /**
   * The regular expression anchored at `p`. Each group ends at the first
   * character its class refuses, and no shorter choice lets the rest match,
   * so backtracking never finds a second match and this is the only one.
   */
  function MatchAt(s: string, p: nat): (r: Option<Match>)
    ensures r.Some? ==> p + 6 <= r.value.end <= |s| && s[p] == '!' && s[p + 1] == '['
  {
    if p + 1 >= |s| || s[p] != '!' || s[p + 1] != '[' then None
    else MatchAfterAlt(s, p, FindChar(s, p + 2, ']'))
  }

  /** After `![alt` ends at `q`: `](` must follow, then the source group. */
  function MatchAfterAlt(s: string, p: nat, q: nat): (r: Option<Match>)
    requires p + 2 <= q <= |s|
    ensures r.Some? ==> p + 6 <= r.value.end <= |s|
  {
    if q + 1 >= |s| || s[q + 1] != '(' then None
    else MatchAfterSrc(s, p, q, SrcEnd(s, q + 2))
  }

  /** After a source ending at `e`: `)` closes an untitled reference, otherwise whitespace and a title follow. */
  function MatchAfterSrc(s: string, p: nat, q: nat, e: nat): (r: Option<Match>)
    requires p + 2 <= q && q + 2 <= e <= |s|
    ensures r.Some? ==> p + 6 <= r.value.end <= |s|
  {
    if e == q + 2 || e >= |s| then None
    else if s[e] == ')' then Some(Match(s[p + 2..q], s[q + 2..e], "", e + 1))
    else MatchTitle(s, p, q, e, SpaceEnd(s, e))
  }

  /** After the whitespace ending at `f`: a quoted title, then `)`. */
  function MatchTitle(s: string, p: nat, q: nat, e: nat, f: nat): (r: Option<Match>)
    requires p + 2 <= q && q + 2 < e <= f <= |s|
    ensures r.Some? ==> p + 6 <= r.value.end <= |s|
  {
    if f >= |s| || s[f] != '"' then None
    else
      var g := FindChar(s, f + 1, '"');
      if g + 1 < |s| && s[g + 1] == ')' then Some(Match(s[p + 2..q], s[q + 2..e], s[f + 1..g], g + 2))
      else None
  }

  /** A non-empty source of source characters, an alt without `]` and a title without `"`. */
  predicate WellShaped(m: Match)
  {
    && m.src != [] && (forall k :: 0 <= k < |m.src| ==> IsSrcChar(m.src[k]))
    && (forall k :: 0 <= k < |m.alt| ==> m.alt[k] != ']')
    && (forall k :: 0 <= k < |m.title| ==> m.title[k] != '"')
  }

  /** Every match the regular expression finds is well shaped. */
  lemma MatchAtShape(s: string, p: nat)
    ensures MatchAt(s, p).Some? ==> WellShaped(MatchAt(s, p).value)
  {
    if p + 1 < |s| && s[p] == '!' && s[p + 1] == '[' {
      var q := FindChar(s, p + 2, ']');
      assert MatchAt(s, p) == MatchAfterAlt(s, p, q);
      AfterAltShape(s, p, q);
    }
  }

  lemma AfterAltShape(s: string, p: nat, q: nat)
    requires p + 2 <= q <= |s| && forall k :: p + 2 <= k < q ==> s[k] != ']'
    ensures MatchAfterAlt(s, p, q).Some? ==> WellShaped(MatchAfterAlt(s, p, q).value)
  {
    if q + 1 < |s| && s[q + 1] == '(' {
      var e := SrcEnd(s, q + 2);
      assert MatchAfterAlt(s, p, q) == MatchAfterSrc(s, p, q, e);
      AfterSrcShape(s, p, q, e);
    }
  }

  lemma AfterSrcShape(s: string, p: nat, q: nat, e: nat)
    requires p + 2 <= q && q + 2 <= e <= |s| && forall k :: p + 2 <= k < q ==> s[k] != ']'
    requires forall k :: q + 2 <= k < e ==> IsSrcChar(s[k])
    ensures MatchAfterSrc(s, p, q, e).Some? ==> WellShaped(MatchAfterSrc(s, p, q, e).value)
  {
    if e != q + 2 && e < |s| && s[e] != ')' {
      TitleShape(s, p, q, e, SpaceEnd(s, e));
    }
  }

  lemma TitleShape(s: string, p: nat, q: nat, e: nat, f: nat)
    requires p + 2 <= q && q + 2 < e <= f <= |s| && forall k :: p + 2 <= k < q ==> s[k] != ']'
    requires forall k :: q + 2 <= k < e ==> IsSrcChar(s[k])
    ensures MatchTitle(s, p, q, e, f).Some? ==> WellShaped(MatchTitle(s, p, q, e, f).value)
  {
    if f < |s| && s[f] == '"' {
      var g := FindChar(s, f + 1, '"');
      if g + 1 < |s| && s[g + 1] == ')' {
        assert MatchTitle(s, p, q, e, f) == Some(Match(s[p + 2..q], s[q + 2..e], s[f + 1..g], g + 2));
      }
    }
  }

  /** Every character of `w` is whitespace. */
  predicate AllSpace(w: string)
  {
    forall k :: 0 <= k < |w| ==> IsSpace(w[k])
  }

  /**
   * The text from `p` to the match's end spells the match in the reference
   * syntax: `![alt](src)` with the empty title, or `![alt](src "title")` with
   * a non-empty run of whitespace before the title.
   */
  ghost predicate Spells(s: string, p: nat, m: Match)
    requires p <= m.end <= |s|
  {
    || (m.title == [] && s[p..m.end] == "![" + m.alt + "](" + m.src + ")")
    || exists w :: w != [] && AllSpace(w) && s[p..m.end] == "![" + m.alt + "](" + m.src + w + "\"" + m.title + "\")"
  }

  /** Only a reference spelled at `p` is matched there, and its fields are the text it spans. */
  lemma MatchAtSpells(s: string, p: nat)
    ensures MatchAt(s, p).Some? ==> Spells(s, p, MatchAt(s, p).value)
  {
    if p + 1 < |s| && s[p] == '!' && s[p + 1] == '[' {
      var q := FindChar(s, p + 2, ']');
      assert MatchAt(s, p) == MatchAfterAlt(s, p, q);
      if q + 1 < |s| && s[q + 1] == '(' {
        var e := SrcEnd(s, q + 2);
        assert MatchAfterAlt(s, p, q) == MatchAfterSrc(s, p, q, e);
        AfterSrcSpells(s, p, q, e);
      }
    }
  }

  lemma AfterSrcSpells(s: string, p: nat, q: nat, e: nat)
    requires p + 2 <= q && q + 2 <= e <= |s|
    requires s[p] == '!' && s[p + 1] == '[' && s[q] == ']' && s[q + 1] == '('
    requires e < |s| && s[e] != ')' ==> !IsSrcChar(s[e])
    ensures MatchAfterSrc(s, p, q, e).Some? ==> Spells(s, p, MatchAfterSrc(s, p, q, e).value)
  {
    if e != q + 2 && e < |s| {
      if s[e] == ')' {
        UntitledSpelling(s, p, q, e);
      } else {
        assert IsSpace(s[e]);
        var f := SpaceEnd(s, e);
        assert MatchAfterSrc(s, p, q, e) == MatchTitle(s, p, q, e, f);
        TitleSpells(s, p, q, e, f);
      }
    }
  }

  lemma TitleSpells(s: string, p: nat, q: nat, e: nat, f: nat)
    requires p + 2 <= q && q + 2 < e < f <= |s|
    requires s[p] == '!' && s[p + 1] == '[' && s[q] == ']' && s[q + 1] == '('
    requires AllSpace(s[e..f])
    ensures MatchTitle(s, p, q, e, f).Some? ==> Spells(s, p, MatchTitle(s, p, q, e, f).value)
  {
    if f < |s| && s[f] == '"' {
      var g := FindChar(s, f + 1, '"');
      if g + 1 < |s| && s[g + 1] == ')' {
        var m := Match(s[p + 2..q], s[q + 2..e], s[f + 1..g], g + 2);
        assert MatchTitle(s, p, q, e, f) == Some(m);
        TitledSpelling(s, p, q, e, f, g);
        SpellsTitled(s, p, m, s[e..f]);
      }
    }
  }

  lemma SpellsTitled(s: string, p: nat, m: Match, w: string)
    requires p <= m.end <= |s| && w != [] && AllSpace(w)
    requires s[p..m.end] == "![" + m.alt + "](" + m.src + w + "\"" + m.title + "\")"
    ensures Spells(s, p, m)
  {
  }

  lemma UntitledSpelling(s: string, p: nat, q: nat, e: nat)
    requires p + 2 <= q && q + 2 <= e < |s|
    requires s[p] == '!' && s[p + 1] == '[' && s[q] == ']' && s[q + 1] == '(' && s[e] == ')'
    ensures s[p..e + 1] == "![" + s[p + 2..q] + "](" + s[q + 2..e] + ")"
  {
    assert s[p..p + 2] == "![" && s[q..q + 2] == "](" && s[e..e + 1] == ")";
    assert s[p..e + 1] == s[p..p + 2] + s[p + 2..q] + s[q..q + 2] + s[q + 2..e] + s[e..e + 1];
  }

  lemma TitledSpelling(s: string, p: nat, q: nat, e: nat, f: nat, g: nat)
    requires p + 2 <= q && q + 2 <= e <= f < g && g + 1 < |s|
    requires s[p] == '!' && s[p + 1] == '[' && s[q] == ']' && s[q + 1] == '('
    requires s[f] == '"' && s[g] == '"' && s[g + 1] == ')'
    ensures s[p..g + 2] == "![" + s[p + 2..q] + "](" + s[q + 2..e] + s[e..f] + "\"" + s[f + 1..g] + "\")"
  {
    assert s[p..p + 2] == "![" && s[q..q + 2] == "](" && s[f..f + 1] == "\"" && s[g..g + 2] == "\")";
    assert s[p..g + 2]
        == s[p..p + 2] + s[p + 2..q] + s[q..q + 2] + s[q + 2..e] + s[e..f] + s[f..f + 1] + s[f + 1..g] + s[g..g + 2];
  }

  /** Whether `s` contains `![` (`String.prototype.includes`). */
  predicate HasImageOpener(s: string)
  {
    exists k :: 0 <= k < |s| - 1 && s[k] == '!' && s[k + 1] == '['
  }

  /**
   * The matches a global `exec` loop reports from `from` on: the leftmost
   * match at or after the current index, then the search resumes at its end.
   */
  function MatchesFrom(s: string, from: nat): seq<Match>
    decreases |s| - from
  {
    if from >= |s| then []
    else match MatchAt(s, from)
      case Some(m) => [m] + MatchesFrom(s, m.end)
      case None => MatchesFrom(s, from + 1)
  }

  /** An extracted reference with its two classification flags. */
  function RefOf(m: Match): (r: ImageRef)
    ensures r.isUrl <==> StartsWith(m.src, "http://") || StartsWith(m.src, "https://")
    ensures r.isBase64 <==> StartsWith(m.src, "data:image/")
    ensures r.src == m.src && r.alt == m.alt && r.title == m.title
  {
    ImageRef(m.src, m.alt, m.title,
             StartsWith(m.src, "http://") || StartsWith(m.src, "https://"),
             StartsWith(m.src, "data:image/"))
  }

  function RefsOf(ms: seq<Match>): seq<ImageRef>
  {
    if ms == [] then [] else [RefOf(ms[0])] + RefsOf(ms[1..])
  }

  /** `parseImages`: every reference of every `inline` token, tokens in order, matches left to right. */
  function AllImages(tokens: seq<Token>): seq<ImageRef>
  {
    if tokens == [] then []
    else
      (if tokens[0].kind == Inline then RefsOf(MatchesFrom(tokens[0].content, 0)) else [])
      + AllImages(tokens[1..])
  }

  /** What `parse` keeps of a token. */
  predicate Keeps(t: Token)
  {
    t.kind != Inline || !HasImageOpener(t.content)
  }

  /** `parse`'s token filter. */
  function FilterTokens(tokens: seq<Token>): (r: seq<Token>)
    ensures |r| <= |tokens|
  {
    if tokens == [] then []
    else (if Keeps(tokens[0]) then [tokens[0]] else []) + FilterTokens(tokens[1..])
  }

  // ----- the `exec` loop

  /**
   * `parseImages` over a token sequence: for each `inline` token, the
   * regular expression's `exec` loop, one reference per match.
   */
  method ParseImages(tokens: seq<Token>) returns (images: seq<ImageRef>)
    ensures images == AllImages(tokens)
  {
    images := [];
    var t := 0;
    while t < |tokens|
      invariant t <= |tokens|
      invariant images + AllImages(tokens[t..]) == AllImages(tokens)
    {
      ghost var before := images;
      ghost var here := if tokens[t].kind == Inline then RefsOf(MatchesFrom(tokens[t].content, 0)) else [];
      assert tokens[t..][1..] == tokens[t + 1..];
      assert AllImages(tokens[t..]) == here + AllImages(tokens[t + 1..]);
      if tokens[t].kind == Inline {
        var found := ScanContent(tokens[t].content);
        images := images + found;
      } else {
        assert images == before + here;
      }
      AppendAssoc(before, here, AllImages(tokens[t + 1..]));
      t := t + 1;
    }
    assert tokens[|tokens|..] == [];
  }

  /** The regular expression's `exec` loop over one text: one reference per match, left to right. */
  method ScanContent(content: string) returns (found: seq<ImageRef>)
    ensures found == RefsOf(MatchesFrom(content, 0))
  {
    found := [];
    var pos := 0;
    while pos < |content|
      invariant pos <= |content|
      invariant found + RefsOf(MatchesFrom(content, pos)) == RefsOf(MatchesFrom(content, 0))
      decreases |content| - pos
    {
      var m := MatchAt(content, pos);
      if m.Some? {
        assert MatchesFrom(content, pos) == [m.value] + MatchesFrom(content, m.value.end);
        RefsAppend([m.value], MatchesFrom(content, m.value.end));
        assert RefsOf([m.value]) == [RefOf(m.value)];
        AppendAssoc(found, [RefOf(m.value)], RefsOf(MatchesFrom(content, m.value.end)));
        found := found + [RefOf(m.value)];
        pos := m.value.end;
      } else {
        assert MatchesFrom(content, pos) == MatchesFrom(content, pos + 1);
        pos := pos + 1;
      }
    }
  }

  lemma {:induction false} RefsAppend(a: seq<Match>, b: seq<Match>)
    ensures RefsOf(a + b) == RefsOf(a) + RefsOf(b)
  {
    if a != [] {
      assert (a + b)[1..] == a[1..] + b;
      RefsAppend(a[1..], b);
    } else {
      assert a + b == b;
    }
  }

  /** `parse`'s filter over a sequence of tokens. */
  method Parse(tokens: seq<Token>) returns (kept: seq<Token>, images: seq<ImageRef>)
    ensures kept == FilterTokens(tokens)
    ensures images == AllImages(tokens)
  {
    images := ParseImages(tokens);
    kept := FilterTokens(tokens);
  }

  // ----- properties

  /** The filter keeps exactly the non-`inline` tokens and the `inline` tokens without `![`. */
  lemma {:induction false} FilterMember(tokens: seq<Token>, t: Token)
    ensures t in FilterTokens(tokens) <==> t in tokens && Keeps(t)
  {
    if tokens != [] {
      FilterMember(tokens[1..], t);
      assert tokens == [tokens[0]] + tokens[1..];
    }
  }

  /** The filter keeps the original order: filtering a concatenation filters each part. */
  lemma {:induction false} FilterAppend(a: seq<Token>, b: seq<Token>)
    ensures FilterTokens(a + b) == FilterTokens(a) + FilterTokens(b)
  {
    if a != [] {
      assert (a + b)[1..] == a[1..] + b;
      FilterAppend(a[1..], b);
    } else {
      assert a + b == b;
    }
  }

  /** The test is a substring test: `![` alone drops a token from which no image is extracted. */
  lemma OpenerWithoutImage()
    ensures MatchesFrom("![", 0) == []
    ensures FilterTokens([InlineToken("![")]) == []
  {
    assert MatchAt("![", 0).None?;
    assert MatchAt("![", 1).None?;
    assert MatchesFrom("![", 2) == [];
    assert MatchesFrom("![", 1) == [];
    assert "!["[0] == '!' && "!["[1] == '[';
  }

  /** Every match found lies in the text, starts with `![`, and resumes the search after itself. */
  lemma {:induction false} MatchesShape(s: string, from: nat)
    ensures forall m :: m in MatchesFrom(s, from) ==>
              m.src != [] && (forall k :: 0 <= k < |m.src| ==> IsSrcChar(m.src[k]))
              && (forall k :: 0 <= k < |m.alt| ==> m.alt[k] != ']')
              && (forall k :: 0 <= k < |m.title| ==> m.title[k] != '"')
    ensures MatchesFrom(s, from) != [] ==> HasImageOpener(s)
    decreases |s| - from
  {
    if from < |s| {
      match MatchAt(s, from)
      case Some(m) =>
        MatchAtShape(s, from);
        MatchesShape(s, m.end);
        assert s[from] == '!' && s[from + 1] == '[';
      case None =>
        MatchesShape(s, from + 1);
    }
  }

  /** Every extracted `src` is non-empty with no whitespace and no `)`, and no `alt` holds `]`. */
  lemma {:induction false} ImagesShape(tokens: seq<Token>)
    ensures forall r :: r in AllImages(tokens) ==>
              r.src != [] && (forall k :: 0 <= k < |r.src| ==> r.src[k] != ')' && !IsSpace(r.src[k]))
              && (forall k :: 0 <= k < |r.alt| ==> r.alt[k] != ']')
              && (forall k :: 0 <= k < |r.title| ==> r.title[k] != '"')
              && !(r.isUrl && r.isBase64)
  {
    if tokens != [] {
      ImagesShape(tokens[1..]);
      var own := if tokens[0].kind == Inline then RefsOf(MatchesFrom(tokens[0].content, 0)) else [];
      assert AllImages(tokens) == own + AllImages(tokens[1..]);
      if tokens[0].kind == Inline {
        var ms := MatchesFrom(tokens[0].content, 0);
        MatchesShape(tokens[0].content, 0);
        forall r | r in own
          ensures r.src != [] && (forall k :: 0 <= k < |r.src| ==> r.src[k] != ')' && !IsSpace(r.src[k]))
          ensures (forall k :: 0 <= k < |r.alt| ==> r.alt[k] != ']')
          ensures (forall k :: 0 <= k < |r.title| ==> r.title[k] != '"')
          ensures !(r.isUrl && r.isBase64)
        {
          RefsShape(ms, r);
          var m :| m in ms && r == RefOf(m);
          RefShape(m);
        }
      }
    }
  }

  lemma RefShape(m: Match)
    ensures !(RefOf(m).isUrl && RefOf(m).isBase64)
  {
    assert StartsWith(m.src, "data:image/") ==> m.src[0] == "data:image/"[0] == 'd';
    assert StartsWith(m.src, "http://") ==> m.src[0] == "http://"[0] == 'h';
    assert StartsWith(m.src, "https://") ==> m.src[0] == "https://"[0] == 'h';
  }

  lemma {:induction false} RefsShape(ms: seq<Match>, r: ImageRef)
    requires r in RefsOf(ms)
    ensures exists m :: m in ms && r == RefOf(m)
  {
    if r != RefOf(ms[0]) {
      RefsShape(ms[1..], r);
      var m :| m in ms[1..] && r == RefOf(m);
      assert m in ms;
    }
  }

  /** Every `inline` token that yields a reference is one `parse` drops. */
  lemma ImageTokensDropped(t: Token)
    requires t.kind == Inline && MatchesFrom(t.content, 0) != []
    ensures !Keeps(t)
  {
    MatchesShape(t.content, 0);
  }

  lemma FindCharIs(s: string, from: nat, c: char, q: nat)
    requires from <= q < |s| && s[q] == c && forall k :: from <= k < q ==> s[k] != c
    ensures FindChar(s, from, c) == q
  {
  }

  lemma SrcEndIs(s: string, from: nat, e: nat)
    requires from <= e < |s| && !IsSrcChar(s[e]) && forall k :: from <= k < e ==> IsSrcChar(s[k])
    ensures SrcEnd(s, from) == e
  {
  }

  lemma SpaceEndIs(s: string, from: nat, f: nat)
    requires from <= f < |s| && !IsSpace(s[f]) && forall k :: from <= k < f ==> IsSpace(s[k])
    ensures SpaceEnd(s, from) == f
  {
  }

  /** The regular expression at the start of `s`, given where each of its pieces ends. */
  lemma MatchTitledAt(s: string, q: nat, e: nat, f: nat, g: nat)
    requires 2 <= q && q + 2 < e < f < g && g + 1 < |s|
    requires s[0] == '!' && s[1] == '[' && s[q] == ']' && s[q + 1] == '('
    requires forall k :: 2 <= k < q ==> s[k] != ']'
    requires forall k :: q + 2 <= k < e ==> IsSrcChar(s[k])
    requires forall k :: e <= k < f ==> IsSpace(s[k])
    requires s[f] == '"' && s[g] == '"' && s[g + 1] == ')'
    requires forall k :: f + 1 <= k < g ==> s[k] != '"'
    ensures MatchAt(s, 0) == Some(Match(s[2..q], s[q + 2..e], s[f + 1..g], g + 2))
  {
    FindCharIs(s, 2, ']', q);
    SrcEndIs(s, q + 2, e);
    assert IsSpace(s[e]);
    SpaceEndIs(s, e, f);
    FindCharIs(s, f + 1, '"', g);
    MatchTitledStages(s, q, e, f, g);
  }

  /** The stages of the titled match, once each group's end is known. */
  lemma MatchTitledStages(s: string, q: nat, e: nat, f: nat, g: nat)
    requires 2 <= q && q + 2 < e < f < g && g + 1 < |s|
    requires s[0] == '!' && s[1] == '[' && s[q + 1] == '('
    requires FindChar(s, 2, ']') == q && SrcEnd(s, q + 2) == e && s[e] != ')' && SpaceEnd(s, e) == f
    requires s[f] == '"' && FindChar(s, f + 1, '"') == g && s[g + 1] == ')'
    ensures MatchAt(s, 0) == Some(Match(s[2..q], s[q + 2..e], s[f + 1..g], g + 2))
  {
    assert MatchAt(s, 0) == MatchAfterAlt(s, 0, q);
    assert MatchAfterAlt(s, 0, q) == MatchAfterSrc(s, 0, q, e);
    assert MatchAfterSrc(s, 0, q, e) == MatchTitle(s, 0, q, e, f);
  }

  /** Where the pieces of a titled reference sit once it is spelled out after `](`. */
  lemma TitledTail(src: string, gap: string, title: string, rest: string)
    ensures var t := src + gap + "\"" + title + "\")" + rest;
            var e := |src|;
            var f := e + |gap|;
            var g := f + 1 + |title|;
            && g + 1 < |t|
            && (forall k :: 0 <= k < e ==> t[k] == src[k])
            && (forall k :: e <= k < f ==> t[k] == gap[k - e])
            && t[f] == '"' && t[g] == '"' && t[g + 1] == ')'
            && (forall k :: f + 1 <= k < g ==> t[k] == title[k - f - 1])
            && t[..e] == src && t[f + 1..g] == title && |t| - |rest| == g + 2
  {
    var t := src + gap + "\"" + title + "\")" + rest;
    assert t == src + (gap + ("\"" + (title + ("\")" + rest))));
  }

  /** The text after `](` decides the match once the head `![alt](` is in place. */
  lemma MatchTitledAfterHead(s: string, q: nat, t: string, src: string, gap: string, title: string, rest: string)
    requires 2 <= q && q + 2 <= |s| && s[q + 2..] == t
    requires s[0] == '!' && s[1] == '[' && s[q] == ']' && s[q + 1] == '('
    requires forall k :: 2 <= k < q ==> s[k] != ']'
    requires src != [] && forall k :: 0 <= k < |src| ==> IsSrcChar(src[k])
    requires gap != [] && forall k :: 0 <= k < |gap| ==> IsSpace(gap[k])
    requires forall k :: 0 <= k < |title| ==> title[k] != '"'
    requires t == src + gap + "\"" + title + "\")" + rest
    ensures MatchAt(s, 0) == Some(Match(s[2..q], src, title, |s| - |rest|))
  {
    TitledTail(src, gap, title, rest);
    var e := q + 2 + |src|;
    var f := e + |gap|;
    var g := f + 1 + |title|;
    forall k | q + 2 <= k < |s| ensures s[k] == t[k - q - 2] {
    }
    assert s[q + 2..e] == src;
    assert s[f + 1..g] == title;
    assert |s| == q + 2 + |t| && g + 2 == |s| - |rest|;
    MatchTitledAt(s, q, e, f, g);
    assert Match(s[2..q], s[q + 2..e], s[f + 1..g], g + 2) == Match(s[2..q], src, title, |s| - |rest|);
  }

  /** The reference syntax with a title is recognised, whatever whitespace separates source and title. */
  lemma MatchTitled(s: string, alt: string, src: string, gap: string, title: string, rest: string)
    requires forall k :: 0 <= k < |alt| ==> alt[k] != ']'
    requires src != [] && forall k :: 0 <= k < |src| ==> IsSrcChar(src[k])
    requires gap != [] && forall k :: 0 <= k < |gap| ==> IsSpace(gap[k])
    requires forall k :: 0 <= k < |title| ==> title[k] != '"'
    requires s == "![" + alt + "](" + src + gap + "\"" + title + "\")" + rest
    ensures MatchAt(s, 0) == Some(Match(alt, src, title, |s| - |rest|))
  {
    var t := src + gap + "\"" + title + "\")" + rest;
    var q := 2 + |alt|;
    assert s == "![" + alt + "](" + t;
    assert s[0] == '!' && s[1] == '[' && s[2..q] == alt && s[q] == ']' && s[q + 1] == '(';
    assert forall k :: 2 <= k < q ==> s[k] == alt[k - 2];
    assert s[q + 2..] == t;
    MatchTitledAfterHead(s, q, t, src, gap, title, rest);
  }

  /** The reference syntax without a title is recognised, with the empty title. */
  lemma MatchUntitled(s: string, alt: string, src: string, rest: string)
    requires forall k :: 0 <= k < |alt| ==> alt[k] != ']'
    requires src != [] && forall k :: 0 <= k < |src| ==> IsSrcChar(src[k])
    requires s == "![" + alt + "](" + src + ")" + rest
    ensures MatchAt(s, 0) == Some(Match(alt, src, "", |s| - |rest|))
  {
    var q := 2 + |alt|;
    var e := q + 2 + |src|;
    assert s[0] == '!' && s[1] == '[';
    assert s[2..q] == alt && s[q] == ']' && s[q + 1] == '(';
    FindCharIs(s, 2, ']', q);
    assert s[q + 2..e] == src && s[e] == ')';
    SrcEndIs(s, q + 2, e);
    MatchUntitledStages(s, q, e);
  }

  /** The stages of the untitled match, once the alt and the source ends are known. */
  lemma MatchUntitledStages(s: string, q: nat, e: nat)
    requires 2 <= q && q + 2 < e < |s|
    requires s[0] == '!' && s[1] == '[' && s[q + 1] == '('
    requires FindChar(s, 2, ']') == q && SrcEnd(s, q + 2) == e && s[e] == ')'
    ensures MatchAt(s, 0) == Some(Match(s[2..q], s[q + 2..e], "", e + 1))
  {
    assert MatchAt(s, 0) == MatchAfterAlt(s, 0, q);
    assert MatchAfterAlt(s, 0, q) == MatchAfterSrc(s, 0, q, e);
  }
}

