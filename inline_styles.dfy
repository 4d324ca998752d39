/**
 * The inline emphasis scanner of the CLI generator: one left-to-right pass
 * over a text span that toggles bold, italic and code state at marker
 * characters and cuts the text into runs at every toggle.
 */
module InlineStyles {
  import opened Wrappers

  /** The part of a style-table entry a text run takes: font, size, colour. */
  datatype Style = Style(font: string, size: int, color: string)

  /**
   * One text run. Its font, size and colour come from the code style inside
   * a code span and from the caller's base style elsewhere.
   */
  datatype Run = Run(text: string, bold: bool, italic: bool, code: bool, style: Style)

  /** The emphasis state in force while scanning. */
  datatype Flags = Flags(bold: bool, italic: bool, code: bool)

  const Plain := Flags(false, false, false)

  predicate IsMarker(c: char)
  {
    c == '`' || c == '*' || c == '_'
  }

  /** The text with every marker character removed. */
  function StripMarkers(s: string): (r: string)
    ensures forall k :: 0 <= k < |r| ==> !IsMarker(r[k])
  {
    if s == [] then []
    else if IsMarker(s[0]) then StripMarkers(s[1..])
    else [s[0]] + StripMarkers(s[1..])
  }

  /** The concatenated text of a run sequence. */
  function Texts(runs: seq<Run>): string
  {
    if runs == [] then [] else runs[0].text + Texts(runs[1..])
  }

  /** `addRun`: emits the pending text as one run, or nothing when it is empty. */
  function Flush(pending: string, f: Flags, base: Style, codeStyle: Style): seq<Run>
  {
    if pending == [] then []
    else [Run(pending, f.bold, f.italic, f.code, if f.code then codeStyle else base)]
  }

  /**
   * The runs the scan produces from position `i` on, with `pending` text
   * not yet flushed and emphasis state `f`.
   */
  function Scan(text: string, i: nat, pending: string, f: Flags, base: Style, codeStyle: Style): seq<Run>
    requires i <= |text|
    decreases |text| - i
  {
    if i == |text| then Flush(pending, f, base, codeStyle)
    else if text[i] == '`' then
      Flush(pending, f, base, codeStyle) + Scan(text, i + 1, [], f.(code := !f.code), base, codeStyle)
    else if (text[i] == '*' || text[i] == '_') && i + 1 < |text| && text[i + 1] == text[i] then
      Flush(pending, f, base, codeStyle) + Scan(text, i + 2, [], f.(bold := !f.bold), base, codeStyle)
    else if text[i] == '*' || text[i] == '_' then
      Flush(pending, f, base, codeStyle) + Scan(text, i + 1, [], f.(italic := !f.italic), base, codeStyle)
    else
      Scan(text, i + 1, pending + [text[i]], f, base, codeStyle)
  }

  /** No run is empty, and a run takes the code style exactly inside a code span. */
  lemma {:induction false} ScanRuns(text: string, i: nat, pending: string, f: Flags, base: Style, codeStyle: Style)
    requires i <= |text|
    ensures forall r :: r in Scan(text, i, pending, f, base, codeStyle) ==>
              r.text != [] && r.style == if r.code then codeStyle else base
    decreases |text| - i
  {
    if i < |text| {
      if IsMarker(text[i]) {
        var (j, g) := MarkerStep(text, i, f);
        ScanAtMarker(text, i, pending, f, base, codeStyle);
        ScanRuns(text, j, [], g, base, codeStyle);
      } else {
        assert Scan(text, i, pending, f, base, codeStyle) == Scan(text, i + 1, pending + [text[i]], f, base, codeStyle);
        ScanRuns(text, i + 1, pending + [text[i]], f, base, codeStyle);
      }
    }
  }

  /** The runs `parseInlineStyles(text, base)` returns. */
  function InlineRuns(text: string, base: Style, codeStyle: Style): seq<Run>
  {
    Scan(text, 0, [], Plain, base, codeStyle)
  }

  lemma {:induction false} TextsAppend(a: seq<Run>, b: seq<Run>)
    ensures Texts(a + b) == Texts(a) + Texts(b)
  {
    if a != [] {
      assert (a + b)[0] == a[0];
      assert (a + b)[1..] == a[1..] + b;
      TextsAppend(a[1..], b);
    } else {
      assert a + b == b;
    }
  }

  lemma StripMarkersStep(s: string, i: nat)
    requires i < |s|
    ensures StripMarkers(s[i..]) ==
            (if IsMarker(s[i]) then [] else [s[i]]) + StripMarkers(s[i + 1..])
  {
    assert s[i..][1..] == s[i + 1..];
  }

  /** The step the scan takes at a marker: where it resumes and in which state. */
  function MarkerStep(text: string, i: nat, f: Flags): (next: (nat, Flags))
    requires i < |text| && IsMarker(text[i])
    ensures i < next.0 <= |text|
  {
    if text[i] == '`' then (i + 1, f.(code := !f.code))
    else if i + 1 < |text| && text[i + 1] == text[i] then (i + 2, f.(bold := !f.bold))
    else (i + 1, f.(italic := !f.italic))
  }

  lemma ScanAtMarker(text: string, i: nat, pending: string, f: Flags, base: Style, codeStyle: Style)
    requires i < |text| && IsMarker(text[i])
    ensures var (j, g) := MarkerStep(text, i, f);
            Scan(text, i, pending, f, base, codeStyle)
              == Flush(pending, f, base, codeStyle) + Scan(text, j, [], g, base, codeStyle)
            && StripMarkers(text[i..]) == StripMarkers(text[j..])
  {
    StripMarkersStep(text, i);
    if MarkerStep(text, i, f).0 == i + 2 {
      StripMarkersStep(text, i + 1);
    }
  }

  /**
   * No character is lost or reordered: the runs spell out the pending text
   * followed by the rest of the input with the marker characters removed.
   */
  lemma {:induction false} ScanSpellsText(text: string, i: nat, pending: string, f: Flags, base: Style, codeStyle: Style)
    requires i <= |text|
    ensures Texts(Scan(text, i, pending, f, base, codeStyle)) == pending + StripMarkers(text[i..])
    decreases |text| - i
  {
    if i == |text| {
      assert text[i..] == [];
      var fl := Flush(pending, f, base, codeStyle);
      if pending != [] { assert fl[1..] == []; }
    } else if IsMarker(text[i]) {
      var (j, g) := MarkerStep(text, i, f);
      var fl := Flush(pending, f, base, codeStyle);
      assert Texts(fl) == pending by {
        if pending != [] { assert fl[1..] == []; }
      }
      ScanAtMarker(text, i, pending, f, base, codeStyle);
      ScanSpellsText(text, j, [], g, base, codeStyle);
      TextsAppend(fl, Scan(text, j, [], g, base, codeStyle));
    } else {
      ScanSpellsText(text, i + 1, pending + [text[i]], f, base, codeStyle);
      StripMarkersStep(text, i);
    }
  }

  /** Plain characters only accumulate: the scan skips over a marker-free stretch without emitting anything. */
  lemma {:induction false} ScanAcrossPlain(text: string, i: nat, j: nat, pending: string, f: Flags, base: Style, codeStyle: Style)
    requires i <= j <= |text|
    requires forall k :: i <= k < j ==> !IsMarker(text[k])
    ensures Scan(text, i, pending, f, base, codeStyle) == Scan(text, j, pending + text[i..j], f, base, codeStyle)
    decreases j - i
  {
    if i < j {
      ScanAcrossPlain(text, i + 1, j, pending + [text[i]], f, base, codeStyle);
      assert pending + [text[i]] + text[i + 1..j] == pending + text[i..j];
    } else {
      assert pending + text[i..j] == pending;
    }
  }

  predicate IsPlain(w: string)
  {
    forall k :: 0 <= k < |w| ==> !IsMarker(w[k])
  }

  /** A marker followed by the plain word `w`: one flush, one toggle, then `w` accumulates. */
  lemma ScanSegment(text: string, i: nat, k: nat, w: string, pending: string, f: Flags, g: Flags, base: Style, codeStyle: Style)
    requires i < |text| && IsMarker(text[i])
    requires MarkerStep(text, i, f).1 == g
    requires MarkerStep(text, i, f).0 <= k <= |text|
    requires text[MarkerStep(text, i, f).0..k] == w && IsPlain(w)
    ensures Scan(text, i, pending, f, base, codeStyle)
              == Flush(pending, f, base, codeStyle) + Scan(text, k, w, g, base, codeStyle)
  {
    var j := MarkerStep(text, i, f).0;
    forall m | j <= m < k ensures !IsMarker(text[m]) {
      assert text[m] == w[m - j];
    }
    ScanAtMarker(text, i, pending, f, base, codeStyle);
    ScanAcrossPlain(text, j, k, [], g, base, codeStyle);
    assert [] + text[j..k] == text[j..k];
  }

  /** Over a span without marker characters the emphasis state never changes: one run, or none for empty text. */
  lemma {:induction false} ScanWithoutMarkers(text: string, i: nat, pending: string, f: Flags, base: Style, codeStyle: Style)
    requires i <= |text|
    requires forall k :: i <= k < |text| ==> !IsMarker(text[k])
    ensures Scan(text, i, pending, f, base, codeStyle) == Flush(pending + text[i..], f, base, codeStyle)
    decreases |text| - i
  {
    if i < |text| {
      ScanWithoutMarkers(text, i + 1, pending + [text[i]], f, base, codeStyle);
      assert pending + [text[i]] + text[i + 1..] == pending + text[i..];
    } else {
      assert pending + text[i..] == pending;
    }
  }

  /** At a marker the runs so far, the flush and the rest of the scan are one sequence, re-bracketed. */
  lemma MarkerStepDone(text: string, i: nat, runs: seq<Run>, pending: string, f: Flags, j: nat, g: Flags,
                       base: Style, codeStyle: Style)
    requires i < |text| && IsMarker(text[i]) && MarkerStep(text, i, f) == (j, g)
    ensures j <= |text|
    ensures runs + Scan(text, i, pending, f, base, codeStyle)
            == (runs + Flush(pending, f, base, codeStyle)) + Scan(text, j, [], g, base, codeStyle)
  {
    ScanAtMarker(text, i, pending, f, base, codeStyle);
    AppendAssoc(runs, Flush(pending, f, base, codeStyle), Scan(text, j, [], g, base, codeStyle));
  }

  /** Any other character joins the pending text. */
  lemma PlainStepDone(text: string, i: nat, runs: seq<Run>, pending: string, f: Flags, base: Style, codeStyle: Style)
    requires i < |text| && !IsMarker(text[i])
    ensures runs + Scan(text, i, pending, f, base, codeStyle) == runs + Scan(text, i + 1, pending + [text[i]], f, base, codeStyle)
  {
  }

  /**
   * `parseInlineStyles`: the character loop of the source. It returns the
   * runs of the functional scan, so by `InlineRunsShape` the runs spell the
   * input without its marker characters and none of them is empty.
   */
  method ParseInlineStyles(text: string, base: Style, codeStyle: Style) returns (runs: seq<Run>)
    ensures runs == InlineRuns(text, base, codeStyle)
  {
    runs := [];
    var currentText: string := [];
    var isBold, isItalic, isCode := false, false, false;
    var i := 0;
    while i < |text|
      invariant 0 <= i <= |text|
      invariant runs + Scan(text, i, currentText, Flags(isBold, isItalic, isCode), base, codeStyle)
                == InlineRuns(text, base, codeStyle)
    {
      var f := Flags(isBold, isItalic, isCode);
      if text[i] == '`' {
        MarkerStepDone(text, i, runs, currentText, f, i + 1, f.(code := !f.code), base, codeStyle);
        runs := runs + Flush(currentText, f, base, codeStyle);
        currentText := [];
        isCode := !isCode;
      } else if (text[i] == '*' || text[i] == '_') && i + 1 < |text| && text[i + 1] == text[i] {
        MarkerStepDone(text, i, runs, currentText, f, i + 2, f.(bold := !f.bold), base, codeStyle);
        runs := runs + Flush(currentText, f, base, codeStyle);
        currentText := [];
        isBold := !isBold;
        i := i + 1;
      } else if text[i] == '*' || text[i] == '_' {
        MarkerStepDone(text, i, runs, currentText, f, i + 1, f.(italic := !f.italic), base, codeStyle);
        runs := runs + Flush(currentText, f, base, codeStyle);
        currentText := [];
        isItalic := !isItalic;
      } else {
        PlainStepDone(text, i, runs, currentText, f, base, codeStyle);
        currentText := currentText + [text[i]];
      }
      i := i + 1;
    }
    runs := runs + Flush(currentText, Flags(isBold, isItalic, isCode), base, codeStyle);
  }

  /** The runs of a span spell the span without its markers, and none of them is empty. */
  lemma InlineRunsShape(text: string, base: Style, codeStyle: Style)
    ensures Texts(InlineRuns(text, base, codeStyle)) == StripMarkers(text)
    ensures forall r :: r in InlineRuns(text, base, codeStyle) ==>
              r.text != [] && r.style == if r.code then codeStyle else base
  {
    ScanSpellsText(text, 0, [], Plain, base, codeStyle);
    ScanRuns(text, 0, [], Plain, base, codeStyle);
    assert text[0..] == text;
  }

  /** The last three segments of the example: `*` closes the italic `c`, then the plain `d` and the code span `e`. */
  lemma EmphasisTail(t: string, c: string, d: string, e: string, p3: nat, p4: nat, p5: nat, base: Style, code: Style)
    requires c != [] && d != [] && e != [] && IsPlain(d) && IsPlain(e)
    requires p4 == p3 + 1 + |d| && p5 == p4 + 1 + |e| && |t| == p5 + 1
    requires t[p3 + 1..p4] == d && t[p4 + 1..p5] == e
    requires t[p3] == '*' && t[p4] == '`' && t[p5] == '`'
    ensures Scan(t, p3, c, Flags(false, true, false), base, code)
         == [Run(c, false, true, false, base), Run(d, false, false, false, base), Run(e, false, false, true, code)]
  {
    var C := Flags(false, false, true);
    assert t[p3 + 1] == d[0];
    var r5 := [Run(e, false, false, true, code)];
    ScanAtMarker(t, p5, e, C, base, code);
    assert Scan(t, p5 + 1, [], Plain, base, code) == [];
    assert Scan(t, p5, e, C, base, code) == r5;
    var r4 := [Run(d, false, false, false, base)] + r5;
    ScanSegment(t, p4, p5, e, d, Plain, C, base, code);
    assert Scan(t, p4, d, Plain, base, code) == r4;
    ScanSegment(t, p3, p4, d, c, Flags(false, true, false), Plain, base, code);
  }

  lemma EmphasisChain(t: string, a: string, b: string, c: string, d: string, e: string,
                      p1: nat, p2: nat, p3: nat, p4: nat, p5: nat, base: Style, code: Style)
    requires a != [] && b != [] && c != [] && d != [] && e != []
    requires IsPlain(a) && IsPlain(b) && IsPlain(c) && IsPlain(d) && IsPlain(e)
    requires p1 == 2 + |a| && p2 == p1 + 2 + |b| && p3 == p2 + 1 + |c| && p4 == p3 + 1 + |d|
    requires p5 == p4 + 1 + |e| && |t| == p5 + 1
    requires t[2..p1] == a && t[p1 + 2..p2] == b && t[p2 + 1..p3] == c && t[p3 + 1..p4] == d && t[p4 + 1..p5] == e
    requires t[0] == '*' && t[1] == '*' && t[p1] == '*' && t[p1 + 1] == '*'
    requires t[p2] == '*' && t[p3] == '*' && t[p4] == '`' && t[p5] == '`'
    ensures Scan(t, 0, [], Plain, base, code)
         == [Run(a, true, false, false, base), Run(b, false, false, false, base),
             Run(c, false, true, false, base), Run(d, false, false, false, base),
             Run(e, false, false, true, code)]
  {
    var B := Flags(true, false, false);
    var I := Flags(false, true, false);
    assert t[p2 + 1] == c[0];
    EmphasisTail(t, c, d, e, p3, p4, p5, base, code);
    var r3 := [Run(c, false, true, false, base), Run(d, false, false, false, base), Run(e, false, false, true, code)];
    var r2 := [Run(b, false, false, false, base)] + r3;
    ScanSegment(t, p2, p3, c, b, Plain, I, base, code);
    assert Scan(t, p2, b, Plain, base, code) == r2;
    var r1 := [Run(a, true, false, false, base)] + r2;
    ScanSegment(t, p1, p2, b, a, B, Plain, base, code);
    assert Scan(t, p1, a, B, base, code) == r1;
    ScanSegment(t, 0, p1, a, [], Plain, B, base, code);
    assert Scan(t, 0, [], Plain, base, code) == [] + r1;
  }

  /**
   * A worked example: `**a** b *c* d \`e\`` gives a bold run,
   * a plain run, an italic run, a plain run and a code run, in that order.
   */
  lemma EmphasisExample(a: string, b: string, c: string, d: string, e: string, base: Style, code: Style)
    requires a != [] && b != [] && c != [] && d != [] && e != []
    requires IsPlain(a) && IsPlain(b) && IsPlain(c) && IsPlain(d) && IsPlain(e)
    ensures InlineRuns("**" + a + "**" + b + "*" + c + "*" + d + "`" + e + "`", base, code)
         == [Run(a, true, false, false, base), Run(b, false, false, false, base),
             Run(c, false, true, false, base), Run(d, false, false, false, base),
             Run(e, false, false, true, code)]
  {
    var t := "**" + a + "**" + b + "*" + c + "*" + d + "`" + e + "`";
    var p1 := 2 + |a|;
    var p2 := p1 + 2 + |b|;
    var p3 := p2 + 1 + |c|;
    var p4 := p3 + 1 + |d|;
    var p5 := p4 + 1 + |e|;
    assert t[2..p1] == a;
    assert t[p1 + 2..p2] == b;
    assert t[p2 + 1..p3] == c;
    assert t[p3 + 1..p4] == d;
    assert t[p4 + 1..p5] == e;
    EmphasisChain(t, a, b, c, d, e, p1, p2, p3, p4, p5, base, code);
  }

  /** A marker left open at the end of the span keeps its state for the rest of the text, which is still flushed. */
  lemma UnterminatedBold(a: string, base: Style, codeStyle: Style)
    requires a != [] && IsPlain(a)
    ensures InlineRuns("**" + a, base, codeStyle) == [Run(a, true, false, false, base)]
  {
    var t := "**" + a;
    assert t[2..|t|] == a;
    ScanSegment(t, 0, |t|, a, [], Plain, Flags(true, false, false), base, codeStyle);
  }
}
