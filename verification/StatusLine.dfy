/** The two lines of the server list entry. Text is UTF-16 code units. */
module StatusLine {
  newtype Unit = x: int | 0 <= x < 0x10000

  const SECTION: Unit := 0xa7
  const ELLIPSIS: Unit := 0x2026
  const SPACE: Unit := 0x20
  const NEWLINE: Unit := 0x0a

  predicate High(c: Unit) {
    0xd800 <= c <= 0xdbff
  }

  predicate Low(c: Unit) {
    0xdc00 <= c <= 0xdfff
  }

  predicate Control(c: Unit) {
    c < 0x20 || c == 0x7f || c == 0x2028 || c == 0x2029
  }

  predicate Pair(text: seq<Unit>) {
    |text| >= 2 && High(text[0]) && Low(text[1])
  }

  // The shown characters: section signs go with the unit after them, controls become spaces,
  // lone surrogates disappear.
  function Glyphs(text: seq<Unit>): seq<seq<Unit>>
    decreases |text|
  {
    if text == [] then []
    else if text[0] == SECTION then Glyphs(if |text| > 1 then text[2..] else [])
    else if Control(text[0]) then [[SPACE]] + Glyphs(text[1..])
    else if Pair(text) then [text[..2]] + Glyphs(text[2..])
    else if High(text[0]) || Low(text[0]) then Glyphs(text[1..])
    else [[text[0]]] + Glyphs(text[1..])
  }

  function Advance(g: seq<Unit>): int
    requires g != []
  {
    if g[0] == SPACE then 4 else if g[0] < 0x80 then 6 else 9
  }

  // A character that can be shown as it is.
  predicate Glyph(g: seq<Unit>) {
    || (|g| == 1 && g[0] != SECTION && !Control(g[0]) && !High(g[0]) && !Low(g[0]))
    || (|g| == 2 && Pair(g))
  }

  predicate AllGlyphs(gs: seq<seq<Unit>>) {
    forall i :: 0 <= i < |gs| ==> Glyph(gs[i])
  }

  function Total(gs: seq<seq<Unit>>): (w: int)
    requires AllGlyphs(gs)
    ensures w >= 0
  {
    if gs == [] then 0 else Advance(gs[0]) + Total(gs[1..])
  }

  // As many characters as fit into the room, then an ellipsis if some did not.
  function Fit(gs: seq<seq<Unit>>, room: int): seq<seq<Unit>>
    requires AllGlyphs(gs)
  {
    if gs == [] then []
    else if Advance(gs[0]) > room then [[ELLIPSIS]]
    else [gs[0]] + Fit(gs[1..], room - Advance(gs[0]))
  }

  function Flat(gs: seq<seq<Unit>>): seq<Unit> {
    if gs == [] then [] else gs[0] + Flat(gs[1..])
  }

  lemma {:induction false} GlyphsAreGlyphs(text: seq<Unit>)
    ensures AllGlyphs(Glyphs(text))
    decreases |text|
  {
    if text != [] {
      if text[0] == SECTION {
        GlyphsAreGlyphs(if |text| > 1 then text[2..] else []);
      } else if Pair(text) {
        GlyphsAreGlyphs(text[2..]);
      } else {
        GlyphsAreGlyphs(text[1..]);
      }
    }
  }

  function Shown(text: seq<Unit>, maxWidth: int): seq<Unit> {
    GlyphsAreGlyphs(text);
    Flat(Fit(Glyphs(text), maxWidth - 9))
  }

  // ---------------------------------------------------------------- the loop

  // What is left to show of the text from i on.
  function Left(text: seq<Unit>, i: nat, room: int): seq<Unit>
    requires i <= |text|
  {
    GlyphsAreGlyphs(text[i..]);
    Flat(Fit(Glyphs(text[i..]), room))
  }

  predicate PairAt(text: seq<Unit>, i: nat) {
    i + 1 < |text| && High(text[i]) && Low(text[i + 1])
  }

  lemma LeftSkips(text: seq<Unit>, i: nat, room: int)
    requires i < |text| && !Control(text[i])
    ensures text[i] == SECTION ==>
              Left(text, i, room) == (if i + 1 < |text| then Left(text, i + 2, room) else [])
    ensures !PairAt(text, i) && (High(text[i]) || Low(text[i])) ==> Left(text, i, room) == Left(text, i + 1, room)
  {
    assert text[i..][1..] == text[i + 1..];
    if i + 1 < |text| {
      assert text[i..][2..] == text[i + 2..];
    } else if text[i] == SECTION {
      var none: seq<seq<Unit>> := [];
      assert Glyphs([]) == none;
      assert Glyphs(text[i..]) == none;
      assert Fit(none, room) == none && Flat(none) == [];
    }
  }

  lemma LeftShows(text: seq<Unit>, i: nat, room: int, g: seq<Unit>)
    requires i < |text| && text[i] != SECTION
    requires Control(text[i]) || PairAt(text, i) || (!High(text[i]) && !Low(text[i]))
    requires g == if Control(text[i]) then [SPACE] else if PairAt(text, i) then [text[i], text[i + 1]] else [text[i]]
    ensures Left(text, i, room) == if Advance(g) > room then [ELLIPSIS] else g + Left(text, i + |g|, room - Advance(g))
  {
    GlyphsAreGlyphs(text[i..]);
    GlyphsAreGlyphs(text[i + |g|..]);
    var rest := Glyphs(text[i + |g|..]);
    assert text[i..][1..] == text[i + 1..];
    if Pair(text[i..]) {
      assert text[i..][2..] == text[i + 2..];
      assert text[i..][..2] == [text[i], text[i + 1]];
    }
    assert Glyphs(text[i..]) == [g] + rest;
    assert ([g] + rest)[1..] == rest;
    if Advance(g) > room {
      assert [[ELLIPSIS]][1..] == [];
      assert Flat([[ELLIPSIS]]) == [ELLIPSIS] + Flat([]);
    } else {
      assert ([g] + Fit(rest, room - Advance(g)))[1..] == Fit(rest, room - Advance(g));
    }
  }

  lemma Regroup(a: seq<Unit>, b: seq<Unit>, c: seq<Unit>)
    ensures a + (b + c) == (a + b) + c
  {
  }

  method DisplayLine(text: seq<Unit>, maxWidth: int) returns (out: seq<Unit>)
    ensures out == Shown(text, maxWidth)
  {
    hide Glyphs, Fit, Flat, Left, Shown;
    out := [];
    var width := 0;
    var i := 0;
    LeftEnds(text, 0, maxWidth);
    while i < |text|
      invariant i <= |text| && out + Left(text, i, maxWidth - 9 - width) == Shown(text, maxWidth)
    {
      var c := text[i];
      ghost var room := maxWidth - 9 - width;
      if c == SECTION {
        LeftSkips(text, i, room);
        if i + 1 < |text| {
          i := i + 1;
        } else {
          LeftEnds(text, room, maxWidth);
        }
        i := i + 1;
        continue;
      }
      if c < 0x20 || c == 0x7f || c == 0x2028 || c == 0x2029 {
        c := SPACE;
      }
      var pair := 0xd800 <= c <= 0xdbff && i + 1 < |text| && 0xdc00 <= text[i + 1] <= 0xdfff;
      if !pair && 0xd800 <= c <= 0xdfff {
        LeftSkips(text, i, room);
        i := i + 1;
        continue;
      }
      var advance := if c == SPACE then 4 else if c < 0x80 then 6 else 9;
      ghost var g := if pair then [c, text[i + 1]] else [c];
      LeftShows(text, i, room, g);
      if width + advance > maxWidth - 9 {
        out := out + [ELLIPSIS];
        return;
      }
      ghost var before := out;
      out := out + [c];
      if pair {
        i := i + 1;
        out := out + [text[i]];
      }
      assert out == before + g;
      width := width + advance;
      i := i + 1;
      Regroup(before, g, Left(text, i, maxWidth - 9 - width));
    }
    LeftEnds(text, maxWidth - 9 - width, maxWidth);
  }

  lemma LeftEnds(text: seq<Unit>, room: int, maxWidth: int)
    ensures [] + Left(text, 0, maxWidth - 9) == Shown(text, maxWidth)
    ensures Left(text, |text|, room) == []
  {
    assert text[0..] == text;
  }

  // ---------------------------------------------------------------- what is shown

  lemma {:induction false} GlyphsOfFlat(gs: seq<seq<Unit>>)
    requires AllGlyphs(gs)
    ensures Glyphs(Flat(gs)) == gs
    decreases |gs|
  {
    if gs != [] {
      var g, rest := gs[0], Flat(gs[1..]);
      assert AllGlyphs(gs[1..]) by {
        forall i | 0 <= i < |gs| - 1 ensures Glyph(gs[1..][i]) {
          assert gs[1..][i] == gs[i + 1];
        }
      }
      GlyphsOfFlat(gs[1..]);
      GlyphFirst(g, rest);
      assert gs == [g] + gs[1..];
    }
  }

  lemma GlyphFirst(g: seq<Unit>, rest: seq<Unit>)
    requires Glyph(g)
    ensures Glyphs(g + rest) == [g] + Glyphs(rest)
  {
    var t := g + rest;
    if |g| == 1 {
      assert t[1..] == rest && !Pair(t);
      assert g == [t[0]];
    } else {
      assert t[2..] == rest && t[..2] == g && Pair(t);
    }
  }

  lemma {:induction false} FitGlyphs(gs: seq<seq<Unit>>, room: int)
    requires AllGlyphs(gs)
    ensures AllGlyphs(Fit(gs, room))
    decreases |gs|
  {
    if gs != [] && Advance(gs[0]) <= room {
      FitGlyphs(gs[1..], room - Advance(gs[0]));
    }
  }

  // Fit keeps everything if it fits, and otherwise the longest part that does.
  lemma {:induction false} FitIsLongest(gs: seq<seq<Unit>>, room: int) returns (n: nat)
    requires AllGlyphs(gs)
    ensures n <= |gs| && (n == |gs| <==> gs == [] || Total(gs) <= room)
    ensures n < |gs| ==> (n == 0 || Total(gs[..n]) <= room) && Total(gs[..n + 1]) > room
    ensures Fit(gs, room) == if n == |gs| then gs else gs[..n] + [[ELLIPSIS]]
    decreases |gs|
  {
    if gs == [] {
      n := 0;
    } else if Advance(gs[0]) > room {
      n := 0;
      assert gs[..1] == [gs[0]] && gs[..1][1..] == [];
    } else {
      var m := FitIsLongest(gs[1..], room - Advance(gs[0]));
      n := m + 1;
      assert gs == [gs[0]] + gs[1..];
      assert gs[..n] == [gs[0]] + gs[1..][..m];
      assert gs[..n][1..] == gs[1..][..m];
      if n < |gs| {
        assert gs[..n + 1][1..] == gs[1..][..m + 1];
      }
    }
  }

  lemma {:induction false} TotalAppend(gs: seq<seq<Unit>>, g: seq<Unit>)
    requires AllGlyphs(gs) && Glyph(g)
    ensures Total(gs + [g]) == Total(gs) + Advance(g)
    decreases |gs|
  {
    if gs == [] {
      assert [g][1..] == [];
    } else {
      assert (gs + [g])[1..] == gs[1..] + [g];
      TotalAppend(gs[1..], g);
    }
  }

  function Width(text: seq<Unit>): int {
    GlyphsAreGlyphs(text);
    Total(Glyphs(text))
  }

  // The line is never wider than asked for exactly when there is room for an ellipsis, or when
  // nothing is to be shown.
  lemma WidthBounded(text: seq<Unit>, maxWidth: int)
    ensures Width(Shown(text, maxWidth)) <= maxWidth <==> maxWidth >= 9 || (maxWidth >= 0 && Glyphs(text) == [])
  {
    hide Glyphs, Fit, Flat;
    var gs := Glyphs(text);
    GlyphsAreGlyphs(text);
    FitGlyphs(gs, maxWidth - 9);
    GlyphsOfFlat(Fit(gs, maxWidth - 9));
    var n := FitIsLongest(gs, maxWidth - 9);
    if n < |gs| {
      TotalAppend(gs[..n], [ELLIPSIS]);
      assert n == 0 ==> gs[..n] == [];
    }
  }

  // A concrete line that is too wide: an ellipsis takes 9, and 8 are left for one letter.
  lemma TooNarrow()
    ensures Width(Shown([0x61], 8)) > 8
  {
    var text: seq<Unit> := [0x61];
    assert text[1..] == [];
    assert Glyphs(text) == [[0x61]] + [];
    WidthBounded(text, 8);
  }

  // Formatting a formatted line changes nothing.
  lemma FixedPoint(text: seq<Unit>, maxWidth: int)
    ensures Shown(Shown(text, maxWidth), maxWidth) == Shown(text, maxWidth)
  {
    hide Glyphs, Fit, Flat;
    var gs := Glyphs(text);
    GlyphsAreGlyphs(text);
    FitGlyphs(gs, maxWidth - 9);
    GlyphsOfFlat(Fit(gs, maxWidth - 9));
    FitTwice(gs, maxWidth - 9);
  }

  lemma {:induction false} FitTwice(gs: seq<seq<Unit>>, room: int)
    requires AllGlyphs(gs)
    ensures AllGlyphs(Fit(gs, room)) && Fit(Fit(gs, room), room) == Fit(gs, room)
    decreases |gs|
  {
    FitGlyphs(gs, room);
    if gs != [] && Advance(gs[0]) <= room {
      FitTwice(gs[1..], room - Advance(gs[0]));
      var rest := Fit(gs[1..], room - Advance(gs[0]));
      assert ([gs[0]] + rest)[1..] == rest;
    }
  }

  // No section sign or control character, and every surrogate in a pair.
  predicate Clean(text: seq<Unit>) {
    && (forall i :: 0 <= i < |text| ==> text[i] != SECTION && !Control(text[i]))
    && (forall i :: 0 <= i < |text| && High(text[i]) ==> i + 1 < |text| && Low(text[i + 1]))
    && (forall i :: 0 <= i < |text| && Low(text[i]) ==> i > 0 && High(text[i - 1]))
  }

  lemma CleanConcat(a: seq<Unit>, b: seq<Unit>)
    requires Clean(a) && Clean(b)
    ensures Clean(a + b)
  {
    var t := a + b;
    forall i | 0 <= i < |t| && High(t[i]) ensures i + 1 < |t| && Low(t[i + 1]) {
      if i >= |a| {
        assert b[i - |a|] == t[i];
      } else {
        assert a[i] == t[i] && a[i + 1] == t[i + 1];
      }
    }
    forall i | 0 <= i < |t| && Low(t[i]) ensures i > 0 && High(t[i - 1]) {
      if i >= |a| {
        assert b[i - |a|] == t[i] && b[i - |a| - 1] == t[i - 1];
      } else {
        assert a[i] == t[i];
      }
    }
  }

  lemma {:induction false} FlatClean(gs: seq<seq<Unit>>)
    requires AllGlyphs(gs)
    ensures Clean(Flat(gs))
    decreases |gs|
  {
    hide Clean;
    if gs == [] {
      GlyphClean([]);
    } else {
      assert Glyph(gs[0]);
      assert AllGlyphs(gs[1..]) by {
        forall i | 0 <= i < |gs| - 1 ensures Glyph(gs[1..][i]) {
          assert gs[1..][i] == gs[i + 1];
        }
      }
      FlatClean(gs[1..]);
      GlyphClean(gs[0]);
      CleanConcat(gs[0], Flat(gs[1..]));
    }
  }

  lemma GlyphClean(g: seq<Unit>)
    requires g == [] || Glyph(g)
    ensures Clean(g)
  {
  }

  lemma ShownIsClean(text: seq<Unit>, maxWidth: int)
    ensures Clean(Shown(text, maxWidth)) && NEWLINE !in Shown(text, maxWidth)
  {
    GlyphsAreGlyphs(text);
    FitGlyphs(Glyphs(text), maxWidth - 9);
    FlatClean(Fit(Glyphs(text), maxWidth - 9));
  }

  // ---------------------------------------------------------------- what becomes of each character

  lemma CleanHead(text: seq<Unit>)
    requires Clean(text) && text != []
    ensures var n := if Pair(text) then 2 else 1;
            && Glyph(text[..n]) && Clean(text[n..]) && text == text[..n] + text[n..]
  {
    var n := if Pair(text) then 2 else 1;
    var rest := text[n..];
    assert text[0] == text[..n][0];
    forall i | 0 <= i < |rest|
      ensures rest[i] != SECTION && !Control(rest[i])
      ensures High(rest[i]) ==> i + 1 < |rest| && Low(rest[i + 1])
      ensures Low(rest[i]) ==> i > 0 && High(rest[i - 1])
    {
      assert rest[i] == text[i + n];
      if High(rest[i]) {
        assert Low(text[i + n + 1]);
      }
    }
  }

  // A clean text is shown character by character, whatever follows it.
  lemma {:induction false} CleanIsShown(text: seq<Unit>, rest: seq<Unit>)
    requires Clean(text)
    ensures Glyphs(text + rest) == Glyphs(text) + Glyphs(rest) && Flat(Glyphs(text)) == text
    decreases |text|
  {
    hide Clean, Glyphs;
    if text == [] {
      NoGlyphs();
      assert text + rest == rest;
    } else {
      CleanHead(text);
      var n := if Pair(text) then 2 else 1;
      var g, tail := text[..n], text[n..];
      CleanIsShown(tail, rest);
      GlyphFirst(g, tail);
      GlyphFirst(g, tail + rest);
      assert g + (tail + rest) == text + rest;
      assert ([g] + Glyphs(tail))[1..] == Glyphs(tail);
    }
  }

  lemma NoGlyphs()
    ensures Glyphs([]) == [] && Flat([]) == []
  {
  }

  // What does not change the characters does not change the line.
  lemma SameGlyphs(a: seq<Unit>, b: seq<Unit>, maxWidth: int)
    requires Glyphs(a) == Glyphs(b)
    ensures Shown(a, maxWidth) == Shown(b, maxWidth)
  {
    hide Glyphs, Fit, Flat;
  }

  // After a clean part, a section sign disappears with the unit behind it, a control character is a
  // space, and a lone surrogate disappears.
  lemma Replaced(text: seq<Unit>, c: Unit, rest: seq<Unit>, maxWidth: int)
    requires Clean(text)
    ensures Shown(text + ([0xa7, c] + rest), maxWidth) == Shown(text + rest, maxWidth)
    ensures Shown(text + [0xa7], maxWidth) == Shown(text, maxWidth)
    ensures c < 0x20 || c == 0x7f || c == 0x2028 || c == 0x2029 ==>
              Shown(text + ([c] + rest), maxWidth) == Shown(text + ([0x20] + rest), maxWidth)
    ensures 0xd800 <= c <= 0xdfff && !Pair([c] + rest) ==>
              Shown(text + ([c] + rest), maxWidth) == Shown(text + rest, maxWidth)
  {
    hide Clean, Shown;
    var code, one, space := [0xa7, c] + rest, [c] + rest, [0x20] + rest;
    assert code[2..] == rest && one[1..] == rest && space[1..] == rest;
    CleanIsShown(text, code);
    CleanIsShown(text, one);
    CleanIsShown(text, space);
    CleanIsShown(text, rest);
    CleanIsShown(text, [0xa7]);
    SectionLast();
    SameGlyphs(text + code, text + rest, maxWidth);
    assert Glyphs(text) + [] == Glyphs(text);
    SameGlyphs(text + [0xa7], text, maxWidth);
    if c < 0x20 || c == 0x7f || c == 0x2028 || c == 0x2029 {
      SameGlyphs(text + one, text + space, maxWidth);
    } else if 0xd800 <= c <= 0xdfff && !Pair(one) {
      SameGlyphs(text + one, text + rest, maxWidth);
    }
  }

  lemma SectionLast()
    ensures Glyphs([0xa7]) == []
  {
  }

  // A clean text with room for an ellipsis behind it is shown as it is.
  lemma CleanFits(text: seq<Unit>, maxWidth: int)
    requires Clean(text) && Width(text) <= maxWidth - 9
    ensures Shown(text, maxWidth) == text
  {
    hide Glyphs, Fit, Flat, Clean;
    CleanIsShown(text, []);
    GlyphsAreGlyphs(text);
    var n := FitIsLongest(Glyphs(text), maxWidth - 9);
  }

  // How many units of the text are in a range.
  function Units(text: seq<Unit>, from: Unit, to: Unit): nat {
    if text == [] then 0 else (if from <= text[0] <= to then 1 else 0) + Units(text[1..], from, to)
  }

  // What a clean text takes: 4 for a space, 6 for another ASCII character, 9 for any other, where a
  // pair is one character.
  lemma {:induction false} WidthIs(text: seq<Unit>)
    requires Clean(text)
    ensures Width(text) == 4 * Units(text, 0x20, 0x20) + 6 * Units(text, 0x21, 0x7f)
                           + 9 * (Units(text, 0x80, 0xffff) - Units(text, 0xdc00, 0xdfff))
    decreases |text|
  {
    hide Clean, Glyphs;
    if text == [] {
      NoGlyphs();
    } else {
      CleanHead(text);
      var n := if Pair(text) then 2 else 1;
      WidthIs(text[n..]);
      WidthFirst(text[..n], text[n..]);
      UnitsFirst(text, n, 0x20, 0x20);
      UnitsFirst(text, n, 0x21, 0x7f);
      UnitsFirst(text, n, 0x80, 0xffff);
      UnitsFirst(text, n, 0xdc00, 0xdfff);
    }
  }

  lemma WidthFirst(g: seq<Unit>, tail: seq<Unit>)
    requires Glyph(g)
    ensures Width(g + tail) == Advance(g) + Width(tail)
  {
    hide Glyphs;
    GlyphFirst(g, tail);
    assert ([g] + Glyphs(tail))[1..] == Glyphs(tail);
  }

  lemma UnitsFirst(text: seq<Unit>, n: nat, from: Unit, to: Unit)
    requires 1 <= n <= 2 && n <= |text|
    ensures Units(text, from, to) == Units(text[..n], from, to) + Units(text[n..], from, to)
    ensures Units(text[..n], from, to) == (if from <= text[0] <= to then 1 else 0)
                                          + (if n == 2 && from <= text[1] <= to then 1 else 0)
  {
    var one := [text[n - 1]];
    assert one[1..] == [] && Units(one, from, to) == (if from <= text[n - 1] <= to then 1 else 0);
    if n == 1 {
      assert text[..1] == one;
    } else {
      assert text[..2][1..] == one && text[1..][1..] == text[2..];
      assert Units(text[1..], from, to) == Units(one, from, to) + Units(text[2..], from, to);
    }
  }

  // ---------------------------------------------------------------- the two lines

  const TITLE_WIDTH := 135
  const DETAIL_WIDTH := 240

  // "Sakura Tools" and an arrow between colour codes.
  const PREFIX: seq<Unit> := [
    SECTION, 0x64, SECTION, 0x6c, 0x53, 0x61, 0x6b, 0x75, 0x72, 0x61, 0x20, 0x54, 0x6f, 0x6f, 0x6c, 0x73, 0x20,
    SECTION, 0x72, SECTION, 0x38, 0x2192, 0x20, SECTION, 0x66]
  // What the lines say before A has joined a server.
  const NO_TITLE: seq<Unit> := [0x5f85, 0x8fde, 0x63a5]
  const NO_DETAIL: seq<Unit> := [0x7b49, 0x5f85, 0x20, 0x41, 0x20, 0x8fde, 0x63a5, 0x670d, 0x52a1, 0x5668]

  function Title(serverName: seq<Unit>, serverAddress: seq<Unit>): seq<Unit> {
    var title := Shown(if serverName == [] then serverAddress else serverName, TITLE_WIDTH);
    if title == [] then NO_TITLE else title
  }

  function Detail(serverAddress: seq<Unit>): seq<Unit> {
    if serverAddress == [] then NO_DETAIL else Shown(serverAddress, DETAIL_WIDTH)
  }

  method FormatServerMotd(serverName: seq<Unit>, serverAddress: seq<Unit>) returns (motd: seq<Unit>)
    ensures motd == PREFIX + Title(serverName, serverAddress) + [NEWLINE, SECTION, 0x37] + Detail(serverAddress)
            + [SECTION, 0x72]
    ensures multiset(motd)[NEWLINE] == 1
  {
    var title := DisplayLine(if serverName == [] then serverAddress else serverName, TITLE_WIDTH);
    if title == [] {
      title := NO_TITLE;
    }
    var detail := NO_DETAIL;
    if serverAddress != [] {
      detail := DisplayLine(serverAddress, DETAIL_WIDTH);
    }
    motd := PREFIX + title + [NEWLINE, SECTION, 0x37] + detail + [SECTION, 0x72];
    TwoLines(serverName, serverAddress);
  }

  lemma CountNewlines(a: seq<Unit>, b: seq<Unit>, c: seq<Unit>)
    requires NEWLINE !in a && NEWLINE !in b && NEWLINE !in c
    ensures multiset(a + b + [NEWLINE, SECTION, 0x37] + c + [SECTION, 0x72])[NEWLINE] == 1
  {
    assert multiset(a)[NEWLINE] == multiset(b)[NEWLINE] == multiset(c)[NEWLINE] == 0;
  }

  lemma FixedTexts()
    ensures NEWLINE !in PREFIX && NEWLINE !in NO_TITLE && NEWLINE !in NO_DETAIL
    ensures |NO_TITLE| == 3 && |NO_DETAIL| == 10
  {
  }

  lemma {:induction false} WidthAtMost(text: seq<Unit>)
    ensures Width(text) <= 9 * |text|
    decreases |text|
  {
    GlyphsAreGlyphs(text);
    GlyphCount(text);
    TotalAtMost(Glyphs(text));
  }

  lemma {:induction false} GlyphCount(text: seq<Unit>)
    ensures |Glyphs(text)| <= |text|
    decreases |text|
  {
    if text != [] {
      if text[0] == SECTION {
        GlyphCount(if |text| > 1 then text[2..] else []);
      } else if Pair(text) {
        GlyphCount(text[2..]);
      } else {
        GlyphCount(text[1..]);
      }
    }
  }

  lemma {:induction false} TotalAtMost(gs: seq<seq<Unit>>)
    requires AllGlyphs(gs)
    ensures Total(gs) <= 9 * |gs|
    decreases |gs|
  {
    if gs != [] {
      TotalAtMost(gs[1..]);
    }
  }

  // Each line fits its width, and the entry has exactly two lines whatever the server's name and
  // address contain.
  lemma TwoLines(serverName: seq<Unit>, serverAddress: seq<Unit>)
    ensures var title, detail := Title(serverName, serverAddress), Detail(serverAddress);
            && Width(title) <= TITLE_WIDTH && Width(detail) <= DETAIL_WIDTH
            && multiset(PREFIX + title + [NEWLINE, SECTION, 0x37] + detail + [SECTION, 0x72])[NEWLINE] == 1
  {
    hide Shown, Width, Clean, PREFIX, NO_TITLE, NO_DETAIL;
    var title, detail := Title(serverName, serverAddress), Detail(serverAddress);
    var source := if serverName == [] then serverAddress else serverName;
    FixedTexts();
    WidthAtMost(NO_TITLE);
    WidthAtMost(NO_DETAIL);
    ShownIsClean(source, TITLE_WIDTH);
    WidthBounded(source, TITLE_WIDTH);
    ShownIsClean(serverAddress, DETAIL_WIDTH);
    WidthBounded(serverAddress, DETAIL_WIDTH);
    CountNewlines(PREFIX, title, detail);
  }

  // A clean name of a server, or its address when it has no name, is the first line as it is, and a
  // clean address the second one. Without them the lines say that A has not joined yet.
  lemma CleanLines(serverName: seq<Unit>, serverAddress: seq<Unit>)
    ensures serverName != [] && Clean(serverName) && Width(serverName) <= 126 ==>
              Title(serverName, serverAddress) == serverName
    ensures serverAddress != [] && Clean(serverAddress) && Width(serverAddress) <= 126 ==>
              Title([], serverAddress) == serverAddress
    ensures serverAddress != [] && Clean(serverAddress) && Width(serverAddress) <= 231 ==>
              Detail(serverAddress) == serverAddress
    ensures Title([], []) == [0x5f85, 0x8fde, 0x63a5]
    ensures Detail([]) == [0x7b49, 0x5f85, 0x20, 0x41, 0x20, 0x8fde, 0x63a5, 0x670d, 0x52a1, 0x5668]
  {
    hide Shown, Clean, Width;
    if serverName != [] && Clean(serverName) && Width(serverName) <= 126 {
      CleanFits(serverName, 135);
    }
    if serverAddress != [] && Clean(serverAddress) {
      if Width(serverAddress) <= 126 {
        CleanFits(serverAddress, 135);
      }
      if Width(serverAddress) <= 231 {
        CleanFits(serverAddress, 240);
      }
    }
    NoneShown();
  }

  lemma NoneShown()
    ensures Shown([], 135) == []
  {
  }
}
