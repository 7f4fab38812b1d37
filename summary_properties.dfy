// What the summary formatter promises about its output: already formatted text passes
// through (so formatting twice changes nothing), the card carries its title heading once,
// at most one list opener is emitted, list runs are closed, and a diagnosis section
// folds its body into one bold paragraph.
module SummaryProperties {
  import opened Strings
  import opened SummaryFormatter

  // ------------------------------------------------------ prefix extension

  lemma AppendAssoc(a: string, b: string, c: string)
    ensures a + b + c == a + (b + c)
  {
  }

  lemma PrefixBy(x: string, d: string)
    ensures StartsWith(x + d, x)
  {
    assert (x + d)[..|x|] == x;
  }

  lemma PrefixTrans(x: string, y: string, z: string)
    requires StartsWith(y, x) && StartsWith(z, y)
    ensures StartsWith(z, x)
  {
    assert z[..|x|] == z[..|y|][..|x|];
  }

  lemma {:induction false} ListItemPrefix(html: string, text: string, last: bool)
    ensures StartsWith(ListItemHtml(html, text, last), html)
  {
    var d := (if Contains(html, ListOpen) then "" else ListOpen) + Item(text) + (if last then ListClose else "");
    assert ListItemHtml(html, text, last) == html + d;
    PrefixBy(html, d);
  }

  lemma {:induction false} BodyStepPrefix(lines: seq<string>, i: nat, st: Fmt, line: string)
    requires i < |lines|
    ensures StartsWith(BodyStep(lines, i, st, line).html, st.html)
  {
    if IsBullet(line) {
      ListItemPrefix(st.html, Trim(line[1..], Js), i + 1 >= |lines| || !IsBullet(lines[i + 1]));
    } else if st.section != "" {
      ListItemPrefix(st.html, Trim(line, Js), i + 1 >= |lines| || !IsListLike(lines[i + 1]));
      PrefixBy(st.html, Para(line));
    } else {
      PrefixBy(st.html, "");
      assert st.html + "" == st.html;
    }
  }

  lemma {:induction false} OpenSectionPrefix(lines: seq<string>, i: nat, st: Fmt, name: string, sections: seq<string>)
    requires i < |lines|
    ensures StartsWith(OpenSection(lines, i, st, name, sections).1.html, st.html)
  {
    var head := SectionOpen + Heading(name);
    AppendAssoc(st.html, SectionOpen, Heading(name));
    if IsDiagnosisSection(name) {
      var k := NextHeader(lines, i + 1, sections);
      var b := Bold(Trim(Gathered(lines, i + 1, k), Js));
      AppendAssoc(st.html, head, b);
      PrefixBy(st.html, head + b);
    } else {
      PrefixBy(st.html, head);
    }
  }

  lemma {:induction false} HeaderStepPrefix(lines: seq<string>, i: nat, st: Fmt, line: string, sections: seq<string>)
    requires i < |lines|
    ensures StartsWith(HeaderStep(lines, i, st, line, sections).1.html, st.html)
  {
    var closed := if st.section != "" && st.added then st.(html := st.html + DivClose) else st;
    PrefixBy(st.html, DivClose);
    PrefixBy(st.html, "");
    assert st.html + "" == st.html;
    OpenSectionPrefix(lines, i, closed, SectionName(line), sections);
    PrefixTrans(st.html, closed.html, OpenSection(lines, i, closed, SectionName(line), sections).1.html);
  }

  /** One iteration of the loop only appends to the HTML. */
  lemma {:induction false} StepPrefix(lines: seq<string>, i: nat, st: Fmt, sections: seq<string>)
    requires i < |lines|
    ensures StartsWith(Step(lines, i, st, sections).1.html, st.html)
  {
    var line := Trim(lines[i], Js);
    if line == "" || Lower(line) == TitleWords {
      PrefixBy(st.html, "");
      assert st.html + "" == st.html;
    } else if IsSectionHeader(line, sections) {
      HeaderStepPrefix(lines, i, st, line, sections);
    } else {
      BodyStepPrefix(lines, i, st, line);
    }
  }

  lemma {:induction false} RunPrefix(lines: seq<string>, i: nat, st: Fmt, sections: seq<string>)
    requires i <= |lines|
    ensures StartsWith(Run(lines, i, st, sections).html, st.html)
    decreases |lines| - i
  {
    if i == |lines| {
      PrefixBy(st.html, "");
      assert st.html + "" == st.html;
    } else {
      var next := Step(lines, i, st, sections);
      StepPrefix(lines, i, st, sections);
      RunPrefix(lines, next.0, next.1, sections);
      PrefixTrans(st.html, next.1.html, Run(lines, next.0, next.1, sections).html);
    }
  }

  /** The card starts with the starting HTML and ends with the card's closing tag. */
  lemma {:induction false} CardPrefix(lines: seq<string>, st0: Fmt, sections: seq<string>)
    ensures StartsWith(Card(lines, st0, sections), st0.html) && EndsWith(Card(lines, st0, sections), DivClose)
  {
    var st := Run(lines, 0, st0, sections);
    RunPrefix(lines, 0, st0, sections);
    var closers := (if st.section != "" && st.added then DivClose else "") + DivClose;
    assert Card(lines, st0, sections) == st.html + closers;
    PrefixBy(st.html, closers);
    PrefixTrans(st0.html, st.html, st.html + closers);
  }

  /** Every formatted output opens the diagnosis card. */
  lemma {:induction false} FormatOpensCard(text: string)
    requires !Contains(text, "<div") && !Contains(text, "<h")
    ensures StartsWith(Format(text), CardOpen + Title) && EndsWith(Format(text), DivClose)
  {
    CardPrefix(SummaryLines(text), Start, Sections);
  }

  /** Output of the formatter is always passed through by the formatter: a formatted
    * summary is either the input itself, which holds a marker, or a card, which starts
    * with "<div". */
  lemma {:induction false} FormatOutputIsMarked(text: string)
    ensures Contains(Format(text), "<div") || Contains(Format(text), "<h")
  {
    if !Contains(text, "<div") && !Contains(text, "<h") {
      FormatOpensCard(text);
      CardStartsWithDiv();
      PrefixTrans("<div", CardOpen + Title, Format(text));
      StartsWithContains(Format(text), "<div");
    }
  }

  lemma CardStartsWithDiv()
    ensures StartsWith(CardOpen + Title, "<div")
  {
    assert (CardOpen + Title)[..4] == CardOpen[..4];
  }

  /** Formatting is idempotent. */
  lemma {:induction false} FormatIdempotent(text: string)
    ensures Format(Format(text)) == Format(text)
  {
    FormatOutputIsMarked(text);
  }

  // ------------------------------------------------------- the title tag

  /** `s` holds no opening `<h3` tag. */
  predicate NoTitleTag(s: string)
  {
    !Contains(s, "<h3")
  }

  lemma NoTagEmpty()
    ensures NoTitleTag("")
  {
  }

  /** Text appended by the formatter: empty, or a run of tags and text that starts
    * with '<', ends with '>' and opens no `<h3`. */
  predicate Piece(d: string)
  {
    d == [] || (d[0] == '<' && d[|d| - 1] == '>' && NoTitleTag(d))
  }

  /** A `<h3` in a concatenation lies in one of the halves unless the seam splits it. */
  lemma {:induction false} JoinNoTag(a: string, b: string)
    requires NoTitleTag(a) && NoTitleTag(b)
    requires a == [] || b == [] || (a[|a| - 1] != '<' && a[|a| - 1] != 'h') || (b[0] != 'h' && b[0] != '3')
    ensures NoTitleTag(a + b)
  {
    var s := a + b;
    forall p | 0 <= p <= |s| - 3 ensures !ContainsAt(s, "<h3", p) {
      var w := s[p..p + 3];
      if p + 3 <= |a| {
        assert w == a[p..p + 3];
        assert !ContainsAt(a, "<h3", p);
      } else if p >= |a| {
        assert w == b[p - |a|..p - |a| + 3];
        assert !ContainsAt(b, "<h3", p - |a|);
      } else {
        assert w[0] == s[p] && w[1] == s[p + 1] && w[2] == s[p + 2];
        if p == |a| - 1 {
          assert s[p] == a[|a| - 1] && s[p + 1] == b[0];
        } else {
          assert s[p + 1] == a[|a| - 1] && s[p + 2] == b[0];
        }
      }
    }
  }

  lemma {:induction false} JoinPiece(d1: string, d2: string)
    requires Piece(d1) && Piece(d2)
    ensures Piece(d1 + d2)
  {
    if d1 == [] {
      assert d1 + d2 == d2;
    } else if d2 == [] {
      assert d1 + d2 == d1;
    } else {
      JoinNoTag(d1, d2);
    }
  }

  /** Text between a tag that closes with '>' and one that opens with '<'. */
  lemma {:induction false} WrapPiece(o: string, x: string, c: string)
    requires o != [] && Piece(o) && c != [] && Piece(c) && NoTitleTag(x)
    ensures Piece(o + x + c)
  {
    JoinNoTag(o, x);
    JoinNoTag(o + x, c);
    assert (o + x + c)[0] == o[0];
  }

  lemma LiteralPiece(s: string)
    requires |s| >= 2 && s[0] == '<' && s[|s| - 1] == '>' && '3' !in s
    ensures Piece(s)
  {
    NotContainsByChar(s, "<h3", '3');
  }

  lemma TemplatePieces()
    ensures Piece(SectionOpen) && Piece(ListOpen) && Piece(ListClose) && Piece(DivClose)
  {
    SectionOpenPiece();
    ListOpenPiece();
    LiteralPiece(ListClose);
    LiteralPiece(DivClose);
  }

  lemma SectionOpenPiece()
    ensures Piece(SectionOpen)
  {
    LiteralPiece(SectionOpen);
  }

  lemma ListOpenPiece()
    ensures Piece(ListOpen)
  {
    LiteralPiece(ListOpen);
  }

  lemma ItemPiece(x: string)
    requires NoTitleTag(x)
    ensures Piece(Item(x))
  {
    LiteralPiece("<li>");
    LiteralPiece("</li>");
    WrapPiece("<li>", x, "</li>");
  }

  lemma ParaPiece(x: string)
    requires NoTitleTag(x)
    ensures Piece(Para(x))
  {
    LiteralPiece("<p>");
    LiteralPiece("</p>");
    WrapPiece("<p>", x, "</p>");
  }

  lemma BoldPiece(x: string)
    requires NoTitleTag(x)
    ensures Piece(Bold(x))
  {
    LiteralPiece("<p><strong>");
    LiteralPiece("</strong></p>");
    WrapPiece("<p><strong>", x, "</strong></p>");
  }

  /** A heading upper-cases the name, so no 'h' of the name survives into it. */
  lemma HeadingPiece(name: string)
    ensures Piece(Heading(name))
  {
    var u := Upper(name);
    forall i | 0 <= i < |u| ensures u[i] != 'h' {
      UpperHasNoLowerLetter(name, i);
    }
    NotContainsByChar(u, "<h3", 'h');
    LiteralPiece("<h4 class=\"diagnosis-header\">");
    LiteralPiece("</h4>");
    WrapPiece("<h4 class=\"diagnosis-header\">", u, "</h4>");
  }

  lemma {:induction false} SliceNoTag(s: string, a: int, b: int)
    requires 0 <= a <= b <= |s| && NoTitleTag(s)
    ensures NoTitleTag(s[a..b])
  {
    if Contains(s[a..b], "<h3") {
      ContainsInSlice(s, a, b, "<h3");
    }
  }

  lemma {:induction false} TrimNoTag(s: string)
    requires NoTitleTag(s)
    ensures NoTitleTag(Trim(s, Js))
  {
    TrimIsSlice(s, Js);
    SliceNoTag(s, LeadingBlank(s, Js), LeadingBlank(s, Js) + |Trim(s, Js)|);
  }

  /** Every line is free of `<h3`. */
  predicate LinesOk(lines: seq<string>)
  {
    forall k | 0 <= k < |lines| :: NoTitleTag(lines[k])
  }

  /** The trimmed lines, in order. */
  function Trimmed(ls: seq<string>): (r: seq<string>)
    ensures |r| == |ls|
    ensures forall m | 0 <= m < |ls| :: r[m] == Trim(ls[m], Js)
  {
    seq(|ls|, m requires 0 <= m < |ls| => Trim(ls[m], Js))
  }

  /** The gathered text is the trimmed lines joined by single spaces, plus one space. */
  lemma {:induction false} TrimmedSnoc(lines: seq<string>, j: nat, k: nat)
    requires j < k <= |lines|
    ensures Trimmed(lines[j..k]) == Trimmed(lines[j..k - 1]) + [Trim(lines[k - 1], Js)]
  {
    var whole := Trimmed(lines[j..k]);
    var shorter := Trimmed(lines[j..k - 1]);
    forall m | 0 <= m < |shorter| ensures whole[m] == shorter[m] {
      assert lines[j..k][m] == lines[j..k - 1][m];
    }
    assert whole[|shorter|] == Trim(lines[k - 1], Js);
  }

  lemma {:induction false} GatheredIsJoin(lines: seq<string>, j: nat, k: nat)
    requires j < k <= |lines|
    ensures Gathered(lines, j, k) == Join(Trimmed(lines[j..k]), " ") + " "
    decreases k - j
  {
    TrimmedSnoc(lines, j, k);
    if k - 1 == j {
      assert Trimmed(lines[j..k - 1]) == [];
      assert Gathered(lines, j, j) == "";
    } else {
      GatheredIsJoin(lines, j, k - 1);
      JoinSnoc(Trimmed(lines[j..k - 1]), Trim(lines[k - 1], Js), " ");
    }
  }

  lemma {:induction false} LinesOkSlice(lines: seq<string>, a: nat, b: nat)
    requires a <= b <= |lines| && LinesOk(lines)
    ensures LinesOk(lines[a..b])
  {
    forall m | 0 <= m < b - a ensures NoTitleTag(lines[a..b][m]) {
      assert lines[a..b][m] == lines[a + m];
    }
  }

  lemma {:induction false} TrimmedNoTag(ls: seq<string>)
    requires LinesOk(ls)
    ensures LinesOk(Trimmed(ls))
  {
    forall m | 0 <= m < |ls| ensures NoTitleTag(Trimmed(ls)[m]) {
      TrimNoTag(ls[m]);
    }
  }

  /** Joining tag-free parts with single spaces gives tag-free text. */
  lemma {:induction false} JoinSpacedNoTag(parts: seq<string>)
    requires LinesOk(parts)
    ensures NoTitleTag(Join(parts, " "))
    decreases |parts|
  {
    if |parts| > 1 {
      LinesOkSlice(parts, 1, |parts|);
      JoinSpacedNoTag(parts[1..]);
      NotContainsByChar(" ", "<h3", '<');
      JoinNoTag(" ", Join(parts[1..], " "));
      JoinNoTag(parts[0], " " + Join(parts[1..], " "));
      AppendAssoc(parts[0], " ", Join(parts[1..], " "));
    } else if |parts| == 1 {
      assert parts[0] == Join(parts, " ");
    } else {
      NoTagEmpty();
    }
  }

  /** The text gathered over a diagnosis body holds no `<h3`. */
  lemma {:induction false} GatheredNoTag(lines: seq<string>, j: nat, k: nat)
    requires j <= k <= |lines| && LinesOk(lines)
    ensures NoTitleTag(Gathered(lines, j, k))
  {
    if j < k {
      GatheredIsJoin(lines, j, k);
      LinesOkSlice(lines, j, k);
      TrimmedNoTag(lines[j..k]);
      var body := Join(Trimmed(lines[j..k]), " ");
      JoinSpacedNoTag(Trimmed(lines[j..k]));
      NotContainsByChar(" ", "<h3", '<');
      JoinNoTag(body, " ");
    } else {
      NoTagEmpty();
    }
  }

  /** `y` is `x` followed by a piece. */
  predicate Extends(x: string, y: string)
  {
    StartsWith(y, x) && Piece(y[|x|..])
  }

  lemma ExtendsBy(x: string, d: string)
    requires Piece(d)
    ensures Extends(x, x + d)
  {
    assert (x + d)[..|x|] == x;
    assert (x + d)[|x|..] == d;
  }

  lemma {:induction false} ExtendsTrans(x: string, y: string, z: string)
    requires Extends(x, y) && Extends(y, z)
    ensures Extends(x, z)
  {
    PrefixTrans(x, y, z);
    assert z[|x|..] == y[|x|..] + z[|y|..] by {
      assert z == z[..|y|] + z[|y|..];
      assert y == y[..|x|] + y[|x|..];
    }
    JoinPiece(y[|x|..], z[|y|..]);
  }

  lemma {:induction false} ListItemPiece(html: string, text: string, last: bool)
    requires NoTitleTag(text)
    ensures Extends(html, ListItemHtml(html, text, last))
  {
    TemplatePieces();
    ItemPiece(text);
    var o := if Contains(html, ListOpen) then "" else ListOpen;
    var c := if last then ListClose else "";
    JoinPiece(o, Item(text));
    JoinPiece(o + Item(text), c);
    assert ListItemHtml(html, text, last) == html + (o + Item(text) + c);
    ExtendsBy(html, o + Item(text) + c);
  }

  lemma {:induction false} BodyStepPiece(lines: seq<string>, i: nat, st: Fmt, line: string)
    requires i < |lines| && NoTitleTag(line)
    ensures Extends(st.html, BodyStep(lines, i, st, line).html)
  {
    if IsBullet(line) {
      SliceNoTag(line, 1, |line|);
      assert line[1..|line|] == line[1..];
      TrimNoTag(line[1..]);
      ListItemPiece(st.html, Trim(line[1..], Js), i + 1 >= |lines| || !IsBullet(lines[i + 1]));
    } else if st.section != "" {
      TrimNoTag(line);
      ListItemPiece(st.html, Trim(line, Js), i + 1 >= |lines| || !IsListLike(lines[i + 1]));
      ParaPiece(line);
      ExtendsBy(st.html, Para(line));
    } else {
      ExtendsBy(st.html, "");
      assert st.html + "" == st.html;
    }
  }

  lemma {:induction false} OpenSectionPiece(lines: seq<string>, i: nat, st: Fmt, name: string, sections: seq<string>)
    requires i < |lines| && LinesOk(lines)
    ensures Extends(st.html, OpenSection(lines, i, st, name, sections).1.html)
  {
    var h := OpenSection(lines, i, st, name, sections).1.html;
    var head := SectionOpen + Heading(name);
    TemplatePieces();
    HeadingPiece(name);
    JoinPiece(SectionOpen, Heading(name));
    if IsDiagnosisSection(name) {
      var k := NextHeader(lines, i + 1, sections);
      var g := Trim(Gathered(lines, i + 1, k), Js);
      GatheredNoTag(lines, i + 1, k);
      TrimNoTag(Gathered(lines, i + 1, k));
      BoldPiece(g);
      JoinPiece(head, Bold(g));
      AppendAssoc(st.html, SectionOpen, Heading(name));
      AppendAssoc(st.html, head, Bold(g));
      ExtendsBy(st.html, head + Bold(g));
    } else {
      AppendAssoc(st.html, SectionOpen, Heading(name));
      ExtendsBy(st.html, head);
    }
  }

  lemma {:induction false} HeaderStepPiece(lines: seq<string>, i: nat, st: Fmt, line: string, sections: seq<string>)
    requires i < |lines| && LinesOk(lines)
    ensures Extends(st.html, HeaderStep(lines, i, st, line, sections).1.html)
  {
    var closed := if st.section != "" && st.added then st.(html := st.html + DivClose) else st;
    TemplatePieces();
    ExtendsBy(st.html, DivClose);
    ExtendsBy(st.html, "");
    assert st.html + "" == st.html;
    var name := SectionName(line);
    if Lower(name) != TitleWords {
      OpenSectionPiece(lines, i, closed, name, sections);
      ExtendsTrans(st.html, closed.html, OpenSection(lines, i, closed, name, sections).1.html);
    }
  }

  lemma {:induction false} StepPiece(lines: seq<string>, i: nat, st: Fmt, sections: seq<string>)
    requires i < |lines| && LinesOk(lines)
    ensures Extends(st.html, Step(lines, i, st, sections).1.html)
  {
    var line := Trim(lines[i], Js);
    if line == "" || Lower(line) == TitleWords {
      ExtendsBy(st.html, "");
      assert st.html + "" == st.html;
    } else if IsSectionHeader(line, sections) {
      HeaderStepPiece(lines, i, st, line, sections);
    } else {
      TrimNoTag(lines[i]);
      BodyStepPiece(lines, i, st, line);
    }
  }

  lemma {:induction false} RunPiece(lines: seq<string>, i: nat, st: Fmt, sections: seq<string>)
    requires i <= |lines| && LinesOk(lines)
    ensures Extends(st.html, Run(lines, i, st, sections).html)
    decreases |lines| - i
  {
    if i == |lines| {
      ExtendsBy(st.html, "");
      assert st.html + "" == st.html;
    } else {
      var next := Step(lines, i, st, sections);
      StepPiece(lines, i, st, sections);
      RunPiece(lines, next.0, next.1, sections);
      ExtendsTrans(st.html, next.1.html, Run(lines, next.0, next.1, sections).html);
    }
  }

  lemma {:induction false} CardPiece(lines: seq<string>, st0: Fmt, sections: seq<string>)
    requires LinesOk(lines)
    ensures Extends(st0.html, Card(lines, st0, sections))
  {
    var st := Run(lines, 0, st0, sections);
    RunPiece(lines, 0, st0, sections);
    TemplatePieces();
    var c := if st.section != "" && st.added then DivClose else "";
    JoinPiece(c, DivClose);
    assert Card(lines, st0, sections) == st.html + (c + DivClose);
    ExtendsBy(st.html, c + DivClose);
    ExtendsTrans(st0.html, st.html, st.html + (c + DivClose));
  }

  lemma PieceNoTag(d: string)
    requires Piece(d)
    ensures NoTitleTag(d)
  {
    if d == [] {
      NoTagEmpty();
    }
  }

  /** Lines of a cleaned text without `<h3` are free of it too. */
  lemma {:induction false} SummaryLinesOk(text: string)
    requires NoTitleTag(Clean(text))
    ensures LinesOk(SummaryLines(text))
  {
    var parts := Split(Clean(text), "\n");
    SplitPartsAvoid(Clean(text), "\n", "<h3");
    NonBlankLinesSound(parts);
    var lines := SummaryLines(text);
    forall k | 0 <= k < |lines| ensures NoTitleTag(lines[k]) {
      assert lines[k] in NonBlankLines(parts);
    }
  }

  /** The card carries its title heading once: after the card's opening tag and title
    * no `<h3` follows.  The stripped title patterns can join the text around them into
    * a new `<h3`, so the cleaned text is required to hold none. */
  lemma {:induction false} FormatTitleOnce(text: string)
    requires !Contains(text, "<div") && !Contains(text, "<h")
    requires NoTitleTag(Clean(text))
    ensures StartsWith(Format(text), CardOpen + Title)
    ensures NoTitleTag(Format(text)[|CardOpen + Title|..])
  {
    SummaryLinesOk(text);
    CardPiece(SummaryLines(text), Start, Sections);
    PieceNoTag(Format(text)[|CardOpen + Title|..]);
  }

  // ------------------------------------------------------------ list openers

  /** At most one opener, and none while the output holds no opener text. */
  predicate OpenersOk(st: Fmt)
  {
    st.openers <= 1 && (!Contains(st.html, ListOpen) ==> st.openers == 0)
  }

  /** Appending without emitting an opener keeps the count right. */
  lemma {:induction false} OpenersKept(st: Fmt, next: Fmt)
    requires OpenersOk(st) && next.openers == st.openers && StartsWith(next.html, st.html)
    ensures OpenersOk(next)
  {
    if Contains(st.html, ListOpen) {
      ContainsInPrefix(next.html, st.html, ListOpen);
    }
  }

  lemma {:induction false} ListItemOpeners(st: Fmt, text: string, last: bool)
    requires OpenersOk(st)
    ensures OpenersOk(ListItem(st, text, last))
  {
    var next := ListItem(st, text, last);
    if Contains(st.html, ListOpen) {
      ListItemPrefix(st.html, text, last);
      OpenersKept(st, next);
    } else {
      var h := st.html + ListOpen + Item(text) + (if last then ListClose else "");
      assert next.html == h;
      assert h[|st.html|..|st.html| + |ListOpen|] == ListOpen;
      assert ContainsAt(h, ListOpen, |st.html|);
    }
  }

  lemma {:induction false} BodyStepOpeners(lines: seq<string>, i: nat, st: Fmt, line: string)
    requires i < |lines| && OpenersOk(st)
    ensures OpenersOk(BodyStep(lines, i, st, line))
  {
    if IsBullet(line) {
      ListItemOpeners(st, Trim(line[1..], Js), i + 1 >= |lines| || !IsBullet(lines[i + 1]));
    } else if st.section != "" && IsListLike(line) {
      ListItemOpeners(st, Trim(line, Js), i + 1 >= |lines| || !IsListLike(lines[i + 1]));
    } else {
      BodyStepPrefix(lines, i, st, line);
      OpenersKept(st, BodyStep(lines, i, st, line));
    }
  }

  lemma {:induction false} HeaderStepOpeners(lines: seq<string>, i: nat, st: Fmt, line: string, sections: seq<string>)
    requires i < |lines| && OpenersOk(st)
    ensures OpenersOk(HeaderStep(lines, i, st, line, sections).1)
  {
    HeaderStepPrefix(lines, i, st, line, sections);
    OpenersKept(st, HeaderStep(lines, i, st, line, sections).1);
  }

  lemma {:induction false} StepOpeners(lines: seq<string>, i: nat, st: Fmt, sections: seq<string>)
    requires i < |lines| && OpenersOk(st)
    ensures OpenersOk(Step(lines, i, st, sections).1)
  {
    var line := Trim(lines[i], Js);
    if line == "" || Lower(line) == TitleWords {
    } else if IsSectionHeader(line, sections) {
      HeaderStepOpeners(lines, i, st, line, sections);
    } else {
      BodyStepOpeners(lines, i, st, line);
    }
  }

  lemma {:induction false} RunOpeners(lines: seq<string>, i: nat, st: Fmt, sections: seq<string>)
    requires i <= |lines| && OpenersOk(st)
    ensures OpenersOk(Run(lines, i, st, sections))
    decreases |lines| - i
  {
    if i < |lines| {
      var next := Step(lines, i, st, sections);
      StepOpeners(lines, i, st, sections);
      RunOpeners(lines, next.0, next.1, sections);
    }
  }

  /** One call emits at most one list opener, since the opener test scans the whole
    * output built so far. */
  lemma FormatOneListOpener(text: string)
    ensures Run(SummaryLines(text), 0, Start, Sections).openers <= 1
  {
    RunOpeners(SummaryLines(text), 0, Start, Sections);
  }

  /** A list item closes the list exactly when it is the last of its run. */
  lemma {:induction false} ListItemClosesRun(html: string, text: string, last: bool)
    ensures EndsWith(ListItemHtml(html, text, last), ListClose) <==> last
  {
    var h := ListItemHtml(html, text, last);
    if !last {
      assert h[|h| - 3] == 'l';
    }
  }

  // --------------------------------------------------------- diagnosis body

  /** A diagnosis section swallows every line up to the next header into one bold
    * paragraph and resumes the loop at that header, so those lines are not emitted
    * again. */
  lemma {:induction false} DiagnosisSectionFoldsBody(lines: seq<string>, i: nat, st: Fmt, name: string, sections: seq<string>)
    requires i < |lines| && IsDiagnosisSection(name)
    ensures var r := OpenSection(lines, i, st, name, sections);
      var k := r.0;
      i + 1 <= k <= |lines| &&
      (forall m | i + 1 <= m < k :: !IsLookaheadHeader(lines[m], sections)) &&
      (k < |lines| ==> IsLookaheadHeader(lines[k], sections)) &&
      r.1.html == st.html + SectionOpen + Heading(name) + Bold(Trim(Gathered(lines, i + 1, k), Js))
  {
    NextHeaderFinds(lines, i + 1, sections);
  }
}
