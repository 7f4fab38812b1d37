// The client-side formatter that turns a plain-text medical case summary
// into the HTML card shown in the chat (formatDoctorSummary).
module SummaryFormatter {
  import opened Wrappers
  import opened Strings

  /** Section names recognised in header lines, in source order. */
  const Sections: seq<string> := ["Medical Case Summary", "Chief Complaint", "History", "Medications",
                                   "Assessment", "Diagnosis", "Likely Condition", "Recommendations"]

  const CardOpen: string := "<div class=\"diagnosis-card\">"
  const Title: string := "<h3 class=\"diagnosis-header text-center\">MEDICAL CASE SUMMARY</h3>"
  const SectionOpen: string := "<div class=\"diagnosis-content\">"
  const ListOpen: string := "<ul class=\"diagnosis-list\">"
  const ListClose: string := "</ul>"
  const DivClose: string := "</div>"
  const TitleWords: string := "medical case summary"

  /** The template literals the formatter appends around text. */
  function Heading(name: string): string { "<h4 class=\"diagnosis-header\">" + Upper(name) + "</h4>" }
  function Item(text: string): string { "<li>" + text + "</li>" }
  function Para(text: string): string { "<p>" + text + "</p>" }
  function Bold(text: string): string { "<p><strong>" + text + "</strong></p>" }

  // ------------------------------------------------------- title stripping

  /** `s` starts with "medical case summary" in any ASCII letter case (the `/i` flag). */
  predicate StartsWithTitleWords(s: string)
  {
    |s| >= |TitleWords| && Lower(s[..|TitleWords|]) == TitleWords
  }

  /** The part \s*Medical Case Summary\s* that both title patterns share, matched from
    * position `a` of `s`: the position just past it.  Each `\s*` is followed by a
    * character it cannot consume, so the greedy reading is the only match. */
  function TitleWordsAt(s: string, a: nat): (r: Option<nat>)
    requires a <= |s|
    ensures r.Some? ==> a < r.value <= |s|
  {
    var b := a + LeadingBlank(s[a..], Js);
    if !StartsWithTitleWords(s[b..]) then None
    else
      var c := b + |TitleWords|;
      Some(c + LeadingBlank(s[c..], Js))
  }

  /** The length of the match of /##?\s*Medical Case Summary\s*##?/i that starts at
    * the first character of `s`, if any.  Note that the closing `#` is required and
    * that `\s*` runs across line breaks. */
  function HashTitleAt(s: string): (r: Option<nat>)
    ensures r.Some? ==> 0 < r.value <= |s| && s[0] == '#'
  {
    if s == [] || s[0] != '#' then None
    else
      var a := if |s| > 1 && s[1] == '#' then 2 else 1;
      match TitleWordsAt(s, a)
      case None => None
      case Some(d) =>
        if d < |s| && s[d] == '#' then Some(if d + 1 < |s| && s[d + 1] == '#' then d + 2 else d + 1)
        else None
  }

  /** The same for /\*\*\s*Medical Case Summary\s*\*\* /i. */
  function StarTitleAt(s: string): (r: Option<nat>)
    ensures r.Some? ==> 0 < r.value <= |s| && s[0] == '*'
  {
    if !StartsWith(s, "**") then None
    else match TitleWordsAt(s, 2)
      case None => None
      case Some(d) => if StartsWith(s[d..], "**") then Some(d + 2) else None
  }

  /** s.replace(/##?\s*Medical Case Summary\s*##?/gi, ""): matches are removed left to right. */
  function StripHashTitles(s: string): (r: string)
    ensures |r| <= |s|
    decreases |s|
  {
    if s == [] then []
    else match HashTitleAt(s)
      case Some(n) => StripHashTitles(s[n..])
      case None => [s[0]] + StripHashTitles(s[1..])
  }

  /** s.replace(/\*\*\s*Medical Case Summary\s*\*\* /gi, ""). */
  function StripStarTitles(s: string): (r: string)
    ensures |r| <= |s|
    decreases |s|
  {
    if s == [] then []
    else match StarTitleAt(s)
      case Some(n) => StripStarTitles(s[n..])
      case None => [s[0]] + StripStarTitles(s[1..])
  }

  /** Text without a '#' or without a '*' passes the respective pass unchanged. */
  lemma {:induction false} StripHashTitlesIdle(s: string)
    requires '#' !in s
    ensures StripHashTitles(s) == s
    decreases |s|
  {
    if s != [] {
      assert s[0] != '#';
      assert '#' !in s[1..];
      StripHashTitlesIdle(s[1..]);
      assert s == [s[0]] + s[1..];
    }
  }

  lemma {:induction false} StripStarTitlesIdle(s: string)
    requires '*' !in s
    ensures StripStarTitles(s) == s
    decreases |s|
  {
    if s != [] {
      assert s[0] != '*';
      assert '*' !in s[1..];
      StripStarTitlesIdle(s[1..]);
      assert s == [s[0]] + s[1..];
    }
  }

  function Clean(s: string): string
  {
    StripStarTitles(StripHashTitles(s))
  }

  /** The title words, in the case the summaries use, match the `/i` pattern. */
  lemma {:induction false} TitleWordsMatch(x: string)
    requires |x| >= |TitleWords| && x[..|TitleWords|] == "Medical Case Summary"
    ensures StartsWithTitleWords(x)
  {
    var l := Lower(x[..|TitleWords|]);
    assert l[0] == 'm' && l[8] == 'c' && l[13] == 's';
    assert l == TitleWords;
  }

  /** A run of exactly `n` white-space characters at the front of `x`. */
  lemma {:induction false} LeadingBlankCount(x: string, n: nat)
    requires n < |x| && !IsJsSpace(x[n])
    requires forall i | 0 <= i < n :: IsJsSpace(x[i])
    ensures LeadingBlank(x, Js) == n
    decreases n
  {
    if n > 0 {
      var y := x[1..];
      forall i | 0 <= i < n - 1 ensures IsJsSpace(y[i]) {
        assert y[i] == x[i + 1];
      }
      LeadingBlankCount(y, n - 1);
    }
  }

  /** The title pattern matches "## Medical Case Summary", the blank line after it and,
    * because its closing `##?` is greedy and `\s*` runs across line breaks, the
    * marker of the next header as well. */
  lemma {:induction false} HashTitleSpansNextMarker(t: string)
    ensures HashTitleAt("## " + "Medical Case Summary" + "\n\n##" + t) == Some(27)
  {
    var m := "Medical Case Summary";
    var rest := "\n\n##" + t;
    var s := "## " + (m + rest);
    assert "## " + m + "\n\n##" + t == s;
    assert |m| == 20;
    assert s[0] == '#' && s[1] == '#';
    assert s[3..] == m + rest;
    assert LeadingBlank(s[2..], Js) == 1 by {
      assert s[2..][0] == ' ';
      assert s[2..][1] == m[0] == 'M';
      LeadingBlankCount(s[2..], 1);
    }
    assert StartsWithTitleWords(s[3..]) by {
      assert (m + rest)[..20] == m;
      TitleWordsMatch(s[3..]);
    }
    assert s[23..] == rest;
    assert LeadingBlank(rest, Js) == 2 by {
      assert rest[0] == '\n' && rest[1] == '\n' && rest[2] == '#';
      LeadingBlankCount(rest, 2);
    }
    assert TitleWordsAt(s, 2) == Some(25);
    assert s[25] == rest[2] == '#' && s[26] == rest[3] == '#';
  }

  /** So stripping the titles also removes the marker of the header that follows a
    * "## Medical Case Summary" line. */
  lemma {:induction false} HashTitleSwallowsNextMarker(t: string)
    ensures StripHashTitles("## " + "Medical Case Summary" + "\n\n##" + t) == StripHashTitles(t)
  {
    var s := "## " + "Medical Case Summary" + "\n\n##" + t;
    HashTitleSpansNextMarker(t);
    assert s[27..] == t;
  }

  // ------------------------------------------------------------ lines

  /** cleanedText.split('\n').filter(line => line.trim() !== ''). */
  function NonBlankLines(parts: seq<string>): (r: seq<string>)
    ensures |r| <= |parts|
    decreases |parts|
  {
    if parts == [] then []
    else (if Trim(parts[0], Js) == "" then [] else [parts[0]]) + NonBlankLines(parts[1..])
  }

  /** Every line the filter keeps is a line of the input that is not all white space. */
  lemma {:induction false} NonBlankLinesSound(parts: seq<string>)
    ensures forall line | line in NonBlankLines(parts) :: !IsBlank(line, Js) && line in parts
    decreases |parts|
  {
    if parts != [] {
      NonBlankLinesSound(parts[1..]);
      TrimEmptyIffBlank(parts[0], Js);
      var head := if Trim(parts[0], Js) == "" then [] else [parts[0]];
      var tail := NonBlankLines(parts[1..]);
      assert NonBlankLines(parts) == head + tail;
      forall line | line in head + tail ensures !IsBlank(line, Js) && line in parts {
        if line !in head {
          assert line in tail;
          assert line in parts[1..];
        }
      }
    }
  }

  /** Every line of the input that is not all white space is kept. */
  lemma {:induction false} NonBlankLinesComplete(parts: seq<string>)
    ensures var r := NonBlankLines(parts);
      forall k | 0 <= k < |parts| && !IsBlank(parts[k], Js) :: parts[k] in r
    decreases |parts|
  {
    if parts != [] {
      NonBlankLinesComplete(parts[1..]);
      TrimEmptyIffBlank(parts[0], Js);
      var r := NonBlankLines(parts);
      var head := if Trim(parts[0], Js) == "" then [] else [parts[0]];
      var tail := NonBlankLines(parts[1..]);
      assert r == head + tail;
      forall k | 0 <= k < |parts| && !IsBlank(parts[k], Js) ensures parts[k] in r {
        if k > 0 {
          assert parts[k] == parts[1..][k - 1];
          assert parts[k] in tail;
        }
      }
    }
  }

  function SummaryLines(text: string): seq<string>
  {
    NonBlankLines(Split(Clean(text), "\n"))
  }

  // ---------------------------------------------------- line classification

  predicate IsMarked(line: string)
  {
    StartsWith(line, "**") || StartsWith(line, "##") || StartsWith(line, "#")
  }

  function LowerSections(names: seq<string>): (r: seq<string>)
    ensures |r| == |names|
    ensures forall k | 0 <= k < |names| :: r[k] == Lower(names[k])
  {
    seq(|names|, k requires 0 <= k < |names| => Lower(names[k]))
  }

  /** The header test on the trimmed current line: case-insensitive. */
  predicate IsSectionHeader(line: string, sections: seq<string>)
  {
    IsMarked(line) && ContainsAny(Lower(line), LowerSections(sections))
  }

  /** The header test of the two look-ahead loops: case-sensitive, on the untrimmed line. */
  predicate IsLookaheadHeader(line: string, sections: seq<string>)
  {
    IsMarked(line) && ContainsAny(line, sections)
  }

  /** The header text without `**` and `#` markers, cut at the first ':'.
    * (Removing the matches of /##?/g removes every '#'.) */
  function SectionName(line: string): string
  {
    var bare := Trim(ReplaceAll(ReplaceAll(line, "**", ""), "#", ""), Js);
    if Contains(bare, ":") then Trim(Split(bare, ":")[0], Js) else bare
  }

  predicate IsDiagnosisSection(name: string)
  {
    Contains(name, "Assessment") || Contains(name, "Diagnosis") || Contains(name, "Likely Condition")
  }

  predicate IsBullet(line: string)
  {
    StartsWith(line, "-") || StartsWith(line, "*")
  }

  function LeadingDigits(s: string): (n: nat)
    ensures n <= |s|
    decreases |s|
  {
    if s != [] && IsAsciiDigit(s[0]) then 1 + LeadingDigits(s[1..]) else 0
  }

  /** /^\d+\.\s/ : one or more digits, a dot, a white-space character.  `\d+` can only
    * stop where the dot is, so the maximal run of digits decides. */
  predicate IsNumbered(line: string)
  {
    var k := LeadingDigits(line);
    k >= 1 && k + 1 < |line| && line[k] == '.' && IsJsSpace(line[k + 1])
  }

  predicate IsListLike(line: string)
  {
    IsNumbered(line) || Contains(line, ": ")
  }

  // -------------------------------------------------- the loop as a function

  /** The loop's variables: the HTML built so far, the current section name and the
    * has-added-section flag; `openers` counts the list openers emitted. */
  datatype Fmt = Fmt(html: string, section: string, added: bool, openers: nat)

  const Start: Fmt := Fmt(CardOpen + Title, "", false, 0)

  /** First index at or after `j` holding a look-ahead header, or |lines|. */
  function NextHeader(lines: seq<string>, j: nat, sections: seq<string>): (k: nat)
    requires j <= |lines|
    ensures j <= k <= |lines|
    decreases |lines| - j
  {
    if j == |lines| || IsLookaheadHeader(lines[j], sections) then j else NextHeader(lines, j + 1, sections)
  }

  /** NextHeader finds the first header: none is skipped, and it stops on one. */
  lemma {:induction false} NextHeaderFinds(lines: seq<string>, j: nat, sections: seq<string>)
    requires j <= |lines|
    ensures var k := NextHeader(lines, j, sections);
      (forall m | j <= m < k :: !IsLookaheadHeader(lines[m], sections)) && (k < |lines| ==> IsLookaheadHeader(lines[k], sections))
    decreases |lines| - j
  {
    if j < |lines| && !IsLookaheadHeader(lines[j], sections) {
      NextHeaderFinds(lines, j + 1, sections);
    }
  }

  /** NextHeader moves past a line that is not a header and stops on one that is. */
  lemma NextHeaderStep(lines: seq<string>, j: nat, sections: seq<string>)
    requires j < |lines|
    ensures !IsLookaheadHeader(lines[j], sections) ==> NextHeader(lines, j, sections) == NextHeader(lines, j + 1, sections)
    ensures IsLookaheadHeader(lines[j], sections) ==> NextHeader(lines, j, sections) == j
  {
  }

  lemma NextHeaderIsFirst(lines: seq<string>, j: nat, k: nat, sections: seq<string>)
    requires j <= k <= |lines|
    requires forall m | j <= m < k :: !IsLookaheadHeader(lines[m], sections)
    requires k == |lines| || IsLookaheadHeader(lines[k], sections)
    ensures NextHeader(lines, j, sections) == k
    decreases k - j
  {
    if j < k {
      NextHeaderIsFirst(lines, j + 1, k, sections);
    }
  }

  /** The text the look-ahead loop accumulates over lines[j..k]: each line trimmed
    * and followed by one space. */
  function Gathered(lines: seq<string>, j: nat, k: nat): string
    requires j <= k <= |lines|
    decreases k - j
  {
    if j == k then "" else Gathered(lines, j, k - 1) + Trim(lines[k - 1], Js) + " "
  }

  /** A list item: the opener if none is in the output yet, the item, and the closer
    * when the list ends here. */
  function ListItemHtml(html: string, text: string, last: bool): string
  {
    (if Contains(html, ListOpen) then html else html + ListOpen) + Item(text) + (if last then ListClose else "")
  }

  function ListItem(st: Fmt, text: string, last: bool): Fmt
  {
    st.(html := ListItemHtml(st.html, text, last),
        openers := if Contains(st.html, ListOpen) then st.openers else st.openers + 1)
  }

  /** One iteration of the loop over lines[i]: the next index and the new variables. */
  function Step(lines: seq<string>, i: nat, st: Fmt, sections: seq<string>): (r: (nat, Fmt))
    requires i < |lines|
    ensures i < r.0 <= |lines|
  {
    var line := Trim(lines[i], Js);
    if line == "" || Lower(line) == TitleWords then (i + 1, st)
    else if IsSectionHeader(line, sections) then HeaderStep(lines, i, st, line, sections)
    else (i + 1, BodyStep(lines, i, st, line))
  }

  /** A header line: close the open section, then open the new one unless it is the
    * title; a diagnosis section consumes every line up to the next header. */
  function HeaderStep(lines: seq<string>, i: nat, st: Fmt, line: string, sections: seq<string>): (r: (nat, Fmt))
    requires i < |lines|
    ensures i < r.0 <= |lines|
  {
    var closed := if st.section != "" && st.added then st.(html := st.html + DivClose) else st;
    var name := SectionName(line);
    if Lower(name) == TitleWords then (i + 1, closed) else OpenSection(lines, i, closed, name, sections)
  }

  /** Opening a section: a diagnosis section consumes every line up to the next header. */
  function OpenSection(lines: seq<string>, i: nat, st: Fmt, name: string, sections: seq<string>): (r: (nat, Fmt))
    requires i < |lines|
    ensures i < r.0 <= |lines|
  {
    var started := st.(html := st.html + SectionOpen + Heading(name), section := name, added := true);
    if IsDiagnosisSection(name) then
      var k := NextHeader(lines, i + 1, sections);
      (k, started.(html := started.html + Bold(Trim(Gathered(lines, i + 1, k), Js))))
    else (i + 1, started)
  }

  /** Any other line: a bullet item, or inside a section an implicit list item or a
    * paragraph; outside every section it is dropped. */
  function BodyStep(lines: seq<string>, i: nat, st: Fmt, line: string): Fmt
    requires i < |lines|
  {
    if IsBullet(line) then
      ListItem(st, Trim(line[1..], Js), i + 1 >= |lines| || !IsBullet(lines[i + 1]))
    else if st.section != "" then
      if IsListLike(line) then
        ListItem(st, Trim(line, Js), i + 1 >= |lines| || !IsListLike(lines[i + 1]))
      else st.(html := st.html + Para(line))
    else st
  }

  /** The loop from index `i` on. */
  function Run(lines: seq<string>, i: nat, st: Fmt, sections: seq<string>): Fmt
    requires i <= |lines|
    decreases |lines| - i
  {
    if i == |lines| then st
    else
      var next := Step(lines, i, st, sections);
      Run(lines, next.0, next.1, sections)
  }

  /** The card built from `lines` starting from `st0`: the loop, then the closing tag
    * of the last open section and of the card. */
  function Card(lines: seq<string>, st0: Fmt, sections: seq<string>): string
  {
    var st := Run(lines, 0, st0, sections);
    st.html + (if st.section != "" && st.added then DivClose else "") + DivClose
  }

  /** The output of formatDoctorSummary for a given summary text. */
  function Format(text: string): string
  {
    if Contains(text, "<div") || Contains(text, "<h") then text
    else Card(SummaryLines(text), Start, Sections)
  }

  // ------------------------------------------------------------ the method

  /** The first look-ahead loop after a diagnosis header at lines[i]: the trimmed
    * lines up to the next header, each followed by a space. */
  method GatherDiagnosisText(lines: seq<string>, i: nat, sections: seq<string>) returns (diagnosisText: string)
    requires i < |lines|
    ensures diagnosisText == Gathered(lines, i + 1, NextHeader(lines, i + 1, sections))
  {
    diagnosisText := "";
    var j := i + 1;
    while j < |lines| && !IsLookaheadHeader(lines[j], sections)
      invariant i + 1 <= j <= |lines|
      invariant NextHeader(lines, j, sections) == NextHeader(lines, i + 1, sections)
      invariant diagnosisText == Gathered(lines, i + 1, j)
      decreases |lines| - j
    {
      NextHeaderStep(lines, j, sections);
      diagnosisText := diagnosisText + Trim(lines[j], Js) + " ";
      j := j + 1;
    }
    if j < |lines| {
      NextHeaderStep(lines, j, sections);
    }
  }

  /** The second look-ahead loop: advances `i` to the last line before the next header. */
  method SkipSectionBody(lines: seq<string>, i: nat, sections: seq<string>) returns (last: nat)
    requires i < |lines|
    ensures last + 1 == NextHeader(lines, i + 1, sections)
  {
    last := i;
    while last + 1 < |lines| && !IsLookaheadHeader(lines[last + 1], sections)
      invariant i <= last < |lines|
      invariant NextHeader(lines, last + 1, sections) == NextHeader(lines, i + 1, sections)
      decreases |lines| - last
    {
      NextHeaderStep(lines, last + 1, sections);
      last := last + 1;
    }
    if last + 1 < |lines| {
      NextHeaderStep(lines, last + 1, sections);
    }
  }

  /** The list-item emission shared by the bullet and the implicit-list branches. */
  method AppendListItem(html: string, text: string, last: bool) returns (out: string, openerAdded: bool)
    ensures out == ListItemHtml(html, text, last)
    ensures openerAdded == !Contains(html, ListOpen)
  {
    out := html;
    openerAdded := false;
    if !Contains(out, ListOpen) {
      out := out + ListOpen;
      openerAdded := true;
    }
    out := out + Item(text);
    if last {
      out := out + ListClose;
    }
  }

  /** The header branch of the loop body. */
  method FormatHeaderLine(lines: seq<string>, i: nat, line: string, html: string, currentSection: string,
                          hasAddedSection: bool, ghost openers: nat, sections: seq<string>)
    returns (next: nat, html': string, currentSection': string, hasAddedSection': bool)
    requires i < |lines|
    ensures (next, Fmt(html', currentSection', hasAddedSection', openers))
            == HeaderStep(lines, i, Fmt(html, currentSection, hasAddedSection, openers), line, sections)
  {
    html', currentSection', hasAddedSection' := html, currentSection, hasAddedSection;
    if currentSection != "" && hasAddedSection {
      html' := html' + DivClose;
    }
    var sectionName := SectionName(line);
    if Lower(sectionName) == TitleWords {
      next := i + 1;
    } else {
      next, html' := StartSection(lines, i, sectionName, html', currentSection', hasAddedSection', openers, sections);
      currentSection', hasAddedSection' := sectionName, true;
    }
  }

  /** Opening a section that is not the title. */
  method StartSection(lines: seq<string>, i: nat, sectionName: string, html: string, currentSection: string,
                      hasAddedSection: bool, ghost openers: nat, sections: seq<string>)
    returns (next: nat, html': string)
    requires i < |lines|
    ensures (next, Fmt(html', sectionName, true, openers))
            == OpenSection(lines, i, Fmt(html, currentSection, hasAddedSection, openers), sectionName, sections)
  {
    html' := html + SectionOpen;
    html' := html' + Heading(sectionName);
    next := i + 1;
    if IsDiagnosisSection(sectionName) {
      var diagnosisText := GatherDiagnosisText(lines, i, sections);
      html' := html' + Bold(Trim(diagnosisText, Js));
      var last := SkipSectionBody(lines, i, sections);
      next := last + 1;
    }
  }

  /** The bullet, implicit-list and paragraph branches of the loop body. */
  method FormatBodyLine(lines: seq<string>, i: nat, line: string, html: string, currentSection: string,
                        hasAddedSection: bool, ghost openers: nat)
    returns (html': string, ghost openers': nat)
    requires i < |lines|
    ensures Fmt(html', currentSection, hasAddedSection, openers')
            == BodyStep(lines, i, Fmt(html, currentSection, hasAddedSection, openers), line)
    ensures html <= html'
    ensures currentSection == "" && !IsBullet(line) ==> html' == html
  {
    html', openers' := html, openers;
    if IsBullet(line) {
      var openerAdded;
      html', openerAdded := AppendListItem(html, Trim(line[1..], Js), i + 1 >= |lines| || !IsBullet(lines[i + 1]));
      if openerAdded {
        openers' := openers + 1;
      }
    } else if currentSection != "" {
      if IsListLike(line) {
        var openerAdded;
        html', openerAdded := AppendListItem(html, Trim(line, Js), i + 1 >= |lines| || !IsListLike(lines[i + 1]));
        if openerAdded {
          openers' := openers + 1;
        }
      } else {
        html' := html + Para(line);
      }
    }
  }

  /** The main loop over the non-blank lines, from the card opening `html0`. */
  method FormatLines(lines: seq<string>, html0: string, sections: seq<string>)
    returns (html: string, currentSection: string, hasAddedSection: bool)
    ensures var r := Run(lines, 0, Fmt(html0, "", false, 0), sections);
      html == r.html && currentSection == r.section && hasAddedSection == r.added
  {
    html, currentSection, hasAddedSection := html0, "", false;
    ghost var openers := 0;
    var i := 0;
    while i < |lines|
      invariant 0 <= i <= |lines|
      invariant Run(lines, i, Fmt(html, currentSection, hasAddedSection, openers), sections)
                == Run(lines, 0, Fmt(html0, "", false, 0), sections)
      decreases |lines| - i
    {
      ghost var before := Fmt(html, currentSection, hasAddedSection, openers);
      ghost var i0 := i;
      var line := Trim(lines[i], Js);
      if line == "" || Lower(line) == TitleWords {
        i := i + 1;
      } else if IsSectionHeader(line, sections) {
        i, html, currentSection, hasAddedSection := FormatHeaderLine(lines, i, line, html, currentSection, hasAddedSection, openers, sections);
      } else {
        html, openers := FormatBodyLine(lines, i, line, html, currentSection, hasAddedSection, openers);
        i := i + 1;
      }
      assert Step(lines, i0, before, sections) == (i, Fmt(html, currentSection, hasAddedSection, openers));
    }
  }

  method FormatDoctorSummary(summaryText: string) returns (html: string)
    ensures html == Format(summaryText)
  {
    if Contains(summaryText, "<div") || Contains(summaryText, "<h") {
      return summaryText;
    }
    html := CardOpen;
    html := html + Title;
    var cleaned := StripHashTitles(summaryText);
    cleaned := StripStarTitles(cleaned);
    var lines := NonBlankLines(Split(cleaned, "\n"));
    var currentSection, hasAddedSection;
    html, currentSection, hasAddedSection := FormatLines(lines, html, Sections);
    if currentSection != "" && hasAddedSection {
      html := html + DivClose;
    }
    html := html + DivClose;
  }
}
