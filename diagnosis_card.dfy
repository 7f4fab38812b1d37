// The diagnosis card of diagnosis_prep_handler in backend/main.py: the model's answer is
// cut at "##" into sections, the condition, the action steps and the note are taken
// from them (with fixed defaults when parsing finds nothing), and an HTML card lists
// one <li> per action step.
module DiagnosisCard {
  import opened Strings
  import opened UserStore
  import opened Routing
  import opened Handlers

  const Bullet: char := '•'

  // The longer defaults are written in pieces, which lets their characters be checked
  // piece by piece.
  const DefaultCondition := "Unable to determine " + "specific condition " + "from symptoms provided"
  const DefaultActions: seq<string> := ["Rest and stay hydrated", "Monitor your symptoms", "Consult with a " + "healthcare professional"]
  const DefaultNote := "Consult a doctor if " + "symptoms worsen " + "or persist."

  /** The three parts of a card. */
  datatype Sections = Sections(condition: string, actions: seq<string>, note: string)

  /** What parsing starts from: no condition, no steps, the default note. */
  const Initial := Sections("", [], DefaultNote)

  // ------------------------------------------------------------ parsing

  /** A bulleted line, stripped, with every bullet removed and stripped again. */
  function BulletStep(line: string): string
  {
    Trim(ReplaceAll(Trim(line, Py), [Bullet], ""), Py)
  }

  /** The steps of the non-blank lines holding a bullet. */
  function BulletSteps(lines: seq<string>): seq<string>
    decreases |lines|
  {
    if lines == [] then []
    else
      (if Trim(lines[0], Py) != "" && Bullet in lines[0] then [BulletStep(lines[0])] else []) +
      BulletSteps(lines[1..])
  }

  /** The fallback: every non-blank stripped line not starting with "##". */
  function PlainSteps(lines: seq<string>): seq<string>
    decreases |lines|
  {
    if lines == [] then []
    else
      var line := Trim(lines[0], Py);
      (if line != "" && !StartsWith(line, "##") then [line] else []) + PlainSteps(lines[1..])
  }

  /** The action steps of an "ACTION STEPS" section: its bullets, or its lines when it
    * has no bulleted line. */
  function ActionSteps(part: string): seq<string>
  {
    var lines := Split(Trim(ReplaceAll(part, "ACTION STEPS", ""), Py), "\n");
    var bullets := BulletSteps(lines);
    if bullets != [] then bullets else PlainSteps(lines)
  }

  /** One iteration of the loop over the sections: the first heading word found in the
    * section decides which part it replaces. */
  function SectionStep(acc: Sections, part: string): Sections
  {
    if Contains(part, "LIKELY CONDITION") then acc.(condition := Trim(ReplaceAll(part, "LIKELY CONDITION", ""), Py))
    else if Contains(part, "ACTION STEPS") then acc.(actions := ActionSteps(part))
    else if Contains(part, "NOTE") then acc.(note := Trim(ReplaceAll(part, "NOTE", ""), Py))
    else acc
  }

  /** The loop over the sections, from the first to the last. */
  function ParseParts(parts: seq<string>): Sections
    decreases |parts|
  {
    if parts == [] then Initial else SectionStep(ParseParts(parts[..|parts| - 1]), parts[|parts| - 1])
  }

  /** The card's parts for the model's answer, defaults filled in. */
  function Parse(content: string): (s: Sections)
    ensures s.condition != "" && |s.actions| >= 1
  {
    var text := Trim(content, Py);
    var parsed := if Contains(text, "LIKELY CONDITION") then ParseParts(Split(text, "##")) else Initial;
    Sections(
      if parsed.condition == "" then DefaultCondition else parsed.condition,
      if parsed.actions == [] then DefaultActions else parsed.actions,
      parsed.note)
  }

  /** The parsing loop of the handler. */
  method ParseDiagnosis(content: string) returns (s: Sections)
    ensures s == Parse(content)
  {
    var text := Trim(content, Py);
    s := Initial;
    if Contains(text, "LIKELY CONDITION") {
      var parts := Split(text, "##");
      var i := 0;
      while i < |parts|
        invariant 0 <= i <= |parts|
        invariant s == ParseParts(parts[..i])
      {
        assert parts[..i + 1][..i] == parts[..i];
        s := ScanSection(s, parts[i]);
        i := i + 1;
      }
      assert parts[..i] == parts;
    }
    if s.condition == "" {
      s := s.(condition := DefaultCondition);
    }
    if s.actions == [] {
      s := s.(actions := DefaultActions);
    }
  }

  /** The body of the loop: the if/elif chain over the heading words. */
  method ScanSection(acc: Sections, part: string) returns (s: Sections)
    ensures s == SectionStep(acc, part)
  {
    s := acc;
    if Contains(part, "LIKELY CONDITION") {
      s := s.(condition := Trim(ReplaceAll(part, "LIKELY CONDITION", ""), Py));
    } else if Contains(part, "ACTION STEPS") {
      s := s.(actions := ActionSteps(part));
    } else if Contains(part, "NOTE") {
      s := s.(note := Trim(ReplaceAll(part, "NOTE", ""), Py));
    }
  }

  /** An answer without the words "LIKELY CONDITION" gives the default card. */
  lemma UnparsedAnswerGivesDefaults(content: string)
    requires !Contains(Trim(content, Py), "LIKELY CONDITION")
    ensures Parse(content) == Sections(DefaultCondition, DefaultActions, DefaultNote)
  {
  }

  /** A section replaces the part its first heading word names and leaves the other two. */
  lemma {:induction false} LastSectionWins(parts: seq<string>, part: string)
    ensures var before := ParseParts(parts);
      var after := ParseParts(parts + [part]);
      (Contains(part, "LIKELY CONDITION") ==>
        after == before.(condition := Trim(ReplaceAll(part, "LIKELY CONDITION", ""), Py))) &&
      (!Contains(part, "LIKELY CONDITION") && Contains(part, "ACTION STEPS") ==>
        after == before.(actions := ActionSteps(part))) &&
      (!Contains(part, "LIKELY CONDITION") && !Contains(part, "ACTION STEPS") && !Contains(part, "NOTE") ==>
        after == before)
  {
    assert (parts + [part])[..|parts|] == parts;
  }

  /** No bulleted step keeps a bullet. */
  lemma {:induction false} BulletStepsHaveNoBullet(lines: seq<string>)
    ensures forall k | 0 <= k < |BulletSteps(lines)| :: Bullet !in BulletSteps(lines)[k]
    decreases |lines|
  {
    if lines != [] {
      BulletStepsHaveNoBullet(lines[1..]);
      var head := if Trim(lines[0], Py) != "" && Bullet in lines[0] then [BulletStep(lines[0])] else [];
      BulletStepHasNoBullet(lines[0]);
      assert BulletSteps(lines) == head + BulletSteps(lines[1..]);
    }
  }

  lemma BulletStepHasNoBullet(line: string)
    ensures Bullet !in BulletStep(line)
  {
    RemoveAllRemovesChar(Trim(line, Py), Bullet);
    TrimKeepsOut(ReplaceAll(Trim(line, Py), [Bullet], ""), Py, Bullet);
  }

  /** Every fallback step is a non-blank stripped line. */
  lemma {:induction false} PlainStepsAreStripped(lines: seq<string>)
    ensures forall k | 0 <= k < |PlainSteps(lines)| ::
      PlainSteps(lines)[k] != "" && Trim(PlainSteps(lines)[k], Py) == PlainSteps(lines)[k]
    decreases |lines|
  {
    if lines != [] {
      PlainStepsAreStripped(lines[1..]);
      var line := Trim(lines[0], Py);
      TrimOfTrimmed(line, Py);
      var head := if line != "" && !StartsWith(line, "##") then [line] else [];
      assert PlainSteps(lines) == head + PlainSteps(lines[1..]);
    }
  }

  /** Parsing brings in no character that the answer and the defaults lack. */
  lemma {:induction false} ParseKeepsOut(content: string, c: char)
    requires c !in content && c !in DefaultCondition && c !in DefaultNote
    requires forall k | 0 <= k < |DefaultActions| :: c !in DefaultActions[k]
    ensures var s := Parse(content);
      c !in s.condition && c !in s.note && forall k | 0 <= k < |s.actions| :: c !in s.actions[k]
  {
    var text := Trim(content, Py);
    TrimKeepsOut(content, Py, c);
    if Contains(text, "LIKELY CONDITION") {
      SplitKeepsOut(text, "##", c);
      ParsePartsKeepOut(Split(text, "##"), c);
    }
  }

  lemma {:induction false} ParsePartsKeepOut(parts: seq<string>, c: char)
    requires c !in DefaultNote && forall k | 0 <= k < |parts| :: c !in parts[k]
    ensures var s := ParseParts(parts);
      c !in s.condition && c !in s.note && forall k | 0 <= k < |s.actions| :: c !in s.actions[k]
    decreases |parts|
  {
    if parts != [] {
      var init := parts[..|parts| - 1];
      var part := parts[|parts| - 1];
      forall k | 0 <= k < |init| ensures c !in init[k] {
        assert init[k] == parts[k];
      }
      ParsePartsKeepOut(init, c);
      if Contains(part, "LIKELY CONDITION") {
        ReplaceKeepsOut(part, "LIKELY CONDITION", "", c);
        TrimKeepsOut(ReplaceAll(part, "LIKELY CONDITION", ""), Py, c);
      } else if Contains(part, "ACTION STEPS") {
        ActionStepsKeepOut(part, c);
      } else if Contains(part, "NOTE") {
        ReplaceKeepsOut(part, "NOTE", "", c);
        TrimKeepsOut(ReplaceAll(part, "NOTE", ""), Py, c);
      }
    }
  }

  lemma ActionStepsKeepOut(part: string, c: char)
    requires c !in part
    ensures forall k | 0 <= k < |ActionSteps(part)| :: c !in ActionSteps(part)[k]
  {
    var removed := ReplaceAll(part, "ACTION STEPS", "");
    ReplaceKeepsOut(part, "ACTION STEPS", "", c);
    TrimKeepsOut(removed, Py, c);
    var lines := Split(Trim(removed, Py), "\n");
    SplitKeepsOut(Trim(removed, Py), "\n", c);
    StepsKeepOut(lines, c);
  }

  lemma StepsKeepOut(lines: seq<string>, c: char)
    requires forall k | 0 <= k < |lines| :: c !in lines[k]
    ensures forall k | 0 <= k < |BulletSteps(lines)| :: c !in BulletSteps(lines)[k]
    ensures forall k | 0 <= k < |PlainSteps(lines)| :: c !in PlainSteps(lines)[k]
  {
    BulletStepsKeepOut(lines, c);
    PlainStepsKeepOut(lines, c);
  }

  lemma {:induction false} BulletStepsKeepOut(lines: seq<string>, c: char)
    requires forall k | 0 <= k < |lines| :: c !in lines[k]
    ensures forall k | 0 <= k < |BulletSteps(lines)| :: c !in BulletSteps(lines)[k]
    decreases |lines|
  {
    if lines != [] {
      BulletStepsKeepOut(lines[1..], c);
      BulletStepKeepsOut(lines[0], c);
      var head := if Trim(lines[0], Py) != "" && Bullet in lines[0] then [BulletStep(lines[0])] else [];
      assert BulletSteps(lines) == head + BulletSteps(lines[1..]);
    }
  }

  lemma BulletStepKeepsOut(line: string, c: char)
    requires c !in line
    ensures c !in BulletStep(line)
  {
    TrimKeepsOut(line, Py, c);
    ReplaceKeepsOut(Trim(line, Py), [Bullet], "", c);
    TrimKeepsOut(ReplaceAll(Trim(line, Py), [Bullet], ""), Py, c);
  }

  lemma {:induction false} PlainStepsKeepOut(lines: seq<string>, c: char)
    requires forall k | 0 <= k < |lines| :: c !in lines[k]
    ensures forall k | 0 <= k < |PlainSteps(lines)| :: c !in PlainSteps(lines)[k]
    decreases |lines|
  {
    if lines != [] {
      PlainStepsKeepOut(lines[1..], c);
      var line := Trim(lines[0], Py);
      TrimKeepsOut(lines[0], Py, c);
      var plain := if line != "" && !StartsWith(line, "##") then [line] else [];
      assert PlainSteps(lines) == plain + PlainSteps(lines[1..]);
    }
  }

  // ------------------------------------------------------------ the card

  /** A header line of the card. */
  function CardHeader(title: string): string
  {
    "\n  <div class=\"diagnosis-header\">" + title + "</div>"
  }

  const CardHead := "<div class=" + "\"diagnosis-card\">" + CardHeader("LIKELY CONDITION") + "\n  <div class=\"diagnosis-content\">"
  const ListHead := "</div>\n  " + CardHeader("ACTION STEPS") + "\n  <ul class=\"diagnosis-list\">"
  const NoteHead := "\n  </ul>\n  " + CardHeader("NOTE") + "\n  <div class=\"diagnosis-note\">"
  const CardEnd := "</div>\n</div>"

  const ListItemTag := "<li>"
  const ItemIndent := "\n    "
  const ItemOpen := ItemIndent + ListItemTag
  const ItemClose := "</li>"

  /** One list item. */
  function Item(step: string): string
  {
    ItemOpen + step + ItemClose
  }

  /** The list items of the steps, in order. */
  function Items(steps: seq<string>): string
    decreases |steps|
  {
    if steps == [] then "" else Items(steps[..|steps| - 1]) + Item(steps[|steps| - 1])
  }

  function DiagnosisHtml(s: Sections): string
  {
    CardHead + s.condition + ListHead + Items(s.actions) + NoteHead + s.note + CardEnd
  }

  /** The card built as the handler builds it: the head, one item per step, the tail. */
  method FormatDiagnosis(s: Sections) returns (html: string)
    ensures html == DiagnosisHtml(s)
  {
    var head := CardHead + s.condition + ListHead;
    html := head;
    var i := 0;
    while i < |s.actions|
      invariant 0 <= i <= |s.actions|
      invariant html == head + Items(s.actions[..i])
    {
      assert s.actions[..i + 1][..i] == s.actions[..i];
      Assoc(head, Items(s.actions[..i]), Item(s.actions[i]));
      html := html + Item(s.actions[i]);
      i := i + 1;
    }
    assert s.actions[..i] == s.actions;
    html := html + NoteHead + s.note + CardEnd;
  }

  /** Steps without a '<' give exactly one "<li>" per step. */
  lemma {:induction false} ItemsCount(steps: seq<string>)
    requires forall k | 0 <= k < |steps| :: '<' !in steps[k]
    ensures Occurrences(Items(steps), ListItemTag) == |steps|
    ensures QuietEnd(Items(steps), ListItemTag)
    decreases |steps|
  {
    if steps != [] {
      var init := steps[..|steps| - 1];
      var step := steps[|steps| - 1];
      forall k | 0 <= k < |init| ensures '<' !in init[k] {
        assert init[k] == steps[k];
      }
      ItemsCount(init);
      ItemCount(step);
      OccurrencesAppend(Items(init), Item(step), ListItemTag);
      var r := Items(steps);
      assert r[|r| - 5..] == ItemClose;
    }
  }

  lemma ItemCount(step: string)
    requires '<' !in step
    ensures Occurrences(Item(step), ListItemTag) == 1
  {
    TagCounts();
    OccurrencesAbsent(step, ListItemTag);
    OccurrencesAppend(step, ItemClose, ListItemTag);
    OccurrencesAppend(ItemOpen, step + ItemClose, ListItemTag);
    assert Item(step) == ItemOpen + (step + ItemClose);
  }

  lemma TagCounts()
    ensures Occurrences(ItemOpen, ListItemTag) == 1 && QuietEnd(ItemOpen, ListItemTag)
    ensures Occurrences(ItemClose, ListItemTag) == 0
  {
    CloseCount();
    OccurrencesAbsent(ListItemTag[1..], ListItemTag);
    OccurrencesAbsent(ItemIndent, ListItemTag);
    OccurrencesAppend(ItemIndent, ListItemTag, ListItemTag);
  }

  lemma CloseCount()
    ensures Occurrences(ItemClose, ListItemTag) == 0
  {
    OccurrencesAbsent(ItemClose[1..], ListItemTag);
    assert ItemClose[..4] != ListItemTag;
  }

  /** When the model's answer has no '<', the card's list holds exactly one "<li>" per
    * action step. */
  lemma OneItemPerStep(content: string)
    requires '<' !in content
    ensures Occurrences(Items(Parse(content).actions), ListItemTag) == |Parse(content).actions|
  {
    DefaultsHaveNoTag();
    ParseKeepsOut(content, '<');
    ItemsCount(Parse(content).actions);
  }

  lemma DefaultsHaveNoTag()
    ensures '<' !in DefaultCondition && '<' !in DefaultNote
    ensures forall k | 0 <= k < |DefaultActions| :: '<' !in DefaultActions[k]
  {
    DefaultConditionHasNoTag();
    DefaultActionsHaveNoTag();
  }

  lemma DefaultConditionHasNoTag()
    ensures '<' !in DefaultCondition
  {
  }

  lemma DefaultActionsHaveNoTag()
    ensures forall k | 0 <= k < |DefaultActions| :: '<' !in DefaultActions[k]
  {
  }

  // ------------------------------------------------------------ the handler

  /** diagnosis_prep_handler for the model's answer `content`: the raw answer is stored
    * as the diagnosis, the card is the next question and the criticality question is
    * the next step. */
  function DiagnosisPrepTurn(content: string): Turn
  {
    Turn(DiagnosisHtml(Parse(content)), "criticality", [Update("diagnosis", content, "")])
  }

  method DiagnosisPrep(content: string) returns (t: Turn)
    ensures t == DiagnosisPrepTurn(content)
  {
    var sections := ParseDiagnosis(content);
    var html := FormatDiagnosis(sections);
    t := Turn(html, "criticality", [Update("diagnosis", content, "")]);
  }

  /** The card is followed by the criticality question: the stored step "criticality"
    * routes to the criticality handler, and the card always names a condition and at
    * least one step. */
  lemma DiagnosisLeadsToCriticality(content: string, answer: string)
    ensures DiagnosisPrepTurn(content).step == "criticality"
    ensures ProcessStep(DetermineNextStep(DiagnosisPrepTurn(content).step, ""), answer) == Handle(AssessCriticality)
    ensures Parse(content).condition != "" && |Parse(content).actions| >= 1
  {
    CriticalityDispatch(answer);
  }
}
