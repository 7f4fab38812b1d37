// The emergency message of urgent_follow_up_handler in backend/main.py: the numbered
// steps found in the model's advice (when there are at least three matches), padded
// with fixed first-aid steps up to four, shown as four numbered paragraphs.
module UrgentAdvice {
  import opened Strings
  import opened UserStore
  import opened Routing
  import opened Handlers

  const DefaultUrgentSteps: seq<string> := [
    "Call emergency services (911) immediately",
    "Sit upright and try to stay calm",
    "Remove any restrictive clothing",
    "Breathe slowly through pursed lips"]

  /** The non-blank matches, stripped, in order. */
  function StrippedMatches(matches: seq<string>): seq<string>
    decreases |matches|
  {
    if matches == [] then []
    else (if Trim(matches[0], Py) != "" then [Trim(matches[0], Py)] else []) + StrippedMatches(matches[1..])
  }

  /** The steps taken from the numbered matches of the advice (the regular expression's
    * findall result), or the defaults when there are fewer than three matches. */
  function ExtractedSteps(matches: seq<string>): seq<string>
  {
    if |matches| >= 3 then StrippedMatches(matches) else DefaultUrgentSteps
  }

  /** The steps completed to four from the default at each missing position. */
  function Padded(steps: seq<string>): (r: seq<string>)
    ensures |r| == if |steps| >= 4 then |steps| else 4
    ensures r[..|steps|] == steps
    ensures forall i | |steps| <= i < |r| :: r[i] == DefaultUrgentSteps[i]
  {
    if |steps| >= 4 then steps else steps + DefaultUrgentSteps[|steps|..]
  }

  /** The padding loop: append the default of the next position while fewer than four. */
  method PadSteps(steps: seq<string>) returns (r: seq<string>)
    ensures r == Padded(steps)
  {
    r := steps;
    while |r| < 4
      invariant |steps| <= |r| <= if |steps| >= 4 then |steps| else 4
      invariant |steps| >= 4 ==> r == steps
      invariant |steps| < 4 ==> r == steps + DefaultUrgentSteps[|steps|..|r|]
      decreases 4 - |r|
    {
      r := r + [DefaultUrgentSteps[|r|]];
    }
    assert |steps| < 4 ==> DefaultUrgentSteps[|steps|..|r|] == DefaultUrgentSteps[|steps|..];
  }

  /** The emergency message: a header, four numbered steps and a footer (the same
    * layout serves the asthma emergency of force_diagnosis). */
  function UrgentCard(header: string, steps: seq<string>, footer: string): string
    requires |steps| >= 4
  {
    CardTop(header) + steps[0] + NumberedLine("2") + steps[1] + NumberedLine("3") + steps[2] +
    NumberedLine("4") + steps[3] + CardBottom(footer)
  }

  /** The text up to the first step. */
  function CardTop(header: string): string
  {
    "<div class=" + "\"urgent-message\">\n<div class=\"urgent-header\">" + header +
    "</div>\n<div class=\"urgent-content\">\n  <p><strong>1.</strong> "
  }

  /** The text between the step shown at position n - 1 and the one at n. */
  function NumberedLine(n: string): string
  {
    "</p>\n  <p><strong>" + n + ".</strong> "
  }

  /** The text after the last step. */
  function CardBottom(footer: string): string
  {
    "</p>\n</div>\n<div class=\"urgent-footer\">" + footer + "</div>\n</div>"
  }

  const FollowUpHeader := "⚠️ URGENT MEDICAL SITUATION ⚠️"
  const FollowUpFooter := "If this is life-threatening, stop using this app and call emergency services (911) immediately."

  /** The message of the urgent follow-up, showing the first four steps. */
  function UrgentHtml(steps: seq<string>): string
    requires |steps| >= 4
  {
    UrgentCard(FollowUpHeader, steps, FollowUpFooter)
  }

  /** The nine pieces of the message, in order. */
  function CardPieces(header: string, steps: seq<string>, footer: string): (p: seq<string>)
    requires |steps| >= 4
    ensures |p| == 9
  {
    [CardTop(header), steps[0], NumberedLine("2"), steps[1], NumberedLine("3"), steps[2],
     NumberedLine("4"), steps[3], CardBottom(footer)]
  }

  /** What a piece contains, the message contains. */
  lemma {:induction false} CardShows(header: string, steps: seq<string>, footer: string, k: nat, t: string)
    requires |steps| >= 4 && k < 9 && Contains(CardPieces(header, steps, footer)[k], t)
    ensures Contains(UrgentCard(header, steps, footer), t)
  {
    var pieces := CardPieces(header, steps, footer);
    ConcatContains(pieces, k, t);
    ConcatNine(pieces);
  }

  /** Each of the first four steps appears in the message. */
  lemma {:induction false} UrgentHtmlShowsSteps(steps: seq<string>, i: nat)
    requires |steps| >= 4 && i < 4
    ensures Contains(UrgentHtml(steps), steps[i])
  {
    var s := steps[i];
    assert ContainsAt(s, s, 0);
    assert CardPieces(FollowUpHeader, steps, FollowUpFooter)[2 * i + 1] == s;
    CardShows(FollowUpHeader, steps, FollowUpFooter, 2 * i + 1, s);
  }

  /** The concatenation of a list of strings. */
  function Concat(pieces: seq<string>): string
    decreases |pieces|
  {
    if pieces == [] then "" else Concat(pieces[..|pieces| - 1]) + pieces[|pieces| - 1]
  }

  lemma {:induction false} ConcatContains(pieces: seq<string>, k: nat, t: string)
    requires k < |pieces| && Contains(pieces[k], t)
    ensures Contains(Concat(pieces), t)
    decreases |pieces|
  {
    var init := pieces[..|pieces| - 1];
    if k == |pieces| - 1 {
      ContainsAppend(Concat(init), pieces[k], t);
    } else {
      assert init[k] == pieces[k];
      ConcatContains(init, k, t);
      ContainsAppend(Concat(init), pieces[|pieces| - 1], t);
    }
  }

  lemma ConcatNine(p: seq<string>)
    requires |p| == 9
    ensures Concat(p) == p[0] + p[1] + p[2] + p[3] + p[4] + p[5] + p[6] + p[7] + p[8]
  {
    forall k | 0 <= k < 9 ensures Concat(p[..k + 1]) == Concat(p[..k]) + p[k] {
      assert p[..k + 1][..k] == p[..k];
    }
    assert p[..9] == p;
    assert p[..0] == [];
  }

  // ------------------------------------------------------------ the handler

  /** urgent_follow_up_handler for the patient's `response` and the numbered matches of
    * the model's advice: the response is recorded and the emergency message follows. */
  function UrgentFollowUpTurn(response: string, matches: seq<string>): Turn
  {
    Turn(UrgentHtml(Padded(ExtractedSteps(matches))), "emergency_services", [Update("urgent_follow_up", response, "")])
  }

  method UrgentFollowUp(response: string, matches: seq<string>) returns (t: Turn)
    ensures t == UrgentFollowUpTurn(response, matches)
  {
    var steps := ExtractedSteps(matches);
    steps := PadSteps(steps);
    t := Turn(UrgentHtml(steps), "emergency_services", [Update("urgent_follow_up", response, "")]);
  }

  /** With fewer than three matches, or only blank ones, the four default steps are shown. */
  lemma {:induction false} DefaultsWhenNothingExtracted(matches: seq<string>)
    requires |matches| < 3 || forall k | 0 <= k < |matches| :: Trim(matches[k], Py) == ""
    ensures Padded(ExtractedSteps(matches)) == DefaultUrgentSteps
  {
    if |matches| >= 3 {
      BlankMatchesVanish(matches);
    }
  }

  lemma {:induction false} BlankMatchesVanish(matches: seq<string>)
    requires forall k | 0 <= k < |matches| :: Trim(matches[k], Py) == ""
    ensures StrippedMatches(matches) == []
    decreases |matches|
  {
    if matches != [] {
      assert Trim(matches[0], Py) == "";
      BlankMatchesVanish(matches[1..]);
    }
  }

  /** No step shown is empty: the extracted ones are non-blank after stripping. */
  lemma ShownStepsNonEmpty(matches: seq<string>)
    ensures var shown := Padded(ExtractedSteps(matches));
      |shown| >= 4 && forall i | 0 <= i < |shown| :: shown[i] != ""
  {
    var steps := ExtractedSteps(matches);
    if |matches| >= 3 {
      StrippedMatchesNonEmpty(matches);
    }
    var shown := Padded(steps);
    forall i | 0 <= i < |shown| ensures shown[i] != "" {
      if i < |steps| {
        assert shown[i] == shown[..|steps|][i];
      }
    }
  }

  lemma {:induction false} StrippedMatchesNonEmpty(matches: seq<string>)
    ensures forall k | 0 <= k < |StrippedMatches(matches)| :: StrippedMatches(matches)[k] != ""
    decreases |matches|
  {
    if matches != [] {
      StrippedMatchesNonEmpty(matches[1..]);
      var head := if Trim(matches[0], Py) != "" then [Trim(matches[0], Py)] else [];
      assert StrippedMatches(matches) == head + StrippedMatches(matches[1..]);
    }
  }

  /** The stored step "emergency_services" keeps the conversation in the urgent handler. */
  lemma EmergencyStaysUrgent(response: string, matches: seq<string>, answer: string)
    ensures UrgentFollowUpTurn(response, matches).step == "emergency_services"
    ensures ProcessStep(DetermineNextStep(UrgentFollowUpTurn(response, matches).step, ""), answer) ==
      Handle(UrgentFollowUpHandler)
  {
    UrgentStepDispatch("emergency_services", answer);
  }
}
