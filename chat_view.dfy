// The pure helpers of the chat page (frontend/src/ChatPage.jsx): the message record, the
// recommendation test, the tests made on a message when it is shown, the step label, the
// progress list of the sidebar and the title of a saved exchange.
module ChatView {
  import opened Strings
  import opened DiagnosisCard
  import opened UrgentAdvice

  datatype Role = User | Assistant

  /** A chat message; `isLoading` marks the placeholders shown while a request runs. */
  datatype Message = Message(role: Role, content: string, isLoading: bool)

  function Bot(content: string): Message
  {
    Message(Assistant, content, false)
  }

  // ------------------------------------------------------ recommendations

  /** The recommendation markers of one message text. */
  predicate Recommends(content: string)
  {
    Contains(content, "URGENCY LEVEL") || Contains(content, "PRECAUTIONS") || Contains(content, "TIMEFRAME") ||
    (Contains(content, "LIKELY CONDITION") && Contains(content, "ACTION STEPS"))
  }

  /** hasReachedRecommendations: some message of the conversation carries a marker. */
  predicate HasReachedRecommendations(messages: seq<Message>)
  {
    exists i | 0 <= i < |messages| :: Recommends(messages[i].content)
  }

  /** Adding messages never takes the recommendations back, and one added message brings
    * them exactly when it carries a marker itself. */
  lemma {:induction false} RecommendationsAfterAppend(messages: seq<Message>, m: Message)
    ensures HasReachedRecommendations(messages + [m]) <==>
      HasReachedRecommendations(messages) || Recommends(m.content)
  {
    var all := messages + [m];
    if HasReachedRecommendations(messages) {
      var i :| 0 <= i < |messages| && Recommends(messages[i].content);
      assert all[i] == messages[i];
    }
    if Recommends(m.content) {
      assert all[|messages|] == m;
    }
    if HasReachedRecommendations(all) {
      var i :| 0 <= i < |all| && Recommends(all[i].content);
      if i < |messages| {
        assert all[i] == messages[i];
      }
    }
  }

  /** The diagnosis card of the backend carries both headers, so showing it reaches the
    * recommendations. */
  lemma DiagnosisCardRecommends(s: Sections)
    ensures Recommends(DiagnosisHtml(s))
  {
    CardHeadShows();
    ListHeadShows();
    ContainsInSeven(CardHead, s.condition, ListHead, Items(s.actions), NoteHead, s.note, CardEnd, "LIKELY CONDITION");
    ContainsInSeven(CardHead, s.condition, ListHead, Items(s.actions), NoteHead, s.note, CardEnd, "ACTION STEPS");
  }

  lemma {:induction false} CardHeadShows()
    ensures Contains(CardHead, "LIKELY CONDITION") && Contains(CardHead, "<div class=")
  {
    var open := "<div class=";
    var lc := "LIKELY CONDITION";
    var mark := "\"diagnosis-card\">";
    ContainsMiddle("\n  <div class=\"diagnosis-header\">", lc, "</div>");
    ContainsAppend(open + mark, CardHeader(lc), lc);
    ContainsAppend(open + mark + CardHeader(lc), "\n  <div class=\"diagnosis-content\">", lc);
    assert ContainsAt(open, open, 0);
    ContainsAppend(open, mark, open);
    ContainsAppend(open + mark, CardHeader(lc), open);
    ContainsAppend(open + mark + CardHeader(lc), "\n  <div class=\"diagnosis-content\">", open);
  }

  lemma {:induction false} ListHeadShows()
    ensures Contains(ListHead, "ACTION STEPS")
  {
    var steps := "ACTION STEPS";
    ContainsMiddle("\n  <div class=\"diagnosis-header\">", steps, "</div>");
    ContainsAppend("</div>\n  ", CardHeader(steps), steps);
    ContainsAppend("</div>\n  " + CardHeader(steps), "\n  <ul class=\"diagnosis-list\">", steps);
  }

  /** What the first or the third of seven pieces contains, their concatenation contains. */
  lemma {:induction false} ContainsInSeven(a: string, b: string, c: string, d: string, e: string, f: string, g: string,
                                           t: string)
    requires Contains(a, t) || Contains(c, t)
    ensures Contains(a + b + c + d + e + f + g, t)
  {
    if Contains(a, t) {
      ContainsAppend(a, b, t);
    }
    ContainsAppend(a + b, c, t);
    ContainsAppend(a + b + c, d, t);
    ContainsAppend(a + b + c + d, e, t);
    ContainsAppend(a + b + c + d + e, f, t);
    ContainsAppend(a + b + c + d + e + f, g, t);
  }

  // ------------------------------------------------------ message tests

  /** isInvalidFeedback: the validation complaint, never flagged in the first three
    * exchanges. */
  predicate IsInvalidFeedback(m: Message, messageCount: int)
  {
    messageCount >= 3 && m.role == Assistant && Contains(m.content, "doesn't seem to address my question")
  }

  /** A request for the missing part of an answer, after the first three exchanges. */
  predicate IsPartialAnswer(m: Message, messageCount: int)
  {
    m.role == Assistant && messageCount >= 3 &&
    (Contains(m.content, "Could you please also tell me about") ||
     Contains(m.content, "You mentioned seeing a doctor") ||
     Contains(m.content, "also share what diagnosis"))
  }

  /** The message gets a "Get Diagnosis" button. */
  predicate NeedsContinuation(m: Message)
  {
    m.role == Assistant &&
    (Contains(m.content, AnalyzePhrase) || Contains(m.content, PreliminaryDiagnosis))
  }

  /** The message is shown as HTML. */
  predicate ContainsHtml(m: Message)
  {
    m.role == Assistant &&
    (Contains(m.content, "<div class=\"") || Contains(m.content, "<div class=") || Contains(m.content, "</div>"))
  }

  predicate IsDiagnosis(m: Message)
  {
    m.role == Assistant && (Contains(m.content, "LIKELY CONDITION") || Contains(m.content, "## LIKELY CONDITION"))
  }

  /** The colour of a message bubble, first match wins. */
  datatype Bubble = UserBubble | InvalidBubble | PartialBubble | DiagnosisBubble | PlainBubble

  function BubbleOf(m: Message, messageCount: int): (b: Bubble)
    ensures b == UserBubble <==> m.role == User
    ensures messageCount < 3 ==> b != InvalidBubble && b != PartialBubble
    ensures b == DiagnosisBubble ==> !ContainsHtml(m)
  {
    if m.role == User then UserBubble
    else if IsInvalidFeedback(m, messageCount) then InvalidBubble
    else if IsPartialAnswer(m, messageCount) then PartialBubble
    else if IsDiagnosis(m) && !ContainsHtml(m) then DiagnosisBubble
    else PlainBubble
  }

  /** How the text of a message is shown: as HTML, split into "##" sections, or verbatim. */
  datatype Body = HtmlBody | SectionsBody | TextBody

  function BodyOf(m: Message): Body
  {
    if ContainsHtml(m) then HtmlBody else if IsDiagnosis(m) then SectionsBody else TextBody
  }

  /** The "Continue Anyway" button. */
  predicate ShowsContinueAnyway(m: Message, messageCount: int)
  {
    IsInvalidFeedback(m, messageCount) || IsPartialAnswer(m, messageCount)
  }

  /** The second diagnosis test adds nothing: the marker with "## " contains the plain one. */
  lemma IsDiagnosisMeans(m: Message)
    ensures IsDiagnosis(m) <==> m.role == Assistant && Contains(m.content, "LIKELY CONDITION")
  {
    if Contains(m.content, "## LIKELY CONDITION") {
      assert ContainsAt("## LIKELY CONDITION", "LIKELY CONDITION", 3);
      ContainsTrans(m.content, "## LIKELY CONDITION", "LIKELY CONDITION");
    }
  }

  /** Likewise the first HTML test is covered by the second. */
  lemma ContainsHtmlMeans(m: Message)
    ensures ContainsHtml(m) <==>
      m.role == Assistant && (Contains(m.content, "<div class=") || Contains(m.content, "</div>"))
  {
    if Contains(m.content, "<div class=\"") {
      assert ContainsAt("<div class=\"", "<div class=", 0);
      ContainsTrans(m.content, "<div class=\"", "<div class=");
    }
  }

  /** The cards the backend sends are shown as HTML, never split into sections. */
  lemma CardsAreHtml(s: Sections, header: string, steps: seq<string>, footer: string)
    requires |steps| >= 4
    ensures BodyOf(Bot(DiagnosisHtml(s))) == HtmlBody
    ensures BodyOf(Bot(UrgentCard(header, steps, footer))) == HtmlBody
  {
    CardHeadShows();
    ContainsInSeven(CardHead, s.condition, ListHead, Items(s.actions), NoteHead, s.note, CardEnd, "<div class=");
    ContainsHtmlMeans(Bot(DiagnosisHtml(s)));
    CardTopShows(header);
    CardShows(header, steps, footer, 0, "<div class=");
    ContainsHtmlMeans(Bot(UrgentCard(header, steps, footer)));
  }

  lemma {:induction false} CardTopShows(header: string)
    ensures Contains(CardTop(header), "<div class=")
  {
    var open := "<div class=";
    var mark := "\"urgent-message\">\n<div class=\"urgent-header\">";
    assert ContainsAt(open, open, 0);
    ContainsAppend(open, mark, open);
    ContainsAppend(open + mark, header, open);
    ContainsAppend(open + mark + header, "</div>\n<div class=\"urgent-content\">\n  <p><strong>1.</strong> ", open);
  }

  /** The phrases after which the page continues by itself (AnalyzePhrase, the longer
    * one around PreliminaryDiagnosis, ThanksPhrase). */
  const AnalyzePhrase := "I'll now analyze your symptoms"
  const PreliminaryDiagnosis := "provide a preliminary diagnosis"
  const AutoContinuePhrases: seq<string> := [
    AnalyzePhrase,
    "analyze all your symptoms and " + PreliminaryDiagnosis,
    "Thank you for sharing " + "these additional " + "symptoms"]

  /** An assistant message with one of the first two phrases also gets the button. */
  lemma {:induction false} AutoContinueShowsButton(m: Message)
    requires m.role == Assistant
    ensures Contains(m.content, AutoContinuePhrases[0]) || Contains(m.content, AutoContinuePhrases[1]) ==>
      NeedsContinuation(m)
  {
    if Contains(m.content, AutoContinuePhrases[1]) {
      var lead := "analyze all your symptoms and ";
      ContainsMiddle(lead, PreliminaryDiagnosis, "");
      assert lead + PreliminaryDiagnosis + "" == AutoContinuePhrases[1];
      ContainsTrans(m.content, AutoContinuePhrases[1], PreliminaryDiagnosis);
    }
  }

  /** The third phrase continues the conversation by itself without the button. */
  lemma ThanksShowsNoButton()
    ensures !NeedsContinuation(Bot(AutoContinuePhrases[2]))
  {
    ThanksLacks('I');
    ThanksLacks('v');
    assert AnalyzePhrase[0] == 'I';
    assert PreliminaryDiagnosis[3] == 'v';
    NotContainsByChar(AutoContinuePhrases[2], AnalyzePhrase, 'I');
    NotContainsByChar(AutoContinuePhrases[2], PreliminaryDiagnosis, 'v');
  }

  lemma ThanksLacks(c: char)
    requires c == 'I' || c == 'v'
    ensures c !in AutoContinuePhrases[2]
  {
    var a, b, d := "Thank you for sharing ", "these additional ", "symptoms";
    assert c !in a && c !in b && c !in d;
    assert c !in a + b;
  }

  // ------------------------------------------------------ step label

  /** getStepInfo's name: "Consultation Complete" once the conversation is complete,
    * otherwise the label of the step, "Consultation" for a step the table lacks. */
  function StepLabel(step: string, complete: bool): (name: string)
    ensures complete ==> name == "Consultation Complete"
  {
    if complete then "Consultation Complete"
    else if step == "start" then "Welcome"
    else if step == "symptoms" then "Collecting Symptoms"
    else if step == "previous_history" then "Medical History"
    else if step == "medication_history" then "Medication History"
    else if step == "additional_symptoms" then "Additional Symptoms"
    else if step == "diagnosis" || step == "diagnosis_prep" || step == "diagnosis_node" then "Diagnosis"
    else if step == "criticality" || step == "criticality_node" then "Recommendations"
    else if step == "end" then "Consultation Complete"
    else "Consultation"
  }

  // ------------------------------------------------------ progress

  /** The entries of the progress list, in display order. */
  const ProgressKeys: seq<string> :=
    ["symptoms", "previous_history", "medication_history", "additional_symptoms", "diagnosis", "criticality"]

  /** For each step, the number of progress entries its stepsCompleted list holds (every
    * list there is the first entries of the progress list); 0 for a step the table lacks. */
  function StageOf(step: string): (n: nat)
    ensures n <= |ProgressKeys|
  {
    if step in {"initial_assessment", "dynamic_symptoms", "injury_assessment", "infection_assessment",
                "digestive_assessment", "respiratory_assessment", "chronic_condition", "urgent_follow_up",
                "emergency_services"} then 1
    else if step == "previous_history" || step == "prev_history_node" then 2
    else if step == "medication_history" || step == "med_history_node" then 3
    else if step == "additional_symptoms" || step == "additional_symptoms_node" then 4
    else if step == "diagnosis_prep" || step == "diagnosis" || step == "diagnosis_node" then 5
    else if step == "criticality" || step == "criticality_node" || step == "end" then 6
    else 0
  }

  function CompletedSteps(step: string): seq<string>
  {
    ProgressKeys[..StageOf(step)]
  }

  /** The record fetched from /user: the fields the sidebar shows. */
  datatype PatientData = PatientData(
    symptoms: seq<string>,
    previousHistory: string,
    medicationHistory: string,
    additionalSymptoms: string,
    diagnosis: string,
    critical: bool)

  const BlankPatient := PatientData([], "", "", "", "", false)

  /** The record can mark an entry completed whatever the step says. */
  predicate RecordShows(key: string, p: PatientData, complete: bool)
  {
    if key == "symptoms" then |p.symptoms| > 0
    else if key == "previous_history" then p.previousHistory != ""
    else if key == "medication_history" then p.medicationHistory != ""
    else if key == "additional_symptoms" then p.additionalSymptoms != ""
    else if key == "diagnosis" then p.diagnosis != ""
    else key == "criticality" && complete
  }

  /** Whether the sidebar shows the progress entry `key` as done. */
  predicate IsCompleted(key: string, step: string, p: PatientData, complete: bool)
  {
    key in CompletedSteps(step) || RecordShows(key, p, complete)
  }

  lemma ProgressKeysDistinct()
    ensures forall i, j | 0 <= i < j < |ProgressKeys| :: ProgressKeys[i] != ProgressKeys[j]
  {
  }

  /** By the step alone, an entry is done only when every earlier entry is done. */
  lemma {:induction false} ProgressIsOrdered(step: string, i: nat, j: nat)
    requires i <= j < |ProgressKeys| && ProgressKeys[j] in CompletedSteps(step)
    ensures ProgressKeys[i] in CompletedSteps(step)
  {
    ProgressKeysDistinct();
    var done := CompletedSteps(step);
    var k :| 0 <= k < |done| && done[k] == ProgressKeys[j];
    assert done[k] == ProgressKeys[k];
    assert k == j;
    assert done[i] == ProgressKeys[i];
  }

  /** The steps that complete the conversation also complete the whole progress list. */
  lemma FinalStepsCompleteProgress(step: string, p: PatientData, complete: bool)
    requires step == "end" || step == "criticality" || step == "criticality_node"
    ensures forall k | 0 <= k < |ProgressKeys| :: IsCompleted(ProgressKeys[k], step, p, complete)
  {
    assert CompletedSteps(step) == ProgressKeys;
  }

  /** "Recommendations" is done exactly when the step is final or the conversation is
    * complete. */
  lemma RecommendationsEntry(step: string, p: PatientData, complete: bool)
    ensures IsCompleted("criticality", step, p, complete) <==> StageOf(step) == 6 || complete
  {
    ProgressKeysDistinct();
    if "criticality" in CompletedSteps(step) {
      var done := CompletedSteps(step);
      var k :| 0 <= k < |done| && done[k] == "criticality";
      assert done[k] == ProgressKeys[k];
      assert ProgressKeys[5] == "criticality";
      assert k == 5;
    }
    if StageOf(step) == 6 {
      assert CompletedSteps(step)[5] == "criticality";
    }
  }

  // ------------------------------------------------------ saved exchange

  /** The title of an exchange saved by updateChatHistory: the first 20 characters of the
    * user message and "..." when the message is longer. */
  function ChatTitle(userMessage: string): (title: string)
    ensures |title| <= 23
    ensures |userMessage| <= 20 ==> title == userMessage
    ensures |userMessage| > 20 ==> |title| == 23 && title[..20] == userMessage[..20]
  {
    if |userMessage| > 20 then userMessage[..20] + "..." else userMessage
  }

  /** A title is its own title. */
  lemma ChatTitleIdempotent(userMessage: string)
    ensures ChatTitle(ChatTitle(userMessage)) == ChatTitle(userMessage)
  {
    if |userMessage| > 20 {
      var t := userMessage[..20] + "...";
      assert t[..20] == userMessage[..20];
    }
  }
}
