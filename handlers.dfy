// The keyword-driven step handlers of the backend (previous_history_handler,
// assess_initial_urgency and dynamic_follow_up_handler in backend/main.py).  Every
// language-model answer a handler uses is a parameter; a handler's effect is the next
// question, the next step and the update_user_data writes it makes.
module Handlers {
  import opened Wrappers
  import opened Strings
  import opened UserStore
  import opened ResponseValidation
  import opened Routing

  /** What a handler hands back: the next question, the next step and the writes to the
    * user's record, in order. */
  datatype Turn = Turn(question: string, step: string, writes: seq<Update>)

  /** The first word of `words` that occurs in `s`, or "" when none does. */
  function FirstMentioned(s: string, words: seq<string>): string
    decreases |words|
  {
    if words == [] then ""
    else if Contains(s, words[0]) then words[0]
    else FirstMentioned(s, words[1..])
  }

  /** FirstMentioned finds the first listed word that occurs, and "" only when none does
    * (for lists of non-empty words). */
  lemma {:induction false} FirstMentionedFinds(s: string, words: seq<string>)
    requires forall k | 0 <= k < |words| :: words[k] != ""
    ensures FirstMentioned(s, words) == "" <==> forall k | 0 <= k < |words| :: !Contains(s, words[k])
    ensures FirstMentioned(s, words) != "" ==>
      exists k | 0 <= k < |words| :: FirstMentioned(s, words) == words[k] && Contains(s, words[k]) &&
        forall j | 0 <= j < k :: !Contains(s, words[j])
    decreases |words|
  {
    if words != [] && !Contains(s, words[0]) {
      var rest := words[1..];
      FirstMentionedFinds(s, rest);
      assert forall k | 1 <= k < |words| :: words[k] == rest[k - 1];
      if FirstMentioned(s, words) != "" {
        var k :| 0 <= k < |rest| && FirstMentioned(s, rest) == rest[k] && Contains(s, rest[k]) &&
          forall j | 0 <= j < k :: !Contains(s, rest[j]);
        assert forall j | 1 <= j < k + 1 :: words[j] == rest[j - 1];
        assert FirstMentioned(s, words) == words[k + 1];
      }
    }
  }

  // ------------------------------------------------------- previous history

  const AskDiagnosis := "What was the doctor's diagnosis?"
  const AskMedication := "Have you taken any medications for this condition? If yes, what medications and did you experience any side effects?"

  /** The conditions looked for when a consultation is reported without a diagnosis. */
  const CommonConditions: seq<string> := ["fever", "flu", "cold", "infection", "virus", "allergy"]

  /** Answers that are themselves a diagnosis. */
  predicate IsConditionName(lower: string)
  {
    lower == "viral fever" || lower == "flu" || lower == "cold" || lower == "fever" || lower == "infection"
  }

  /** Whether the lower-cased answer reports a consultation ("yes", "diagnosed" or
    * "doctor said" occurs in it). */
  predicate ReportsConsultation(lower: string)
  {
    Contains(lower, "yes") || Contains(lower, "diagnosed") || Contains(lower, "doctor said")
  }

  /** The stripped text between the first and the second separator, "" when there is
    * no separator. */
  function TextAfter(lower: string, sep: string): string
    requires |sep| > 0
  {
    var parts := Split(lower, sep);
    if |parts| > 1 then Trim(parts[1], Py) else ""
  }

  /** The diagnosis read from an answer that reports a consultation. */
  function ReportedDiagnosis(lower: string): string
  {
    if Contains(lower, "with") && Contains(lower, "diagnosed") then TextAfter(lower, "with")
    else if Contains(lower, ":") then TextAfter(lower, ":")
    else FirstMentioned(lower, CommonConditions)
  }

  /** (has_consulted_doctor, extracted_diagnosis) after both parsing passes: an answer
    * that is a condition name overrides whatever the first pass found. */
  function Consultation(lower: string): (bool, string)
  {
    if IsConditionName(lower) then (true, lower)
    else if ReportsConsultation(lower) then (true, ReportedDiagnosis(lower))
    else (false, "")
  }

  const SimilarFront := "Thank you for sharing that information. Based on your previous diagnosis of "
  const SimilarMiddle := ", some similar conditions could include: "

  function SimilarConditionsQuestion(diagnosis: string, similar: string): string
  {
    SimilarFront + diagnosis + SimilarMiddle + similar + "\n\n" + AskMedication
  }

  /** previous_history_handler; `similar` is the model's list of related diagnoses (asked
    * for only when a diagnosis was extracted). */
  function PreviousHistoryTurn(response: string, similar: string): (t: Turn)
    ensures t.writes == [Update("previous_history", response, "")]
    ensures t.step == "previous_history" || t.step == "medication_history"
  {
    var lower := Lower(response);
    var writes := [Update("previous_history", response, "")];
    if lower == "yes" then Turn(AskDiagnosis, "previous_history", writes)
    else
      var (consulted, diagnosis) := Consultation(lower);
      if consulted && diagnosis != "" then
        Turn(SimilarConditionsQuestion(diagnosis, similar), "medication_history", writes)
      else if consulted then Turn(AskDiagnosis, "previous_history", writes)
      else Turn(AskMedication, "medication_history", writes)
  }

  /** The handler stays on the history step exactly when the answer is a bare "yes" or
    * reports a consultation from which no diagnosis can be read, and it then always asks
    * for the diagnosis. */
  lemma {:induction false} PreviousHistoryStays(response: string, similar: string)
    ensures var lower := Lower(response);
      PreviousHistoryTurn(response, similar).step == "previous_history" <==>
        lower == "yes" ||
        (!IsConditionName(lower) && ReportsConsultation(lower) && ReportedDiagnosis(lower) == "")
    ensures PreviousHistoryTurn(response, similar).step == "previous_history" <==>
      PreviousHistoryTurn(response, similar).question == AskDiagnosis
  {
    var lower := Lower(response);
    if lower != "yes" && IsConditionName(lower) {
      assert lower != "";
    }
    var t := PreviousHistoryTurn(response, similar);
    if t.step == "medication_history" && t.question != AskMedication {
      var d := Consultation(lower).1;
      SimilarQuestionIsNotAsk(d, similar);
    }
  }

  lemma SimilarQuestionIsNotAsk(d: string, similar: string)
    ensures SimilarConditionsQuestion(d, similar) != AskDiagnosis
  {
    assert |SimilarConditionsQuestion(d, similar)| > |AskDiagnosis|;
  }

  /** When the handler moves on with a diagnosis, the next question names it. */
  lemma {:induction false} DiagnosisNamedInQuestion(response: string, similar: string)
    requires var t := PreviousHistoryTurn(response, similar); t.step == "medication_history" && t.question != AskMedication
    ensures var d := Consultation(Lower(response)).1;
      d != "" && Contains(PreviousHistoryTurn(response, similar).question, d)
  {
    var d := Consultation(Lower(response)).1;
    NamedInSimilarQuestion(d, similar);
  }

  lemma NamedInSimilarQuestion(d: string, similar: string)
    ensures Contains(SimilarConditionsQuestion(d, similar), d)
  {
    assert ContainsAt(d, d, 0);
    ContainsAppend(SimilarFront, d, d);
    ContainsAppend(SimilarFront + d, SimilarMiddle, d);
    ContainsAppend(SimilarFront + d + SimilarMiddle, similar, d);
    ContainsAppend(SimilarFront + d + SimilarMiddle + similar, "\n\n", d);
    ContainsAppend(SimilarFront + d + SimilarMiddle + similar + "\n\n", AskMedication, d);
  }

  /** An answer that is just a condition name is taken as the diagnosis. */
  lemma ConditionNameIsDiagnosis(response: string, similar: string)
    requires IsConditionName(Lower(response))
    ensures PreviousHistoryTurn(response, similar) ==
      Turn(SimilarConditionsQuestion(Lower(response), similar), "medication_history", [Update("previous_history", response, "")])
  {
    assert Lower(response) != "yes";
  }

  /** An answer reporting no consultation moves on to the medication question. */
  lemma NoConsultationMovesOn(response: string, similar: string)
    requires !IsConditionName(Lower(response)) && !ReportsConsultation(Lower(response))
    ensures PreviousHistoryTurn(response, similar).step == "medication_history"
    ensures PreviousHistoryTurn(response, similar).question == AskMedication
  {
    assert Lower(response) != "yes" by {
      if Lower(response) == "yes" {
        assert ContainsAt(Lower(response), "yes", 0);
      }
    }
  }

  // ------------------------------------------------------- initial urgency

  /** The model's urgency assessment, already parsed from its JSON answer. */
  datatype Assessment = Assessment(urgencyLevel: string, category: string, reasoning: string, keySymptoms: seq<string>)

  /** The assessment used when the model's answer holds no parsable JSON object. */
  const DefaultAssessment := Assessment("ROUTINE", "general", "Unable to determine urgency from description", [])

  /** The result of assess_initial_urgency: the turn, the urgency level recorded and the
    * custom path it sets (None: left as it was). */
  datatype Urgency = Urgency(turn: Turn, urgencyLevel: string, customPath: Option<string>)

  /** The category-to-path table. */
  const CategoryPath: map<string, string> := map[
    "injury" := "injury_assessment",
    "infection" := "infection_assessment",
    "digestive" := "digestive_assessment",
    "respiratory" := "respiratory_assessment",
    "chronic" := "chronic_condition"]

  /** Whether the lower-cased description mentions an accident. */
  predicate MentionsAccident(lower: string)
  {
    Contains(lower, "accident") || Contains(lower, "crash") || Contains(lower, "fell") ||
    Contains(lower, "injured") || Contains(lower, "hit") || Contains(lower, "collision") ||
    Contains(lower, "car accident")
  }

  const AccidentHtml :=
    "<div class=\"urgent-message\">\n<div class=\"urgent-header\">⚠️ URGENT MEDICAL SITUATION ⚠️</div>\n" +
    "<div class=\"urgent-content\">\n  <p><strong>1.</strong> Call 911 immediately</p>\n" +
    "  <p><strong>2.</strong> Stay calm and seated</p>\n  <p><strong>3.</strong> Take aspirin if available</p>\n" +
    "  <p><strong>4.</strong> Loosen tight clothing</p>\n</div>\n" + UrgentFooter

  const UrgentFooter :=
    "<div class=\"urgent-footer\">If this is life-threatening, stop using this app and call emergency services (911) immediately.</div>\n</div>"

  function UrgentGuidanceHtml(advice: string): string
  {
    "<div class=\"urgent-message\">\n<div class=\"urgent-header\">⚠️ URGENT MEDICAL GUIDANCE ⚠️</div>\n" +
    "<div class=\"urgent-content\">\n  " + advice + "\n</div>\n" + UrgentFooter
  }

  /** The follow-up question for a chronic condition. */
  function ConditionQuestion(condition: string): string
  {
    if condition == "diabetes" then
      "Thank you for sharing that you have diabetes. Is this Type 1 or Type 2 diabetes? And are you experiencing any specific issues related to your condition right now?"
    else if condition == "diabetic" then
      "Thank you for mentioning you're diabetic. Is this Type 1 or Type 2 diabetes? And are you experiencing any specific issues related to your condition right now?"
    else if condition == "hypertension" then
      "Thank you for letting me know about your hypertension. Are you currently experiencing any symptoms like headache, dizziness, or chest pain?"
    else if condition == "asthma" then
      "Thank you for sharing that you have asthma. Are you currently experiencing any breathing difficulties or increased use of your rescue inhaler?"
    else
      "Thank you for sharing that you have " + condition + ". Could you tell me more about any current symptoms or concerns related to your condition?"
  }

  /** assess_initial_urgency.  `assessment` is the model's parsed assessment (None when
    * its answer held no JSON object), `assessmentJson` its serialisation as stored,
    * `urgentAdvice` the model's first-aid advice and `nextQuestion` its follow-up
    * question; each is used only on the path that asks the model for it. */
  function AssessUrgency(response: string, assessment: Option<Assessment>, assessmentJson: string,
                         urgentAdvice: string, nextQuestion: string): Urgency
  {
    var lower := Lower(response);
    if MentionsAccident(lower) then
      Urgency(Turn(AccidentHtml, "urgent_follow_up",
                   [Update("accident_info", response, ""), Update("symptoms", "accident injury", "")]),
              "urgent", Some("injury_assessment"))
    else
      var condition := FirstMentioned(lower, ChronicConditions);
      if condition != "" then
        Urgency(Turn(ConditionQuestion(condition), "chronic_condition",
                     [Update("medical_condition", condition, ""), Update("symptoms", condition, "")]),
                "routine", Some("chronic_condition"))
      else
        var a := assessment.GetOr(DefaultAssessment);
        var writes := [Update("urgency_assessment", assessmentJson, "")];
        if a.urgencyLevel == "URGENT" then
          Urgency(Turn(UrgentGuidanceHtml(urgentAdvice), "urgent_follow_up", writes), Lower(a.urgencyLevel), None)
        else
          var category := Lower(a.category);
          if category in CategoryPath then
            Urgency(Turn(nextQuestion, CategoryPath[category], writes), Lower(a.urgencyLevel), Some(CategoryPath[category]))
          else Urgency(Turn(nextQuestion, "dynamic_symptoms", writes), Lower(a.urgencyLevel), None)
  }

  lemma ChronicConditionsNonEmpty()
    ensures forall k | 0 <= k < |ChronicConditions| :: ChronicConditions[k] != ""
  {
  }

  /** An accident mention wins over everything else: the patient is sent to the urgent
    * follow-up and "accident injury" is recorded as a symptom. */
  lemma {:induction false} AccidentIsUrgent(response: string, assessment: Option<Assessment>, json: string, advice: string, next: string, u: UserData)
    requires MentionsAccident(Lower(response))
    ensures var r := AssessUrgency(response, assessment, json, advice, next);
      r.turn.step == "urgent_follow_up" && r.urgencyLevel == "urgent" && r.customPath == Some("injury_assessment") &&
      UpdatedAll(u, r.turn.writes).symptoms == u.symptoms + ["accident injury"]
  {
    var w := AssessUrgency(response, assessment, json, advice, next).turn.writes;
    UpdatedAllSymptoms(u, w);
    SymptomsAddedPair(w[0], w[1]);
    assert w == [w[0], w[1]];
    assert SymptomOf(w[0].key, w[0].value) == [];
  }

  /** Without an accident, the first listed chronic condition the description names sets
    * the chronic path and becomes the recorded symptom. */
  lemma {:induction false} ChronicConditionPath(response: string, assessment: Option<Assessment>, json: string, advice: string, next: string)
    requires !MentionsAccident(Lower(response))
    requires exists k | 0 <= k < |ChronicConditions| :: Contains(Lower(response), ChronicConditions[k])
    ensures var r := AssessUrgency(response, assessment, json, advice, next);
      r.turn.step == "chronic_condition" && r.customPath == Some("chronic_condition") &&
      exists k | 0 <= k < |ChronicConditions| ::
        r.turn.writes[1] == Update("symptoms", ChronicConditions[k], "") && Contains(Lower(response), ChronicConditions[k]) &&
        forall j | 0 <= j < k :: !Contains(Lower(response), ChronicConditions[j])
  {
    ChronicConditionsNonEmpty();
    FirstMentionedFinds(Lower(response), ChronicConditions);
  }

  /** Every step the urgency assessment can lead to is routed, on the next request, to
    * the dynamic follow-up handler or to the urgent follow-up handler. */
  lemma {:induction false} UrgencyStepsAreHandled(response: string, assessment: Option<Assessment>, json: string,
                                                  advice: string, next: string, answer: string)
    ensures var step := AssessUrgency(response, assessment, json, advice, next).turn.step;
      (IsDynamicStep(step) && ProcessStep(DetermineNextStep(step, ""), answer) == Handle(DynamicFollowUpHandler)) ||
      (step == "urgent_follow_up" && ProcessStep(DetermineNextStep(step, ""), answer) == Handle(UrgentFollowUpHandler))
  {
    var step := AssessUrgency(response, assessment, json, advice, next).turn.step;
    UrgencyStepIsKnown(response, assessment, json, advice, next);
    if step == "urgent_follow_up" {
      UrgentStepDispatch(step, answer);
    } else {
      DynamicStepDispatch(step, answer);
    }
  }

  lemma UrgencyStepIsKnown(response: string, assessment: Option<Assessment>, json: string, advice: string, next: string)
    ensures var step := AssessUrgency(response, assessment, json, advice, next).turn.step;
      step == "urgent_follow_up" || IsDynamicStep(step)
  {
    var category := Lower(assessment.GetOr(DefaultAssessment).category);
    if category in CategoryPath {
      CategoryPathIsDynamic(category);
    }
  }

  lemma CategoryPathIsDynamic(category: string)
    requires category in CategoryPath
    ensures IsDynamicStep(CategoryPath[category])
  {
  }

  /** Without an accident or a chronic condition, a known category (compared lower-cased)
    * selects its path, and any other category the generic dynamic questioning. */
  lemma CategorySelectsPath(response: string, a: Assessment, json: string, advice: string, next: string)
    requires !MentionsAccident(Lower(response)) && FirstMentioned(Lower(response), ChronicConditions) == ""
    requires a.urgencyLevel != "URGENT"
    ensures var r := AssessUrgency(response, Some(a), json, advice, next);
      (Lower(a.category) in CategoryPath ==>
        r.turn.step == CategoryPath[Lower(a.category)] && r.customPath == Some(r.turn.step)) &&
      (Lower(a.category) !in CategoryPath ==> r.turn.step == "dynamic_symptoms" && r.customPath == None)
  {
  }

  // ------------------------------------------------------- dynamic follow-up

  /** The model's follow-up decision, already parsed from its JSON answer. */
  datatype FollowUp = FollowUp(nextQuestion: string, moveToDiagnosis: bool, pathUpdate: Option<string>)

  /** The decision used when the model's answer holds no parsable JSON object. */
  const DefaultFollowUp := FollowUp("Could you tell me more about your symptoms?", false, None)

  const EnoughDetails := "Thank you for all this information. I have enough details now to analyze your situation and provide a preliminary diagnosis."
  const WillAnalyse := "Thank you for all this information. I'll now analyze your symptoms and provide a preliminary diagnosis."

  /** The result of dynamic_follow_up_handler: the turn, the new turn count of the
    * conversation context, and the custom path it sets (None: left as it was). */
  datatype Dynamic = Dynamic(turn: Turn, turnCount: int, customPath: Option<string>)

  /** The turn count after one more turn: 1 for a context without one. */
  function NextTurnCount(turnCount: Option<int>): int
  {
    match turnCount
    case None => 1
    case Some(n) => n + 1
  }

  /** dynamic_follow_up_handler.  `currentStep` is the state's step (it is also the key
    * the answer is stored under), `turnCount` the context's turn count, and `followUp`
    * the model's parsed decision (None when unparsable), used only below four turns. */
  function DynamicFollowUpTurn(currentStep: string, response: string, turnCount: Option<int>, followUp: Option<FollowUp>): Dynamic
  {
    var count := NextTurnCount(turnCount);
    var writes := [Update(currentStep, response, "")];
    if count >= 4 then Dynamic(Turn(EnoughDetails, "diagnosis_prep", writes), count, None)
    else
      var f := followUp.GetOr(DefaultFollowUp);
      if f.moveToDiagnosis then Dynamic(Turn(WillAnalyse, "diagnosis_prep", writes), count, None)
      else match f.pathUpdate
        case Some(p) => Dynamic(Turn(f.nextQuestion, p, writes), count, Some(p))
        case None => Dynamic(Turn(f.nextQuestion, currentStep + Continued, writes), count, None)
  }

  /** From the fourth turn on the handler goes to the diagnosis whatever the model would
    * say (it is not asked). */
  lemma FourthTurnForcesDiagnosis(currentStep: string, response: string, n: int, f1: Option<FollowUp>, f2: Option<FollowUp>)
    requires n >= 3
    ensures DynamicFollowUpTurn(currentStep, response, Some(n), f1) == DynamicFollowUpTurn(currentStep, response, Some(n), f2)
    ensures DynamicFollowUpTurn(currentStep, response, Some(n), f1).turn.step == "diagnosis_prep"
    ensures DynamicFollowUpTurn(currentStep, response, Some(n), f1).turnCount == n + 1
  {
  }

  /** Below four turns the next step is the diagnosis when the model asks for it, else
    * the model's new path, else the current step with "_continued" appended. */
  lemma FollowUpNextStep(currentStep: string, response: string, turnCount: Option<int>, f: FollowUp)
    requires NextTurnCount(turnCount) < 4
    ensures var d := DynamicFollowUpTurn(currentStep, response, turnCount, Some(f));
      (f.moveToDiagnosis ==> d.turn.step == "diagnosis_prep") &&
      (!f.moveToDiagnosis && f.pathUpdate.Some? ==> d.turn.step == f.pathUpdate.value && d.customPath == f.pathUpdate) &&
      (!f.moveToDiagnosis && f.pathUpdate.None? ==> d.turn.step == currentStep + Continued && d.turn.question == f.nextQuestion)
  {
  }

  /** The chat endpoint starts every request from a fresh context, so the turn count is
    * always 1 there and the four-turn limit never applies: a stored dynamic step grows by
    * one "_continued" per turn, and routing strips them all, so the same handler runs
    * again until the model asks for the diagnosis or a new path. */
  lemma {:induction false} FreshContextKeepsQuestioning(base: string, k: nat, response: string, answer: string)
    requires IsDynamicStep(base) && !Contains(base + "_continue", Continued)
    ensures var stored := base + Repeat(Continued, k);
      var d := DynamicFollowUpTurn(stored, response, None, None);
      ProcessStep(DetermineNextStep(stored, ""), answer) == Handle(DynamicFollowUpHandler) &&
      d.turnCount == 1 && d.turn.step == base + Repeat(Continued, k + 1)
  {
    var stored := base + Repeat(Continued, k);
    DynamicStepDispatch(base, answer);
    if k == 0 {
      assert stored == base;
    } else {
      StrippedContinuations(base, k);
    }
    RepeatSnoc(Continued, k);
    Assoc(base, Repeat(Continued, k), Continued);
  }

  /** `t` repeated `k` times. */
  function Repeat(t: string, k: nat): string
    decreases k
  {
    if k == 0 then "" else t + Repeat(t, k - 1)
  }

  lemma {:induction false} RepeatSnoc(t: string, k: nat)
    ensures Repeat(t, k) + t == Repeat(t, k + 1)
    decreases k
  {
    if k > 0 {
      RepeatSnoc(t, k - 1);
      Assoc(t, Repeat(t, k - 1), t);
    }
  }

  /** Routing a step with k >= 1 trailing "_continued"s strips all of them. */
  lemma {:induction false} StrippedContinuations(base: string, k: nat)
    requires k >= 1 && !Contains(base + "_continue", Continued)
    ensures DetermineNextStep(base + Repeat(Continued, k), "") == base
  {
    var r := Repeat(Continued, k - 1);
    RepeatSnoc(Continued, k - 1);
    Assoc(base, r, Continued);
    EndsWithAppended(base + r, Continued);
    assert Repeat(Continued, k) == Continued + r;
    Assoc(base, Continued, r);
    RepeatVanishes(k - 1);
    StripAfterBase(base, r);
    RoutedContinued(base + Repeat(Continued, k));
  }

  /** Removing every "_continued" from base + "_continued" + rest leaves the base when
    * it leaves nothing of the rest. */
  lemma {:induction false} StripAfterBase(base: string, rest: string)
    requires !Contains(base + "_continue", Continued)
    requires ReplaceAll(rest, Continued, "") == ""
    ensures ReplaceAll(base + Continued + rest, Continued, "") == base
  {
    var s := base + Continued + rest;
    FirstAfterBase(base, rest);
    assert s[..|base|] == base;
    assert s[|base| + |Continued|..] == rest;
  }

  /** In base + "_continued" + rest, the first "_continued" is the one after the base. */
  lemma {:induction false} FirstAfterBase(base: string, rest: string)
    requires !Contains(base + "_continue", Continued)
    ensures FirstIndex(base + Continued + rest, Continued) == Some(|base|)
  {
    var s := base + Continued + rest;
    assert s[|base|..|base| + |Continued|] == Continued;
    assert ContainsAt(s, Continued, |base|);
    forall j | 0 <= j < |base| ensures !ContainsAt(s, Continued, j) {
      if ContainsAt(s, Continued, j) {
        assert s[..|base| + |Continued| - 1] == base + "_continue";
        assert s[..|base| + |Continued| - 1][j..j + |Continued|] == s[j..j + |Continued|];
        assert ContainsAt(base + "_continue", Continued, j);
      }
    }
    FirstIndexFinds(s, Continued);
  }

  /** Removing every "_continued" from a run of them leaves nothing. */
  lemma {:induction false} RepeatVanishes(k: nat)
    ensures ReplaceAll(Repeat(Continued, k), Continued, "") == ""
    decreases k
  {
    if k > 0 {
      RepeatVanishes(k - 1);
      FirstAfterBase("", Repeat(Continued, k - 1));
      assert "" + Continued + Repeat(Continued, k - 1) == Repeat(Continued, k);
      assert Repeat(Continued, k)[|Continued|..] == Repeat(Continued, k - 1);
    } else {
      assert !Contains("", Continued);
      ReplaceAllWithout("", Continued, "");
    }
  }
}
