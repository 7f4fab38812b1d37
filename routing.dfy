// Step routing of the backend chat endpoint (determine_next_step, process_step, the
// expected-answer table and the recovery of the stored step in backend/main.py).  A
// conversation's position is a step name stored in the user's history; each request
// routes the stored step to a node and the node to its handler.
module Routing {
  import opened Wrappers
  import opened Strings
  import opened UserStore

  const Continued := "_continued"

  /** The step_flow table: a stored step to the node that handles it. */
  const StepFlow: map<string, string> := map[
    "start" := "start",
    "initial_assessment" := "initial_assessment",
    "dynamic_symptoms" := "dynamic_symptoms",
    "injury_assessment" := "injury_assessment",
    "infection_assessment" := "infection_assessment",
    "digestive_assessment" := "digestive_assessment",
    "respiratory_assessment" := "respiratory_assessment",
    "chronic_condition" := "chronic_condition",
    "urgent_follow_up" := "urgent_follow_up",
    "emergency_services" := "emergency_services",
    "symptoms" := "collect_symptoms",
    "previous_history" := "prev_history_node",
    "medication_history" := "med_history_node",
    "additional_symptoms" := "additional_symptoms_node",
    "diagnosis_prep" := "diagnosis_prep",
    "diagnosis" := "diagnosis_node",
    "criticality" := "criticality_node",
    "end" := "end"]

  /** The node for the stored step; `customPath` is the state's custom_path, "" when
    * absent (falsy). */
  function DetermineNextStep(currentStep: string, customPath: string): string
  {
    if customPath != "" then customPath
    else if EndsWith(currentStep, Continued) then ReplaceAll(currentStep, Continued, "")
    else if currentStep in StepFlow then StepFlow[currentStep]
    else "initial_assessment"
  }

  /** The step handlers of the backend. */
  datatype Handler =
    | StartNode | AssessInitialUrgency | CollectSymptomsHandler | PreviousHistoryHandler | MedicationHistoryHandler
    | AdditionalSymptomsHandler | DiagnosisPrepHandler | GenerateDiagnosis | AssessCriticality
    | DynamicFollowUpHandler | UrgentFollowUpHandler

  /** The handlers table of process_step. */
  const Handlers: map<string, Handler> := map[
    "start" := StartNode,
    "initial_assessment" := AssessInitialUrgency,
    "collect_symptoms" := CollectSymptomsHandler,
    "prev_history_node" := PreviousHistoryHandler,
    "med_history_node" := MedicationHistoryHandler,
    "additional_symptoms_node" := AdditionalSymptomsHandler,
    "diagnosis_prep" := DiagnosisPrepHandler,
    "diagnosis_node" := GenerateDiagnosis,
    "criticality_node" := AssessCriticality,
    "dynamic_symptoms" := DynamicFollowUpHandler,
    "injury_assessment" := DynamicFollowUpHandler,
    "infection_assessment" := DynamicFollowUpHandler,
    "digestive_assessment" := DynamicFollowUpHandler,
    "respiratory_assessment" := DynamicFollowUpHandler,
    "chronic_condition" := DynamicFollowUpHandler,
    "urgent_follow_up" := UrgentFollowUpHandler,
    "emergency_services" := UrgentFollowUpHandler]

  /** Which handler a node runs; Unknown is the fallback that warns and runs start_node. */
  datatype Dispatch = Handle(handler: Handler) | Unknown

  function ProcessStep(stepName: string, response: string): Dispatch
  {
    if EndsWith(stepName, Continued) && Contains(stepName, "_continued_continued") then Handle(DiagnosisPrepHandler)
    else if stepName == "initial_assessment" && Lower(response) != "" && Contains(Lower(response), "accident") then
      Handle(AssessInitialUrgency)
    else if stepName == "diagnosis_prep" then Handle(DiagnosisPrepHandler)
    else if stepName == "additional_symptoms_node" then Handle(AdditionalSymptomsHandler)
    else if stepName in Handlers then Handle(Handlers[stepName])
    else Unknown
  }

  /** Without a custom path, every stored step that does not end in "_continued" routes
    * to a node with a handler, except "end": step_flow maps it to itself and the
    * handlers table has no entry for it, so it falls back to start_node. */
  lemma {:induction false} RoutedStepIsHandled(step: string, response: string)
    requires !EndsWith(step, Continued)
    ensures DetermineNextStep(step, "") != "end" ==> ProcessStep(DetermineNextStep(step, ""), response).Handle?
    ensures DetermineNextStep(step, "") == "end" <==> step == "end"
    ensures ProcessStep("end", response) == Unknown
  {
    var next := DetermineNextStep(step, "");
    assert next in StepFlow.Values || next == "initial_assessment";
    NoStepFlowValueIsContinued(next);
  }

  lemma NoStepFlowValueIsContinued(next: string)
    requires next in StepFlow.Values || next == "initial_assessment"
    ensures !EndsWith(next, Continued)
    ensures next != "end" ==> next in Handlers
  {
  }

  /** A name whose last character is not 'd' does not end in "_continued". */
  lemma NotContinued(s: string)
    requires s != [] && s[|s| - 1] != 'd'
    ensures !EndsWith(s, Continued)
  {
    if |s| >= |Continued| {
      assert s[|s| - |Continued|..][|Continued| - 1] == s[|s| - 1];
    }
  }

  /** A stored step ending in "_continued" is routed with every "_continued" removed. */
  lemma RoutedContinued(s: string)
    requires EndsWith(s, Continued)
    ensures DetermineNextStep(s, "") == ReplaceAll(s, Continued, "")
  {
  }

  lemma EndsWithAppended(a: string, t: string)
    ensures EndsWith(a + t, t)
  {
    assert (a + t)[|a + t| - |t|..] == t;
  }

  /** The steps questioned by the dynamic follow-up handler. */
  predicate IsDynamicStep(step: string)
  {
    step == "dynamic_symptoms" || step == "injury_assessment" || step == "infection_assessment" ||
    step == "digestive_assessment" || step == "respiratory_assessment" || step == "chronic_condition"
  }

  /** A dynamic step routes to itself and runs the dynamic follow-up handler. */
  lemma DynamicStepDispatch(step: string, response: string)
    requires IsDynamicStep(step)
    ensures DetermineNextStep(step, "") == step
    ensures ProcessStep(step, response) == Handle(DynamicFollowUpHandler)
  {
    if step == "dynamic_symptoms" || step == "injury_assessment" {
      GeneralStepsDispatch(step, response);
    } else if step == "infection_assessment" || step == "digestive_assessment" {
      OrganStepsDispatch(step, response);
    } else {
      OtherStepsDispatch(step, response);
    }
  }

  lemma GeneralStepsDispatch(step: string, response: string)
    requires step == "dynamic_symptoms" || step == "injury_assessment"
    ensures DetermineNextStep(step, "") == step
    ensures ProcessStep(step, response) == Handle(DynamicFollowUpHandler)
  {
    NotContinued(step);
  }

  lemma OrganStepsDispatch(step: string, response: string)
    requires step == "infection_assessment" || step == "digestive_assessment"
    ensures DetermineNextStep(step, "") == step
    ensures ProcessStep(step, response) == Handle(DynamicFollowUpHandler)
  {
    NotContinued(step);
  }

  lemma OtherStepsDispatch(step: string, response: string)
    requires step == "respiratory_assessment" || step == "chronic_condition"
    ensures DetermineNextStep(step, "") == step
    ensures ProcessStep(step, response) == Handle(DynamicFollowUpHandler)
  {
    NotContinued(step);
  }

  /** The urgent steps route to themselves and run the urgent follow-up handler. */
  lemma UrgentStepDispatch(step: string, response: string)
    requires step == "urgent_follow_up" || step == "emergency_services"
    ensures DetermineNextStep(step, "") == step
    ensures ProcessStep(step, response) == Handle(UrgentFollowUpHandler)
  {
    NotContinued(step);
  }

  /** The criticality question routes to the criticality handler. */
  lemma CriticalityDispatch(response: string)
    ensures ProcessStep(DetermineNextStep("criticality", ""), response) == Handle(AssessCriticality)
  {
    NotContinued("criticality");
  }

  /** A step made by appending "_continued" to a base step routes back to the base step,
    * provided the base does not itself run into a "_continued". */
  lemma {:induction false} ContinuedRoutesToBase(base: string)
    requires !Contains(base + "_continue", Continued)
    ensures DetermineNextStep(base + Continued, "") == base
  {
    var s := base + Continued;
    assert s[|s| - |Continued|..] == Continued;
    assert ContainsAt(s, Continued, |base|);
    forall j | 0 <= j < |base| ensures !ContainsAt(s, Continued, j) {
      if ContainsAt(s, Continued, j) {
        assert s[..|s| - 1] == base + "_continue";
        assert s[..|s| - 1][j..j + |Continued|] == s[j..j + |Continued|];
        assert ContainsAt(base + "_continue", Continued, j);
      }
    }
    FirstIndexFinds(s, Continued);
    assert FirstIndex(s, Continued) == Some(|base|);
    assert s[|base| + |Continued|..] == "";
    assert s[..|base|] == base;
  }

  /** A node name with a doubled "_continued" at its end forces the diagnosis. */
  lemma NestedContinuationForcesDiagnosis(base: string, response: string)
    ensures ProcessStep(base + "_continued_continued", response) == Handle(DiagnosisPrepHandler)
  {
    var s := base + "_continued_continued";
    assert s[|s| - |Continued|..] == Continued;
    assert ContainsAt(s, "_continued_continued", |base|);
  }

  /** The accident shortcut of process_step picks the handler the table would pick anyway. */
  lemma AccidentShortcutAgreesWithTable(response: string)
    ensures ProcessStep("initial_assessment", response) == Handle(AssessInitialUrgency)
  {
  }

  // ------------------------------------------------------- expected answer type

  /** expected_type_map: the kind of answer the stored step asks for. */
  const ExpectedTypes: map<string, string> := map[
    "start" := "symptoms",
    "symptoms" := "symptoms",
    "previous_history" := "previous_history",
    "medication_history" := "medication_history",
    "additional_symptoms" := "additional_symptoms",
    "diagnosis_prep" := "general",
    "diagnosis" := "general",
    "criticality" := "general",
    "end" := "general"]

  function ExpectedType(step: string): (t: string)
    ensures t in {"symptoms", "previous_history", "medication_history", "additional_symptoms", "general"}
  {
    if step in ExpectedTypes then ExpectedTypes[step] else "general"
  }

  /** A specific answer type is expected only at the step of that name, or at "start"
    * (which expects symptoms); every other step, the dynamic ones included, expects a
    * general answer. */
  lemma ExpectedTypeIsOwnStep(step: string)
    ensures ExpectedType(step) != "general" ==> ExpectedType(step) == step || (step == "start" && ExpectedType(step) == "symptoms")
    ensures step !in ExpectedTypes ==> ExpectedType(step) == "general"
  {
  }

  // ------------------------------------------------------ history recovery

  /** The value of `key` in the most recent history entry that has it; `default` when
    * none has (next(... for item in reversed(history) if key in item), default)). */
  function LastValue(history: seq<HistoryEntry>, key: string, default: string): string
    decreases |history|
  {
    if history == [] then default
    else if key in history[|history| - 1] then history[|history| - 1][key]
    else LastValue(history[..|history| - 1], key, default)
  }

  /** The stored step a returning user's request resumes from. */
  function LastStep(history: seq<HistoryEntry>): string
  {
    LastValue(history, "current_step", "start")
  }

  /** The question the answer is validated against. */
  function PreviousQuestion(history: seq<HistoryEntry>): string
  {
    LastValue(history, "current_question", "How can I help you?")
  }

  /** LastValue is the value of the latest entry holding the key, and the default
    * exactly when no entry holds it. */
  lemma {:induction false} LastValueIsLatest(history: seq<HistoryEntry>, key: string, default: string)
    ensures (forall i | 0 <= i < |history| :: key !in history[i]) ==> LastValue(history, key, default) == default
    ensures (exists i | 0 <= i < |history| :: key in history[i]) ==>
      exists i | 0 <= i < |history| && key in history[i] ::
        LastValue(history, key, default) == history[i][key] &&
        forall j | i < j < |history| :: key !in history[j]
    decreases |history|
  {
    if history != [] {
      var init := history[..|history| - 1];
      var n := |history| - 1;
      LastValueIsLatest(init, key, default);
      forall i | 0 <= i < |init| ensures init[i] == history[i] {
      }
      if key !in history[n] && exists i | 0 <= i < |history| :: key in history[i] {
        var i :| 0 <= i < |history| && key in history[i];
        assert key in init[i];
      }
    }
  }

  /** After update_user_data(key, value, details) the key's latest value is `value`
    * (for any key other than the details slot), and every key the new entry lacks keeps
    * its latest value. */
  lemma {:induction false} LastValueAfterUpdate(u: UserData, key: string, value: string, details: string, other: string, default: string)
    requires key != DetailsKey
    ensures LastValue(Updated(u, key, value, details).history, key, default) == value
    ensures other != key && (other != DetailsKey || details == "") ==>
      LastValue(Updated(u, key, value, details).history, other, default) == LastValue(u.history, other, default)
  {
    var h := Updated(u, key, value, details).history;
    UpdatedAllLogs(u, [Update(key, value, details)]);
    assert h == u.history + [Entry(key, value, details)];
    assert h[..|h| - 1] == u.history;
    EntryShape(key, value, details);
  }
}
