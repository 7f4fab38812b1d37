// The deterministic part of answer validation in the backend (validate_response up to
// the model call, and validate_multi_part_response in backend/main.py).  An answer is
// checked against the kind of answer the current step expects; some answers are
// decided by keyword rules, the rest are handed to the language model.
module ResponseValidation {
  import opened Wrappers
  import opened Strings

  /** The chronic conditions the backend recognises, in the order it lists them. */
  const ChronicConditions: seq<string> := ["diabetes", "diabetic", "hypertension", "asthma", "copd", "arthritis", "thyroid"]

  /** Whether a symptoms answer discloses a medical condition (one of "diabetes",
    * "diabetic", "hypertension", "asthma", "chronic" occurs in it). */
  predicate NamesChronicTrigger(s: string)
  {
    Contains(s, "diabetes") || Contains(s, "diabetic") || Contains(s, "hypertension") ||
    Contains(s, "asthma") || Contains(s, "chronic")
  }

  /** Whether a short symptoms answer names a complaint (one of "diabetes", "pain",
    * "ache", "hurt", "sick" occurs in it). */
  predicate NamesComplaint(s: string)
  {
    Contains(s, "diabetes") || Contains(s, "pain") || Contains(s, "ache") || Contains(s, "hurt") || Contains(s, "sick")
  }

  /** The words of `words` that occur in `s`, in list order. */
  function Mentioned(s: string, words: seq<string>): seq<string>
    decreases |words|
  {
    if words == [] then []
    else (if Contains(s, words[0]) then [words[0]] else []) + Mentioned(s, words[1..])
  }

  lemma {:induction false} MentionedMembers(s: string, words: seq<string>)
    ensures forall w :: w in Mentioned(s, words) <==> w in words && Contains(s, w)
    decreases |words|
  {
    if words != [] {
      MentionedMembers(s, words[1..]);
      assert words == [words[0]] + words[1..];
    }
  }

  // ------------------------------------------------------------ multi-part

  /** A two- or three-part question: its part phrases, the words that show the first part
    * was answered, and the words that show the follow-up was answered too. */
  datatype MultiPartPattern = MultiPartPattern(parts: seq<string>, triggers: seq<string>, followUps: seq<string>)

  function PatternFor(expectedType: string): (p: Option<MultiPartPattern>)
    ensures p.Some? ==> |p.value.parts| >= 2
  {
    if expectedType == "previous_history" then
      Some(MultiPartPattern(
        ["Have you consulted a doctor", "what was their diagnosis"],
        ["yes", "i have", "i did", "consulted"],
        ["diagnosis", "said", "told me", "found"]))
    else if expectedType == "medication_history" then
      Some(MultiPartPattern(
        ["Have you taken any medications", "what medications", "side effects"],
        ["yes", "i have", "i did", "taking", "took"],
        ["medication", "drug", "pill", "medicine", "paracetamol", "ibuprofen"]))
    else None
  }

  datatype Completeness = Complete | Incomplete(missingPart: string)

  function ValidateMultiPart(question: string, response: string, expectedType: string): Completeness
  {
    match PatternFor(expectedType)
    case None => Complete
    case Some(p) =>
      var lower := Lower(response);
      if ContainsAny(lower, p.triggers) && !ContainsAny(lower, p.followUps) then
        Incomplete(if Contains(Lower(question), p.parts[0]) then p.parts[1] else p.parts[0])
      else Complete
  }

  /** An answer is incomplete exactly when its type has a multi-part pattern, some trigger
    * word occurs in it and no follow-up word does. */
  lemma {:induction false} MultiPartIncompleteMeans(question: string, response: string, expectedType: string)
    ensures ValidateMultiPart(question, response, expectedType).Incomplete? <==>
      PatternFor(expectedType).Some? &&
      (exists k | 0 <= k < |PatternFor(expectedType).value.triggers| ::
        Contains(Lower(response), PatternFor(expectedType).value.triggers[k])) &&
      (forall k | 0 <= k < |PatternFor(expectedType).value.followUps| ::
        !Contains(Lower(response), PatternFor(expectedType).value.followUps[k]))
    ensures expectedType != "previous_history" && expectedType != "medication_history" ==>
      ValidateMultiPart(question, response, expectedType) == Complete
  {
    if PatternFor(expectedType).Some? {
      var p := PatternFor(expectedType).value;
      ContainsAnyMeans(Lower(response), p.triggers);
      ContainsAnyMeans(Lower(response), p.followUps);
    }
  }

  /** The first part phrase starts with a capital letter but is looked for in the
    * lower-cased question, so it is never found: the missing part reported is always
    * the first part. */
  lemma {:induction false} MissingPartIsAlwaysFirst(question: string, response: string, expectedType: string)
    ensures ValidateMultiPart(question, response, expectedType).Incomplete? ==>
      ValidateMultiPart(question, response, expectedType).missingPart == PatternFor(expectedType).value.parts[0]
  {
    if PatternFor(expectedType).Some? {
      var first := PatternFor(expectedType).value.parts[0];
      assert first[0] == 'H';
      LowerHasNoCapital(question, 'H');
      NotContainsByChar(Lower(question), first, 'H');
    }
  }

  lemma LowerHasNoCapital(s: string, c: char)
    requires 'A' <= c <= 'Z'
    ensures c !in Lower(s)
  {
  }

  // ------------------------------------------------------------ validate_response

  /** The `details` a decided verdict carries.  The two partial-answer kinds are the
    * ones the chat endpoint stores as a partial answer. */
  datatype Details =
    | NoDetails
    | ConsultedWithoutDiagnosis
    | ChronicCondition(conditions: seq<string>)
    | Greeting
    | TooBrief
    | HistoryGiven(hasConsultedDoctor: bool, extractedDiagnosis: string)
    | MissingPart(part: string)
  {
    predicate IsPartialAnswer()
    {
      ConsultedWithoutDiagnosis? || MissingPart?
    }
  }

  /** A verdict decided by the rules (feedback "" standing for None), or the hand-over to
    * the language model. */
  datatype Verdict = Verdict(isValid: bool, feedback: string, details: Details) | AskModel

  const AskDiagnosisFeedback := "You mentioned seeing a doctor. Could you please also share what diagnosis they provided?"
  const GreetingFeedback := "I need to understand your symptoms to help you. Could you please describe what health issues you're experiencing in more detail?"
  const BriefFeedback := "I notice your response is quite brief. Could you please provide more details about your current health concerns or symptoms? This will help me assist you better."

  /** validate_response as far as it goes without the model: `question` is the question
    * asked, `expectedType` the kind of answer the step expects. */
  function ValidateResponse(question: string, response: string, expectedType: string): (v: Verdict)
    ensures v.Verdict? ==> (v.isValid <==> v.feedback == "")
  {
    var lower := Lower(response);
    if response == "continue" then Verdict(true, "", NoDetails)
    else if expectedType == "previous_history" && lower == "yes" then
      Verdict(false, AskDiagnosisFeedback, ConsultedWithoutDiagnosis)
    else if expectedType == "symptoms" && NamesChronicTrigger(lower) then
      Verdict(true, "", ChronicCondition(Mentioned(lower, ChronicConditions)))
    else if |Trim(response, Py)| <= 20 then
      if expectedType == "symptoms" && (lower == "hi" || lower == "hello") then
        Verdict(false, GreetingFeedback, Greeting)
      else if expectedType == "symptoms" && !NamesComplaint(lower) then
        Verdict(false, BriefFeedback, TooBrief)
      else if expectedType == "previous_history" then
        Verdict(true, "", HistoryGiven(Contains(lower, "yes"), if Contains(lower, "no") then "" else response))
      else Verdict(true, "", NoDetails)
    else match ValidateMultiPart(question, response, expectedType)
      case Incomplete(part) => Verdict(false, "Could you please also tell me about " + part + "?", MissingPart(part))
      case Complete => AskModel
  }

  /** "continue", a bare "yes" to the history question and every answer of at most
    * twenty characters after stripping are decided without the model. */
  lemma DecidedWithoutModel(question: string, response: string, expectedType: string)
    requires response == "continue" || (expectedType == "previous_history" && Lower(response) == "yes") ||
      |Trim(response, Py)| <= 20
    ensures ValidateResponse(question, response, expectedType).Verdict?
  {
  }

  /** A short symptoms answer is accepted exactly when it names a chronic condition or a
    * complaint word ("hi" and "hello" name neither). */
  lemma {:induction false} ShortSymptomsVerdict(question: string, response: string)
    requires response != "continue" && |Trim(response, Py)| <= 20
    ensures ValidateResponse(question, response, "symptoms").isValid <==>
      NamesChronicTrigger(Lower(response)) || NamesComplaint(Lower(response))
  {
    var lower := Lower(response);
    if lower == "hi" || lower == "hello" {
      GreetingNamesNothing(lower);
    }
  }

  lemma {:induction false} GreetingNamesNothing(lower: string)
    requires lower == "hi" || lower == "hello"
    ensures !NamesComplaint(lower) && !NamesChronicTrigger(lower)
  {
    NotContainsByChar(lower, "diabetes", 'd');
    NotContainsByChar(lower, "pain", 'p');
    NotContainsByChar(lower, "ache", 'a');
    NotContainsByChar(lower, "hurt", 'u');
    NotContainsByChar(lower, "sick", 's');
    NotContainsByChar(lower, "diabetic", 'd');
    NotContainsByChar(lower, "hypertension", 'y');
    NotContainsByChar(lower, "asthma", 'a');
    NotContainsByChar(lower, "chronic", 'c');
  }

  /** Apart from a bare "yes" to the history question, a short answer to a question that
    * does not ask for symptoms is always accepted. */
  lemma ShortAnswerAccepted(question: string, response: string, expectedType: string)
    requires expectedType != "symptoms" && |Trim(response, Py)| <= 20
    requires !(expectedType == "previous_history" && Lower(response) == "yes")
    ensures ValidateResponse(question, response, expectedType).isValid
  {
  }

  /** Only the history and medication questions produce partial answers. */
  lemma {:induction false} PartialOnlyForMultiPartTypes(question: string, response: string, expectedType: string)
    requires ValidateResponse(question, response, expectedType).Verdict?
    requires ValidateResponse(question, response, expectedType).details.IsPartialAnswer()
    ensures expectedType == "previous_history" || expectedType == "medication_history"
  {
    MultiPartIncompleteMeans(question, response, expectedType);
  }

  /** The conditions reported for a chronic disclosure are exactly the listed conditions
    * the answer mentions (the trigger word "chronic" alone reports none). */
  lemma ChronicConditionsReported(question: string, response: string)
    requires response != "continue" && NamesChronicTrigger(Lower(response))
    ensures var v := ValidateResponse(question, response, "symptoms");
      v.isValid && v.details.ChronicCondition? &&
      forall c :: c in v.details.conditions <==> c in ChronicConditions && Contains(Lower(response), c)
  {
    MentionedMembers(Lower(response), ChronicConditions);
  }
}
