// The chat page's controller as an object whose fields the handlers update in place, as
// the React state setters of frontend/src/ChatPage.jsx do.  Each handler is proved to
// leave the state its transition in the Conversation module describes, and to keep the
// run invariant of ConversationRun; opening a history item keeps only its request half.
module ChatPage {
  import opened Wrappers
  import opened Strings
  import opened HistoryDedup
  import opened SummaryFormatter
  import opened ChatView
  import opened Conversation
  import opened ConversationRun

  class ChatController {
    var messages: seq<Message>
    var input: string
    var step: string
    var count: nat
    var complete: bool
    var showSummary: bool
    var userId: string
    var history: seq<Entry>
    var patient: PatientData
    var atLogin: bool
    var requests: seq<Request>
    var pending: seq<Timer>

    /** The page's state as a value. */
    function State(): Chat
      reads this
    {
      Chat(messages, input, step, count, complete, showSummary, userId, history, patient, atLogin, requests, pending)
    }

    /** The run invariant: every request sent is well-formed and every counted exchange has
      * its answer in the transcript. */
    predicate Valid()
      reads this
    {
      Consistent(State())
    }

    /** The page as mounted, with the random session id `id`. */
    constructor(id: string)
      ensures State() == Initial(id) && Valid()
    {
      messages := [Bot(WelcomeText)];
      input := "";
      step := "start";
      count := 0;
      complete := false;
      showSummary := false;
      userId := id;
      history := [];
      patient := BlankPatient;
      atLogin := false;
      requests := [];
      pending := [];
      new;
      MountedConsistent(id);
    }

    /** The input box's onChange. */
    method Type(text: string)
      requires Valid()
      modifies this
      ensures State() == Typed(old(State()), text) && Valid()
    {
      ghost var c := State();
      input := text;
      QuietStep(c, State());
      Preserves(c, State(), true);
    }

    // ------------------------------------------------------------ shared steps

    /** Shows `shown` and starts `request` (fetchWithAuth sends nothing without a token). */
    method Start(shown: seq<Message>, request: Request, token: bool)
      modifies this
      ensures State() == Started(old(State()), shown, request, token)
    {
      messages := messages + shown;
      if token {
        requests := requests + [request];
      }
    }

    /** What happens before a catch block runs. */
    method Land<T>(reply: Reply<T>, logout: bool)
      modifies this
      ensures State() == Landed(old(State()), reply, logout)
    {
      match reply
      case NoToken =>
        atLogin := true;
      case Throw(_) =>
      case Undecodable(_) =>
        messages := Unloaded(messages);
      case Http(status, _) =>
        messages := Unloaded(messages);
        if logout && status == 401 {
          atLogin := true;
        }
      case Ok(_) =>
        messages := Unloaded(messages);
    }

    // ------------------------------------------------------------ handleSubmit

    /** handleSubmit, answered by `reply` at time `now`. */
    method HandleSubmit(reply: Reply<Answer>, now: int)
      requires Valid()
      modifies this
      ensures State() == Submitted(old(State()), reply, now) && Valid()
    {
      ghost var c := State();
      SubmitInput(reply, now);
      SubmitStep(c, reply, now);
      Preserves(c, State(), true);
    }

    /** The body of handleSubmit: a blank input does nothing; otherwise the answer is shown
      * with a placeholder, the input cleared and the request sent. */
    method SubmitInput(reply: Reply<Answer>, now: int)
      modifies this
      ensures State() == Submitted(old(State()), reply, now)
    {
      if Trim(input, Js) == "" {
        return;
      }
      var sent := input;
      var isFirst := step == "start" && count == 0;
      input := "";
      Start([Message(User, sent, false), Loading(AnswerWait)], ChatRequest(userId, sent, isFirst, isFirst, true),
            !reply.NoToken?);
      SettleSubmit(sent, reply, now);
    }

    /** The part of handleSubmit after the request returns or fails. */
    method SettleSubmit(sent: string, reply: Reply<Answer>, now: int)
      modifies this
      ensures State() == SubmitOutcome(old(State()), sent, reply, now)
    {
      if Answers(reply) {
        messages := Unloaded(messages);
        ShowAnswer(sent, reply.data, now);
      } else if IsStripFailure(reply) {
        messages := Unloaded(messages) + [Bot(TroubleText)];
        pending := pending + [DiagnosisTimer(userId)];
      } else {
        Land(reply, true);
        messages := Unloaded(messages) + [Bot(SubmitError(SubmitErrorText(reply)))];
        showSummary := showSummary || step != "start";
      }
    }

    /** An answer with a question: it is shown and counted, its step stored, and the exchange
      * saved by updateChatHistory. */
    method ShowAnswer(sent: string, a: Answer, now: int)
      modifies this
      ensures State() == Answered(old(State()), sent, a, now)
    {
      messages := messages + [Bot(a.nextQuestion)];
      count := count + 1;
      if a.currentStep != "" {
        ReachStep(a.currentStep);
      }
      UpdateChatHistory(sent, a.nextQuestion, now);
    }

    /** The step named by an answer is stored; a criticality step completes the conversation. */
    method ReachStep(s: string)
      modifies this
      ensures State() == ReachedStep(old(State()), s)
    {
      step := s;
      if IsCriticalityStep(s) {
        complete := true;
        showSummary := true;
        requests := requests + [UserDataRequest(userId)];
      }
    }

    /** updateChatHistory: the exchange is sent to /save_chat_history under the session id. */
    method UpdateChatHistory(userMessage: string, botResponse: string, now: int)
      modifies this
      ensures State() == old(State()).(requests := old(requests) + [SaveRequest(userId, ExchangeRecord(userMessage, botResponse, now))])
    {
      requests := requests + [SaveRequest(userId, ExchangeRecord(userMessage, botResponse, now))];
    }

    // ------------------------------------------------------------ handleContinuation

    /** handleContinuation as run by a timer whose closure saw the session `id` and whether
      * the stage was `early`. */
    method HandleContinuation(id: string, early: bool, reply: Reply<Answer>)
      modifies this
      ensures State() == Continued(old(State()), id, early, reply)
    {
      Start([Loading(AnswerWait)], ContinueRequest(id, "continue", !early), !reply.NoToken?);
      if Answers(reply) {
        messages := Unloaded(messages);
        ShowContinuation(id, reply.data);
      } else {
        Land(reply, true);
        messages := messages + [Bot(ContinueFailure)];
        showSummary := true;
      }
    }

    /** The continuation's answer is shown and counted; "end" completes the conversation. */
    method ShowContinuation(id: string, a: Answer)
      modifies this
      ensures State() == ContinueAnswered(old(State()), id, a)
    {
      messages := messages + [Bot(a.nextQuestion)];
      if a.currentStep == "end" {
        step := "end";
        complete := true;
        requests := requests + [UserDataRequest(id)];
      } else if a.currentStep != "" {
        step := a.currentStep;
      }
      count := count + 1;
    }

    /** triggerContinuation, the "Get Diagnosis" button under a message: handleContinuation
      * with the current session and stage. */
    method TriggerContinuation(reply: Reply<Answer>)
      requires Valid()
      modifies this
      ensures State() == Continued(old(State()), old(userId), IsEarly(old(State())), reply) && Valid()
    {
      ghost var c := State();
      ContinueStep(c, userId, IsEarly(c), reply);
      HandleContinuation(userId, count < 3 || step == "start", reply);
      Preserves(c, State(), true);
    }

    // ------------------------------------------------------------ handleInvalidResponse

    /** handleInvalidResponse, the "Continue Anyway" button. */
    method HandleInvalidResponse()
      requires Valid()
      modifies this
      ensures State() == InvalidHandled(old(State())) && Valid()
    {
      ghost var c := State();
      InvalidStep(c);
      messages := messages + [Loading(ProcessingWait)];
      pending := pending + [TransitionTimer(userId)];
      Preserves(c, State(), true);
    }

    /** The transition timer of handleInvalidResponse, for the session `id`. */
    method ShowTransition(id: string)
      modifies this
      ensures State() == TransitionShown(old(State()), id)
    {
      messages := Unloaded(messages);
      messages := messages + [Bot(TransitionText)];
      pending := pending + [DiagnosisTimer(id)];
    }

    // ------------------------------------------------------------ requestDiagnosis

    /** requestDiagnosis as run by a closure of the session `id`. */
    method RequestDiagnosis(id: string, reply: Reply<Answer>, now: int)
      modifies this
      ensures State() == Diagnosed(old(State()), id, reply, now)
    {
      Start([Loading(DiagnosisWait)], DiagnosisRequest(id, true), !reply.NoToken?);
      if reply.Ok? {
        messages := Unloaded(messages);
        ShowDiagnosis(id, reply.data, now);
      } else {
        FailDiagnosis(reply);
      }
    }

    /** The catch block of requestDiagnosis. */
    method FailDiagnosis(reply: Reply<Answer>)
      requires !reply.Ok?
      modifies this
      ensures State() == DiagnosisFailed(Landed(old(State()), reply, true), DiagnosisErrorText(reply))
    {
      Land(reply, true);
      messages := messages + [Bot(DiagnosisApology(DiagnosisErrorText(reply)))];
      complete := true;
    }

    /** The diagnosis is shown and completes the conversation; at a criticality step it is
      * saved as a recommendation. */
    method ShowDiagnosis(id: string, a: Answer, now: int)
      modifies this
      ensures State() == DiagnosisAnswered(old(State()), id, a, now)
    {
      messages := messages + [Bot(a.nextQuestion)];
      step := if a.currentStep != "" then a.currentStep else "diagnosis";
      complete := true;
      showSummary := true;
      requests := requests + [UserDataRequest(id)];
      if IsCriticalityStep(a.currentStep) {
        SaveSummaryToHistory(id, MedicalRecommendation, a.nextQuestion, now);
      }
    }

    /** The "Get Diagnosis" button, with the current session. */
    method GetDiagnosis(reply: Reply<Answer>, now: int)
      requires Valid()
      modifies this
      ensures State() == Diagnosed(old(State()), old(userId), reply, now) && Valid()
    {
      ghost var c := State();
      DiagnosisStep(c, userId, reply, now);
      RequestDiagnosis(userId, reply, now);
      Preserves(c, State(), true);
    }

    // ------------------------------------------------------------ summaries

    /** generateCaseSummary, answered by the summary text at time `now`. */
    method GenerateCaseSummary(reply: Reply<string>, now: int)
      requires Valid()
      modifies this
      ensures State() == Summarized(old(State()), reply, now) && Valid()
    {
      ghost var c := State();
      SummaryStep(c, reply, now);
      Start([Loading(SummaryWait)], SummaryRequest(userId), !reply.NoToken?);
      SettleSummary(reply, now);
      Preserves(c, State(), true);
    }

    /** The part of generateCaseSummary after the request returns or fails. */
    method SettleSummary(reply: Reply<string>, now: int)
      modifies this
      ensures State() == SummaryOutcome(old(State()), reply, now)
    {
      if reply.Ok? {
        var html := Format(reply.data);
        messages := Unloaded(messages) + [Bot(html)];
        complete := true;
        showSummary := false;
        SaveSummaryToHistory(userId, DoctorSummary, html, now);
      } else {
        Land(reply, false);
        messages := messages + [Bot(SummaryError(SummaryErrorText(reply)))];
      }
    }

    /** saveSummaryToHistory as run by a closure of the session `id`. */
    method SaveSummaryToHistory(id: string, title: string, content: string, now: int)
      modifies this
      ensures State() == SavedSummary(old(State()), id, title, content, now)
    {
      var r := Record(Entry(now, "summary", title, now), [Bot(content)]);
      history := [r.entry] + history;
      requests := requests + [SaveRequest(id, r)];
    }

    // ------------------------------------------------------------ startNewConsultation

    /** startNewConsultation for the signed-in account at time `now`. */
    method StartNewConsultation(accountId: string, now: int, token: bool)
      requires Valid()
      modifies this
      ensures State() == Restarted(old(State()), accountId, now, token) && Valid()
    {
      ghost var c := State();
      Restart(accountId, now, token);
      RestartStep(c, accountId, now, token);
      Preserves(c, State(), false);
    }

    /** The body of startNewConsultation: the welcome only, a fresh session id, and the reset
      * request for it. */
    method Restart(accountId: string, now: int, token: bool)
      modifies this
      ensures State() == Restarted(old(State()), accountId, now, token)
    {
      var id := "user-" + accountId + "-session-" + IntToString(now);
      Welcome(id);
      if token {
        requests := requests + [ResetRequest(id, true, true)];
      } else {
        atLogin := true;
      }
    }

    /** The seven controller fields back to a fresh conversation under the session `id`. */
    method Welcome(id: string)
      modifies this
      ensures State() == old(State()).(messages := [Bot(WelcomeText)], patient := BlankPatient, step := "start",
        complete := false, showSummary := false, count := 0, userId := id)
    {
      messages, patient, step := [Bot(WelcomeText)], BlankPatient, "start";
      complete, showSummary, count, userId := false, false, 0, id;
    }

    // ------------------------------------------------------------ effects and timers

    /** The effect on [currentStep, messages]. */
    method CheckCompletion()
      requires Valid()
      modifies this
      ensures State() == CompletionChecked(old(State())) && Valid()
    {
      ghost var c := State();
      CompletionStep(c);
      if IsFinalStep(step) || HasReachedRecommendations(messages) {
        showSummary := true;
        complete := true;
        requests := requests + [UserDataRequest(userId)];
      }
      Preserves(c, State(), true);
    }

    /** The effect on [messages, conversationComplete]. */
    method CheckRecommendations()
      requires Valid()
      modifies this
      ensures State() == RecommendationChecked(old(State())) && Valid()
    {
      ghost var c := State();
      QuietStep(c, RecommendationChecked(c));
      if HasReachedRecommendations(messages) && !complete {
        complete := true;
        showSummary := true;
      }
      Preserves(c, State(), true);
    }

    /** The effect on [messages] that sets the continuation timer with what this render saw. */
    method CheckAutoContinue()
      requires Valid()
      modifies this
      ensures State() == AutoContinueChecked(old(State())) && Valid()
    {
      ghost var c := State();
      QuietStep(c, AutoContinueChecked(c));
      if AsksToContinue(messages) {
        pending := pending + [ContinueTimer(userId, count < 3 || step == "start")];
      }
      Preserves(c, State(), true);
    }

    /** The effect on [messageCount, conversationComplete]. */
    method CheckLimit(reply: Reply<Answer>, now: int)
      requires Valid()
      modifies this
      ensures State() == LimitChecked(old(State()), reply, now) && Valid()
    {
      ghost var c := State();
      LimitStep(c, reply, now);
      if count >= 5 && !complete && step != "start" {
        RequestDiagnosis(userId, reply, now);
      }
      Preserves(c, State(), true);
    }

    /** The `k`-th timer set fires and runs the handler its closure holds. */
    method FireTimer(k: nat, reply: Reply<Answer>, now: int)
      requires Valid() && k < |pending|
      modifies this
      ensures State() == Fired(old(State()), k, reply, now) && Valid()
    {
      ghost var c := State();
      RunTimer(k, reply, now);
      TimerStep(c, k, reply, now);
      Preserves(c, State(), true);
    }

    /** The `k`-th timer is taken off and its handler run. */
    method RunTimer(k: nat, reply: Reply<Answer>, now: int)
      requires k < |pending|
      modifies this
      ensures State() == Fired(old(State()), k, reply, now)
    {
      ghost var c := State();
      ghost var c1 := c.(pending := Unset(c.pending, k));
      if pending[k].ContinueTimer? {
        RunContinueTimer(k, reply);
        assert Fired(c, k, reply, now) == Continued(c1, c.pending[k].userId, c.pending[k].early, reply);
      } else if pending[k].DiagnosisTimer? {
        RunDiagnosisTimer(k, reply, now);
        assert Fired(c, k, reply, now) == Diagnosed(c1, c.pending[k].userId, reply, now);
      } else {
        RunTransitionTimer(k);
        assert Fired(c, k, reply, now) == TransitionShown(c1, c.pending[k].userId);
      }
    }

    method RunContinueTimer(k: nat, reply: Reply<Answer>)
      requires k < |pending| && pending[k].ContinueTimer?
      modifies this
      ensures State() == Continued(old(State()).(pending := Unset(old(pending), k)), old(pending)[k].userId, old(pending)[k].early, reply)
    {
      ghost var c1 := State().(pending := Unset(pending, k));
      var t := pending[k];
      pending := pending[..k] + pending[k + 1..];
      assert State() == c1;
      HandleContinuation(t.userId, t.early, reply);
    }

    method RunDiagnosisTimer(k: nat, reply: Reply<Answer>, now: int)
      requires k < |pending| && pending[k].DiagnosisTimer?
      modifies this
      ensures State() == Diagnosed(old(State()).(pending := Unset(old(pending), k)), old(pending)[k].userId, reply, now)
    {
      ghost var c1 := State().(pending := Unset(pending, k));
      var t := pending[k];
      pending := pending[..k] + pending[k + 1..];
      assert State() == c1;
      RequestDiagnosis(t.userId, reply, now);
    }

    method RunTransitionTimer(k: nat)
      requires k < |pending| && pending[k].TransitionTimer?
      modifies this
      ensures State() == TransitionShown(old(State()).(pending := Unset(old(pending), k)), old(pending)[k].userId)
    {
      ghost var c1 := State().(pending := Unset(pending, k));
      var t := pending[k];
      pending := pending[..k] + pending[k + 1..];
      assert State() == c1;
      ShowTransition(t.userId);
    }

    /** The sign-in effect, answered by the history fetch. */
    method SignIn(account: Option<string>, reply: Reply<seq<Entry>>)
      requires Valid()
      modifies this
      ensures State() == SignedIn(old(State()), account, reply) && Valid()
    {
      ghost var c := State();
      AdoptAccount(account, reply);
      SignInStep(c, account, reply);
      Preserves(c, State(), true);
    }

    /** The account's id is adopted and its history fetched. */
    method AdoptAccount(account: Option<string>, reply: Reply<seq<Entry>>)
      modifies this
      ensures State() == SignedIn(old(State()), account, reply)
    {
      match account {
        case None =>
          atLogin := true;
        case Some(id) =>
          userId := id;
          match reply {
            case NoToken =>
              atLogin := true;
            case Ok(entries) =>
              requests := requests + [HistoryRequest(id)];
              history := FetchedHistory(entries);
            case _ =>
              requests := requests + [HistoryRequest(id)];
          }
      }
    }

    /** The answer to fetchUserData. */
    method LoadUserData(reply: Reply<PatientData>)
      requires Valid()
      modifies this
      ensures State() == UserDataLoaded(old(State()), reply) && Valid()
    {
      ghost var c := State();
      QuietStep(c, UserDataLoaded(c, reply));
      match reply {
        case Ok(p) =>
          patient := p;
        case NoToken =>
          atLogin := true;
        case _ =>
      }
      Preserves(c, State(), true);
    }
 
    // ------------------------------------------------------------ the history sidebar

    /** The onClick of a history item.  It keeps every request sent well-formed, but not the
      * run invariant: the transcript is replaced and the count is not reset. */
    method OpenHistoryItem(item: Entry, saved: seq<Message>, token: bool, heading: string, content: string)
      requires AllWellFormed(requests)
      modifies this
      ensures State() == HistoryItemOpened(old(State()), item, saved, token, heading, content)
      ensures AllWellFormed(requests)
    {
      ghost var c := State();
      if IsSummary(item) {
        DisplaySummaryFromHistory(item, token, heading, content);
      } else if |saved| > 0 {
        messages := [Bot(PreviousConversation)] + saved;
        step := "start";
        complete := true;
      }
      ViewStep(c, item, saved, token, heading, content);
      SendsKeep(c, State());
    }

    /** displaySummaryFromHistory: the loading line, the /view_summary request, then the
      * heading and the summary that the reply or, failing it, the item's own copy gives. */
    method DisplaySummaryFromHistory(item: Entry, token: bool, heading: string, content: string)
      modifies this
      ensures State() == SummaryViewed(old(State()), item, token, heading, content)
    {
      messages := [Bot("Loading summary...")];
      if token {
        requests := requests + [ViewSummaryRequest(userId, item.id)];
      } else {
        atLogin := true;
      }
      messages := [Bot(heading), Bot(content)];
      step := "start";
      complete := true;
    }

    /** The sidebar's Clear button. */
    method ClearHistory()
      requires Valid()
      modifies this
      ensures State() == HistoryCleared(old(State())) && Valid()
    {
      ghost var c := State();
      history := [];
      QuietStep(c, State());
      Preserves(c, State(), true);
    }
  }
}
