// The conversation controller of the chat page (frontend/src/ChatPage.jsx) as transitions
// of its state: submitting an answer, the automatic continuation, the forced diagnosis,
// the case summary, a saved summary, a new consultation, the effects that check the state
// and start work, and the timers they leave behind.  The answers of the server are inputs.
module Conversation {
  import opened Wrappers
  import opened Strings
  import opened HistoryDedup
  import opened SummaryFormatter
  import opened ChatView

  // ------------------------------------------------------------ inputs and outputs

  /** The fields of a /chat or /force_diagnosis answer ("" when absent). */
  datatype Answer = Answer(nextQuestion: string, currentStep: string)

  /** What a request comes back with: a decoded body, an HTTP error with its `detail` ("" when
    * absent), an error thrown before any response arrived (a network failure of fetch), an
    * ok response whose body `response.json()` cannot decode, or the missing-token
    * short-circuit of fetchWithAuth, which sends nothing. */
  datatype Reply<T> =
    | Ok(data: T)
    | Http(status: int, detail: string)
    | Throw(message: string)
    | Undecodable(message: string)
    | NoToken

  /** The timers the page sets, none ever cleared, each with what its closure read when it
    * was created: the session id and, for the continuation, whether the stage was early. */
  datatype Timer =
    | ContinueTimer(userId: string, early: bool)
    | DiagnosisTimer(userId: string)
    /** The first timer of handleInvalidResponse, whose closure calls requestDiagnosis. */
    | TransitionTimer(userId: string)

  /** A history entry sent to /save_chat_history. */
  datatype Record = Record(entry: Entry, messages: seq<Message>)

  /** The requests the page starts, with the fields of their bodies. */
  datatype Request =
    | ChatRequest(userId: string, response: string, newConversation: bool, resetContext: bool, ignorePrevious: bool)
    | ContinueRequest(userId: string, response: string, preserveContext: bool)
    | DiagnosisRequest(userId: string, fallback: bool)
    | SummaryRequest(userId: string)
    | SaveRequest(userId: string, record: Record)
    | ResetRequest(userId: string, reset: bool, completeReset: bool)
    | UserDataRequest(userId: string)
    | HistoryRequest(userId: string)
    | ViewSummaryRequest(userId: string, summaryId: int)

  /** The state of the page: the seven controller fields, the input box, the sidebar record,
    * whether the page went to /login, the requests started and the timers set. */
  datatype Chat = Chat(
    messages: seq<Message>,
    input: string,
    step: string,
    count: nat,
    complete: bool,
    showSummary: bool,
    userId: string,
    history: seq<Entry>,
    patient: PatientData,
    atLogin: bool,
    requests: seq<Request>,
    pending: seq<Timer>)

  const WelcomeText := "Hello! I am your medical assistant. " + "How can I help you today?"

  /** The page as mounted, for the random session id `userId`. */
  function Initial(userId: string): (c: Chat)
    ensures c.step == "start" && c.count == 0 && !c.complete && !c.showSummary && c.messages == [Bot(WelcomeText)]
  {
    Chat([Bot(WelcomeText)], "", "start", 0, false, false, userId, [], BlankPatient, false, [], [])
  }

  // ------------------------------------------------------------ texts

  function SubmitError(msg: string): string
  {
    "Sorry, I encountered an error: " + msg + ". Let's try to get a diagnosis " + "based on what we know so far."
  }

  const TroubleText := "I'm having trouble processing your input. " + "Let me try to provide a diagnosis " +
    "based on what I know so far."
  const ContinueFailure := "Sorry, I couldn't continue automatically. " + "As an alternative, please try the " +
    "\"Get Diagnosis\" button to generate a diagnosis " + "based on our conversation so far."

  function DiagnosisApology(msg: string): string
  {
    "I apologize, but I'm having trouble generating " + "a complete diagnosis due to a technical issue: " + msg +
    ". You can try starting a new consultation " + "with more specific symptoms or try again later."
  }

  function SummaryError(msg: string): string
  {
    "Sorry, I encountered an error " + "generating the summary: " + msg
  }

  function ServerError(status: int): string
  {
    "Server error: " + IntToString(status)
  }

  const SessionExpired := "Session expired. Please login again."
  const NotAuthenticated := "Not authenticated"
  const InvalidFormat := "Invalid response format from server"
  const AiModelError := "The AI model encountered an error " + "processing your information. " +
    "Please try again with a simpler query."
  const StripFailure := "AIMessage' object has no attribute 'strip"
  const AnswerWait := "..."
  const DiagnosisWait := "Generating medical diagnosis " + "based on our conversation..."
  const SummaryWait := "Generating medical case summary..."
  const ProcessingWait := "Processing your response..."
  const PreviousConversation := "Here is a previous conversation:"
  const TransitionText := "I notice we're having some trouble with the conversation flow. " +
    "Let me try to provide a diagnosis " + "based on the information so far."

  // ------------------------------------------------------------ placeholders

  function Loading(text: string): Message
  {
    Message(Assistant, text, true)
  }

  /** prev.filter(msg => !msg.isLoading). */
  function Unloaded(ms: seq<Message>): seq<Message>
    decreases |ms|
  {
    if ms == [] then []
    else Unloaded(ms[..|ms| - 1]) + (if ms[|ms| - 1].isLoading then [] else [ms[|ms| - 1]])
  }

  predicate NoPlaceholder(ms: seq<Message>)
  {
    forall i | 0 <= i < |ms| :: !ms[i].isLoading
  }

  lemma {:induction false} UnloadedAppend(a: seq<Message>, b: seq<Message>)
    ensures Unloaded(a + b) == Unloaded(a) + Unloaded(b)
    decreases |b|
  {
    if b == [] {
      assert a + b == a;
    } else {
      var init := b[..|b| - 1];
      assert (a + b)[..|a + b| - 1] == a + init;
      UnloadedAppend(a, init);
      var last := if b[|b| - 1].isLoading then [] else [b[|b| - 1]];
      assert Unloaded(a + b) == Unloaded(a + init) + last;
      assert Unloaded(b) == Unloaded(init) + last;
      Assoc(Unloaded(a), Unloaded(init), last);
    }
  }

  lemma Assoc<T>(a: seq<T>, b: seq<T>, c: seq<T>)
    ensures a + b + c == a + (b + c)
  {
  }

  /** The filter keeps exactly the real messages, in order. */
  lemma UnloadedKeepsMessages(ms: seq<Message>)
    ensures NoPlaceholder(Unloaded(ms))
    ensures NoPlaceholder(ms) ==> Unloaded(ms) == ms
    ensures forall m :: m in Unloaded(ms) <==> m in ms && !m.isLoading
  {
    UnloadedClean(ms);
    if NoPlaceholder(ms) {
      UnloadedOfClean(ms);
    }
    forall m ensures m in Unloaded(ms) <==> m in ms && !m.isLoading {
      UnloadedMember(ms, m);
    }
  }

  lemma {:induction false} UnloadedClean(ms: seq<Message>)
    ensures NoPlaceholder(Unloaded(ms))
    decreases |ms|
  {
    if ms != [] {
      UnloadedClean(ms[..|ms| - 1]);
    }
  }

  lemma {:induction false} UnloadedOfClean(ms: seq<Message>)
    requires NoPlaceholder(ms)
    ensures Unloaded(ms) == ms
    decreases |ms|
  {
    if ms != [] {
      var init := ms[..|ms| - 1];
      assert NoPlaceholder(init) by {
        forall i | 0 <= i < |init| ensures !init[i].isLoading {
          assert init[i] == ms[i];
        }
      }
      UnloadedOfClean(init);
      assert ms == init + [ms[|ms| - 1]];
    }
  }

  lemma {:induction false} UnloadedMember(ms: seq<Message>, m: Message)
    ensures m in Unloaded(ms) <==> m in ms && !m.isLoading
    decreases |ms|
  {
    if ms != [] {
      var init := ms[..|ms| - 1];
      UnloadedMember(init, m);
      assert ms == init + [ms[|ms| - 1]];
    }
  }

  lemma UnloadedOne(m: Message)
    ensures Unloaded([m]) == if m.isLoading then [] else [m]
  {
    assert [m][..0] == [];
  }

  /** Filtering twice is filtering once. */
  lemma UnloadedIdempotent(ms: seq<Message>)
    ensures Unloaded(Unloaded(ms)) == Unloaded(ms)
  {
    UnloadedKeepsMessages(ms);
    UnloadedKeepsMessages(Unloaded(ms));
  }

  // ------------------------------------------------------------ saved entries

  /** The entry updateChatHistory sends for one exchange. */
  function ExchangeRecord(userMessage: string, botResponse: string, now: int): Record
  {
    Record(Entry(now, "", ChatTitle(userMessage), now), [Message(User, userMessage, false), Bot(botResponse)])
  }

  /** saveSummaryToHistory, run by a closure of the session `userId`: the summary entry goes
    * first in the sidebar and to the server. */
  function SavedSummary(c: Chat, userId: string, title: string, content: string, now: int): Chat
  {
    var r := Record(Entry(now, "summary", title, now), [Bot(content)]);
    c.(history := [r.entry] + c.history, requests := c.requests + [SaveRequest(userId, r)])
  }

  predicate IsCriticalityStep(step: string)
  {
    step == "criticality" || step == "criticality_node"
  }

  predicate IsFinalStep(step: string)
  {
    step == "end" || IsCriticalityStep(step)
  }

  /** Whether the continuation would count as early: it then asks the server not to preserve
    * the context. */
  predicate IsEarly(c: Chat)
  {
    c.count < 3 || c.step == "start"
  }

  /** A reply with a question to show. */
  predicate Answers(reply: Reply<Answer>)
  {
    reply.Ok? && reply.data.nextQuestion != ""
  }

  /** The first part of each request: the messages shown while it runs, and the request
    * itself unless fetchWithAuth finds no token. */
  function Started(c: Chat, shown: seq<Message>, request: Request, token: bool): Chat
  {
    var c1 := c.(messages := c.messages + shown);
    if token then c1.(requests := c1.requests + [request]) else c1
  }

  /** The state in which an error reaches a catch block: once a response arrived the
    * placeholder has been filtered out (the filter runs before the body is decoded), and a
    * missing token (or, when `logout`, a 401) has sent the page to /login. */
  function Landed<T>(c: Chat, reply: Reply<T>, logout: bool): Chat
  {
    match reply
    case NoToken => c.(atLogin := true)
    case Throw(_) => c
    case Undecodable(_) => c.(messages := Unloaded(c.messages))
    case Http(status, _) =>
      var c1 := c.(messages := Unloaded(c.messages));
      if logout && status == 401 then c1.(atLogin := true) else c1
    case Ok(_) => c.(messages := Unloaded(c.messages))
  }

  // ------------------------------------------------------------ handleSubmit

  /** The input box's onChange. */
  function Typed(c: Chat, text: string): Chat
  {
    c.(input := text)
  }

  /** handleSubmit with the answer to its /chat request at time `now`. */
  function Submitted(c: Chat, reply: Reply<Answer>, now: int): Chat
  {
    if Trim(c.input, Js) == "" then c
    else
      var isFirst := c.step == "start" && c.count == 0;
      var shown := [Message(User, c.input, false), Loading(AnswerWait)];
      var request := ChatRequest(c.userId, c.input, isFirst, isFirst, true);
      SubmitOutcome(Started(c.(input := ""), shown, request, !reply.NoToken?), c.input, reply, now)
  }

  /** The known model failure: the page shows a notice and sets a timer for a diagnosis. */
  predicate IsStripFailure(reply: Reply<Answer>)
  {
    reply.Http? && reply.status != 401 && Contains(reply.detail, StripFailure)
  }

  function SubmitOutcome(c: Chat, sent: string, reply: Reply<Answer>, now: int): Chat
  {
    if Answers(reply) then Answered(c.(messages := Unloaded(c.messages)), sent, reply.data, now)
    else if IsStripFailure(reply) then
      c.(messages := Unloaded(c.messages) + [Bot(TroubleText)], pending := c.pending + [DiagnosisTimer(c.userId)])
    else SubmitFailed(Landed(c, reply, true), SubmitErrorText(reply))
  }

  /** The message of the error handleSubmit throws or receives. */
  function SubmitErrorText(reply: Reply<Answer>): string
  {
    match reply
    case NoToken => NotAuthenticated
    case Throw(msg) => msg
    case Undecodable(msg) => msg
    case Http(status, detail) =>
      if status == 401 then SessionExpired else if detail != "" then detail else ServerError(status)
    case Ok(_) => InvalidFormat
  }

  /** The catch block: placeholders out, the error message in, and the summary action shown
    * unless the conversation is still at "start". */
  function SubmitFailed(c: Chat, msg: string): Chat
  {
    c.(messages := Unloaded(c.messages) + [Bot(SubmitError(msg))], showSummary := c.showSummary || c.step != "start")
  }

  function Answered(c: Chat, sent: string, a: Answer, now: int): Chat
  {
    var c1 := c.(messages := c.messages + [Bot(a.nextQuestion)], count := c.count + 1);
    var c2 := if a.currentStep == "" then c1 else ReachedStep(c1, a.currentStep);
    c2.(requests := c2.requests + [SaveRequest(c.userId, ExchangeRecord(sent, a.nextQuestion, now))])
  }

  /** The step is stored; a criticality step completes the conversation and asks for the
    * sidebar record. */
  function ReachedStep(c: Chat, step: string): Chat
  {
    if IsCriticalityStep(step) then
      c.(step := step, complete := true, showSummary := true, requests := c.requests + [UserDataRequest(c.userId)])
    else c.(step := step)
  }

  // ------------------------------------------------------------ handleContinuation

  /** handleContinuation, run by a closure of the session `userId` whose render saw an early
    * stage or not, with the answer to its "continue" request. */
  function Continued(c: Chat, userId: string, early: bool, reply: Reply<Answer>): Chat
  {
    var request := ContinueRequest(userId, "continue", !early);
    ContinueOutcome(Started(c, [Loading(AnswerWait)], request, !reply.NoToken?), userId, reply)
  }

  function ContinueOutcome(c: Chat, userId: string, reply: Reply<Answer>): Chat
  {
    if Answers(reply) then ContinueAnswered(c.(messages := Unloaded(c.messages)), userId, reply.data)
    else ContinueFailed(Landed(c, reply, true))
  }

  /** The catch block: no filtering, the fixed apology, the summary action shown. */
  function ContinueFailed(c: Chat): Chat
  {
    c.(messages := c.messages + [Bot(ContinueFailure)], showSummary := true)
  }

  function ContinueAnswered(c: Chat, userId: string, a: Answer): Chat
  {
    var c1 := c.(messages := c.messages + [Bot(a.nextQuestion)]);
    var c2 :=
      if a.currentStep == "" then c1
      else if a.currentStep == "end" then
        c1.(step := "end", complete := true, requests := c1.requests + [UserDataRequest(userId)])
      else c1.(step := a.currentStep);
    c2.(count := c2.count + 1)
  }

  // ------------------------------------------------------------ requestDiagnosis

  /** requestDiagnosis, run by a closure of the session `userId`, with the answer to its
    * /force_diagnosis request at time `now`. */
  function Diagnosed(c: Chat, userId: string, reply: Reply<Answer>, now: int): Chat
  {
    var request := DiagnosisRequest(userId, true);
    DiagnosisOutcome(Started(c, [Loading(DiagnosisWait)], request, !reply.NoToken?), userId, reply, now)
  }

  function DiagnosisOutcome(c: Chat, userId: string, reply: Reply<Answer>, now: int): Chat
  {
    if reply.Ok? then DiagnosisAnswered(c.(messages := Unloaded(c.messages)), userId, reply.data, now)
    else DiagnosisFailed(Landed(c, reply, true), DiagnosisErrorText(reply))
  }

  /** The message of the error requestDiagnosis throws or receives (a decoded body is
    * never an error). */
  function DiagnosisErrorText(reply: Reply<Answer>): string
    requires !reply.Ok?
  {
    match reply
    case NoToken => NotAuthenticated
    case Throw(msg) => msg
    case Undecodable(msg) => msg
    case Http(status, detail) =>
      if status == 401 then SessionExpired
      else if Contains(detail, "AIMessage") then AiModelError
      else ServerError(status)
  }

  /** The catch block: no filtering, the apology, and the conversation complete anyway. */
  function DiagnosisFailed(c: Chat, msg: string): Chat
  {
    c.(messages := c.messages + [Bot(DiagnosisApology(msg))], complete := true)
  }

  function DiagnosisAnswered(c: Chat, userId: string, a: Answer, now: int): Chat
  {
    var c1 := c.(messages := c.messages + [Bot(a.nextQuestion)],
                 step := if a.currentStep != "" then a.currentStep else "diagnosis",
                 complete := true, showSummary := true,
                 requests := c.requests + [UserDataRequest(userId)]);
    if IsCriticalityStep(a.currentStep) then SavedSummary(c1, userId, MedicalRecommendation, a.nextQuestion, now)
    else c1
  }

  // ------------------------------------------------------------ generateCaseSummary

  /** generateCaseSummary with the answer (the summary text) to its request at time `now`. */
  function Summarized(c: Chat, reply: Reply<string>, now: int): Chat
  {
    SummaryOutcome(Started(c, [Loading(SummaryWait)], SummaryRequest(c.userId), !reply.NoToken?), reply, now)
  }

  function SummaryOutcome(c: Chat, reply: Reply<string>, now: int): Chat
  {
    if reply.Ok? then
      var html := Format(reply.data);
      var c1 := c.(messages := Unloaded(c.messages) + [Bot(html)], complete := true, showSummary := false);
      SavedSummary(c1, c.userId, DoctorSummary, html, now)
    else SummaryFailed(Landed(c, reply, false), SummaryErrorText(reply))
  }

  /** The message of the error generateCaseSummary throws or receives; a 401 is only a
    * server error here. */
  function SummaryErrorText(reply: Reply<string>): string
    requires !reply.Ok?
  {
    match reply
    case NoToken => NotAuthenticated
    case Throw(msg) => msg
    case Undecodable(msg) => msg
    case Http(status, _) => ServerError(status)
  }

  function SummaryFailed(c: Chat, msg: string): Chat
  {
    c.(messages := c.messages + [Bot(SummaryError(msg))])
  }

  // ------------------------------------------------------------ startNewConsultation

  /** startNewConsultation for the signed-in account at time `now`; `token` says whether a
    * token is stored (without one the reset request is not sent and the page goes to /login). */
  function Restarted(c: Chat, accountId: string, now: int, token: bool): Chat
  {
    var id := "user-" + accountId + "-session-" + IntToString(now);
    var c1 := c.(messages := [Bot(WelcomeText)], patient := BlankPatient, step := "start", complete := false,
                 showSummary := false, count := 0, userId := id);
    if token then c1.(requests := c1.requests + [ResetRequest(id, true, true)]) else c1.(atLogin := true)
  }

  // ------------------------------------------------------------ effects

  /** The effect on [currentStep, messages] (lines 198-209). */
  function CompletionChecked(c: Chat): Chat
  {
    if IsFinalStep(c.step) || HasReachedRecommendations(c.messages) then
      c.(showSummary := true, complete := true, requests := c.requests + [UserDataRequest(c.userId)])
    else c
  }

  /** The effect on [messages, conversationComplete] (lines 211-220). */
  function RecommendationChecked(c: Chat): Chat
  {
    if HasReachedRecommendations(c.messages) && !c.complete then c.(complete := true, showSummary := true) else c
  }

  /** Whether the last message is the assistant's and holds an auto-continue phrase. */
  predicate AsksToContinue(ms: seq<Message>)
  {
    ms != [] && ms[|ms| - 1].role == Assistant && ContainsAny(ms[|ms| - 1].content, AutoContinuePhrases)
  }

  /** The effect on [messages] that sets the continuation timer (lines 229-251); the timer
    * keeps what its closure read. */
  function AutoContinueChecked(c: Chat): Chat
  {
    if AsksToContinue(c.messages) then c.(pending := c.pending + [ContinueTimer(c.userId, IsEarly(c))]) else c
  }

  /** The condition of the effect on [messageCount, conversationComplete] (lines 262-269). */
  predicate AtExchangeLimit(c: Chat)
  {
    c.count >= 5 && !c.complete && c.step != "start"
  }

  /** That effect calls requestDiagnosis at once, answered by `reply`. */
  function LimitChecked(c: Chat, reply: Reply<Answer>, now: int): Chat
  {
    if AtExchangeLimit(c) then Diagnosed(c, c.userId, reply, now) else c
  }

  // ------------------------------------------------------------ handleInvalidResponse

  /** handleInvalidResponse (the "Continue Anyway" button): a placeholder is shown and the
    * transition timer set; the handler's catch block is unreachable, since neither call in
    * its try block throws. */
  function InvalidHandled(c: Chat): Chat
  {
    c.(messages := c.messages + [Loading(ProcessingWait)], pending := c.pending + [TransitionTimer(c.userId)])
  }

  /** The transition timer: every placeholder is filtered out, the transition message is
    * shown, and the diagnosis timer set with the same closure's session. */
  function TransitionShown(c: Chat, userId: string): Chat
  {
    c.(messages := Unloaded(c.messages) + [Bot(TransitionText)], pending := c.pending + [DiagnosisTimer(userId)])
  }

  /** The timers left once the `k`-th has fired. */
  function Unset(ts: seq<Timer>, k: nat): seq<Timer>
    requires k < |ts|
  {
    ts[..k] + ts[k + 1..]
  }

  /** The `k`-th timer set fires and runs its closure, with no check of what changed since.
    * Any timer may fire next: which one does depends on when each was set and on its delay
    * (1000 ms for the transition timer, 1500 ms for the others). */
  function Fired(c: Chat, k: nat, reply: Reply<Answer>, now: int): Chat
    requires k < |c.pending|
  {
    var c1 := c.(pending := Unset(c.pending, k));
    match c.pending[k]
    case ContinueTimer(userId, early) => Continued(c1, userId, early, reply)
    case DiagnosisTimer(userId) => Diagnosed(c1, userId, reply, now)
    case TransitionTimer(userId) => TransitionShown(c1, userId)
  }

  /** The sign-in effect (lines 122-152): the account's id (from the auth context or the
    * stored user) is adopted and its history fetched, answered by `reply`; without an
    * account the page goes to /login. */
  function SignedIn(c: Chat, account: Option<string>, reply: Reply<seq<Entry>>): Chat
  {
    match account
    case None => c.(atLogin := true)
    case Some(id) =>
      var c1 := c.(userId := id);
      match reply
      case NoToken => c1.(atLogin := true)
      case Ok(entries) => c1.(requests := c1.requests + [HistoryRequest(id)], history := FetchedHistory(entries))
      case _ => c1.(requests := c1.requests + [HistoryRequest(id)])
  }

  /** The answer to a fetchUserData request. */
  function UserDataLoaded(c: Chat, reply: Reply<PatientData>): Chat
  {
    match reply
    case Ok(p) => c.(patient := p)
    case NoToken => c.(atLogin := true)
    case _ => c
  }

  // ------------------------------------------------------------ the history sidebar

  /** A click on a regular history item whose saved messages are `saved`: the transcript is
    * replaced by a heading followed by those messages, the step set back to "start" and the
    * conversation marked complete; an item without messages does nothing.  The exchange
    * count is not reset. */
  function ConversationViewed(c: Chat, saved: seq<Message>): Chat
  {
    if saved == [] then c
    else c.(messages := [Bot(PreviousConversation)] + saved, step := "start", complete := true)
  }

  /** displaySummaryFromHistory for the summary `item`: the /view_summary request (without a
    * token nothing is sent and the page goes to /login), then the transcript replaced by a
    * heading and the summary, the step set back to "start" and the conversation marked
    * complete.  `heading` and `content` are what the reply or, failing it, the item's own
    * copy gives; the heading holds a date as the runtime's locale formats it. */
  function SummaryViewed(c: Chat, item: Entry, token: bool, heading: string, content: string): Chat
  {
    var c1 := if token then c.(requests := c.requests + [ViewSummaryRequest(c.userId, item.id)]) else c.(atLogin := true);
    c1.(messages := [Bot(heading), Bot(content)], step := "start", complete := true)
  }

  /** The onClick of a history item: a summary is displayed afresh, any other item shows its
    * saved conversation. */
  function HistoryItemOpened(c: Chat, item: Entry, saved: seq<Message>, token: bool, heading: string, content: string): Chat
  {
    if IsSummary(item) then SummaryViewed(c, item, token, heading, content) else ConversationViewed(c, saved)
  }

  /** The sidebar's Clear button. */
  function HistoryCleared(c: Chat): Chat
  {
    c.(history := [])
  }

  // ------------------------------------------------------------ the page's events

  /** What can happen on the page, with what the server answers. */
  datatype Event =
    | Type(text: string)
    | Submit(answer: Reply<Answer>, now: int)
    | GetDiagnosis(answer: Reply<Answer>, now: int)
    // the "Get Diagnosis" button under a message, which runs handleContinuation at once
    | ContinueNow(answer: Reply<Answer>)
    // the "Continue Anyway" button under a complaint or a request for more
    | ContinueAnyway
    | GetSummary(summary: Reply<string>, now: int)
    | NewConsultation(accountId: string, now: int, token: bool)
    | CheckCompletion
    | CheckRecommendations
    | CheckAutoContinue
    | CheckLimit(answer: Reply<Answer>, now: int)
    | TimerFires(index: nat, answer: Reply<Answer>, now: int)
    | SignIn(account: Option<string>, history: Reply<seq<Entry>>)
    // a click on a history item; `saved` is a regular item's messages, `token` whether a token
    // is stored, and `heading` and `content` what a summary item ends up showing
    | OpenHistoryItem(item: Entry, saved: seq<Message>, token: bool, heading: string, content: string)
    | ClearHistory
    | PatientLoaded(data: Reply<PatientData>)

  /** The page's reaction to one event; the buttons run their handlers with the current
    * session, and a timer fires only when it is set. */
  function Apply(c: Chat, e: Event): Chat
  {
    match e
    case Type(text) => Typed(c, text)
    case Submit(answer, now) => Submitted(c, answer, now)
    case GetDiagnosis(answer, now) => Diagnosed(c, c.userId, answer, now)
    case ContinueNow(answer) => Continued(c, c.userId, IsEarly(c), answer)
    case ContinueAnyway => InvalidHandled(c)
    case GetSummary(summary, now) => Summarized(c, summary, now)
    case NewConsultation(accountId, now, token) => Restarted(c, accountId, now, token)
    case CheckCompletion => CompletionChecked(c)
    case CheckRecommendations => RecommendationChecked(c)
    case CheckAutoContinue => AutoContinueChecked(c)
    case CheckLimit(answer, now) => LimitChecked(c, answer, now)
    case TimerFires(k, answer, now) => if k < |c.pending| then Fired(c, k, answer, now) else c
    case SignIn(account, history) => SignedIn(c, account, history)
    case OpenHistoryItem(item, saved, token, heading, content) => HistoryItemOpened(c, item, saved, token, heading, content)
    case ClearHistory => HistoryCleared(c)
    case PatientLoaded(data) => UserDataLoaded(c, data)
  }

  function Run(c: Chat, events: seq<Event>): Chat
    decreases |events|
  {
    if events == [] then c else Run(Apply(c, events[0]), events[1..])
  }
}
