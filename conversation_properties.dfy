// Properties of the chat page's transitions: what each leaves in the transcript, when the
// exchange count moves, when the conversation is complete, which requests go out, and what
// the timers do.
module ConversationProperties {
  import opened Wrappers
  import opened Strings
  import opened HistoryDedup
  import opened DiagnosisCard
  import opened SummaryFormatter
  import opened SummaryProperties
  import opened ChatView
  import opened Conversation

  // ------------------------------------------------------------ transcript helpers

  /** `r` is the transcript `t` followed by one answer of the assistant. */
  predicate OneReplyAfter(r: seq<Message>, t: seq<Message>)
  {
    |r| == |t| + 1 && r[..|t|] == t && r[|t|].role == Assistant && !r[|t|].isLoading
  }

  predicate HasPlaceholder(ms: seq<Message>)
  {
    exists i | 0 <= i < |ms| :: ms[i].isLoading
  }

  lemma PlaceholderDropped(ms: seq<Message>, text: string)
    ensures Unloaded(ms + [Loading(text)]) == Unloaded(ms)
  {
    UnloadedAppend(ms, [Loading(text)]);
    UnloadedOne(Loading(text));
  }

  lemma ReplyKept(ms: seq<Message>, text: string)
    ensures Unloaded(ms + [Bot(text)]) == Unloaded(ms) + [Bot(text)]
  {
    UnloadedAppend(ms, [Bot(text)]);
    UnloadedOne(Bot(text));
  }

  /** A real reply after a clean transcript leaves no placeholder. */
  lemma CleanReply(t: seq<Message>, text: string)
    requires NoPlaceholder(t)
    ensures NoPlaceholder(t + [Bot(text)]) && OneReplyAfter(t + [Bot(text)], t)
  {
    assert (t + [Bot(text)])[..|t|] == t;
  }

  lemma PlaceholderShown(ms: seq<Message>, text: string, reply: string)
    ensures HasPlaceholder(ms + [Loading(text), Bot(reply)])
  {
    assert (ms + [Loading(text), Bot(reply)])[|ms|].isLoading;
  }

  /** Where an error lands, only the messages (filtered or not) and the login flag move. */
  lemma LandedKeeps<T>(c: Chat, reply: Reply<T>, logout: bool)
    ensures var d := Landed(c, reply, logout);
      d.messages == (if Thrown(reply) then c.messages else Unloaded(c.messages)) &&
      d == c.(messages := d.messages, atLogin := d.atLogin)
  {
  }

  /** The request threw before any response arrived or was never sent: its catch block runs
    * without filtering.  A response whose body cannot decode is not such a case. */
  predicate Thrown<T>(reply: Reply<T>)
  {
    reply.Throw? || reply.NoToken?
  }

  // ------------------------------------------------------------ handleSubmit

  /** The answer a non-blank submission ends with. */
  function SubmitReplyText(reply: Reply<Answer>): string
  {
    if Answers(reply) then reply.data.nextQuestion
    else if IsStripFailure(reply) then TroubleText
    else SubmitError(SubmitErrorText(reply))
  }

  /** After a non-blank submission the transcript so far and the patient's message stay, in
    * order, followed by exactly one answer of the assistant (the question on success, an
    * error otherwise); the "..." placeholder is gone on every path. */
  lemma {:induction false} SubmitTranscript(c: Chat, reply: Reply<Answer>, now: int)
    requires Trim(c.input, Js) != ""
    ensures OneReplyAfter(Submitted(c, reply, now).messages, Unloaded(c.messages) + [Message(User, c.input, false)])
    ensures NoPlaceholder(Submitted(c, reply, now).messages)
    ensures Answers(reply) ==> Submitted(c, reply, now).messages[|Unloaded(c.messages)| + 1] == Bot(reply.data.nextQuestion)
  {
    var t := Unloaded(c.messages) + [Message(User, c.input, false)];
    SubmitBase(c.messages, c.input);
    SubmitMessages(c, reply, now, t);
    CleanReply(t, SubmitReplyText(reply));
  }

  /** The transcript once the placeholder of a submission is filtered out. */
  lemma SubmitBase(ms: seq<Message>, input: string)
    ensures var t := Unloaded(ms) + [Message(User, input, false)];
      Unloaded(ms + [Message(User, input, false), Loading(AnswerWait)]) == t && Unloaded(t) == t && NoPlaceholder(t)
  {
    var user := Message(User, input, false);
    var t := Unloaded(ms) + [user];
    var base := ms + [user, Loading(AnswerWait)];
    assert base == ms + [user] + [Loading(AnswerWait)];
    PlaceholderDropped(ms + [user], AnswerWait);
    UnloadedAppend(ms, [user]);
    UnloadedOne(user);
    assert Unloaded(base) == t;
    UnloadedIdempotent(base);
    UnloadedKeepsMessages(base);
  }

  /** The state handleSubmit's outcome starts from. */
  function SubmitStarted(c: Chat, reply: Reply<Answer>): Chat
  {
    var isFirst := c.step == "start" && c.count == 0;
    Started(c.(input := ""), [Message(User, c.input, false), Loading(AnswerWait)],
            ChatRequest(c.userId, c.input, isFirst, isFirst, true), !reply.NoToken?)
  }

  lemma SubmitMessages(c: Chat, reply: Reply<Answer>, now: int, t: seq<Message>)
    requires Trim(c.input, Js) != ""
    requires Unloaded(c.messages + [Message(User, c.input, false), Loading(AnswerWait)]) == t
    requires Unloaded(t) == t
    ensures Submitted(c, reply, now).messages == t + [Bot(SubmitReplyText(reply))]
  {
    var c2 := SubmitStarted(c, reply);
    assert Submitted(c, reply, now) == SubmitOutcome(c2, c.input, reply, now);
    assert Unloaded(c2.messages) == t;
    SubmitOutcomeMessages(c2, c.input, reply, now);
  }

  lemma SubmitOutcomeMessages(c: Chat, sent: string, reply: Reply<Answer>, now: int)
    ensures SubmitOutcome(c, sent, reply, now).messages == Unloaded(c.messages) + [Bot(SubmitReplyText(reply))]
  {
    UnloadedIdempotent(c.messages);
    if Answers(reply) {
      AnsweredKeeps(c.(messages := Unloaded(c.messages)), sent, reply.data, now);
    } else if !IsStripFailure(reply) {
      SubmitFailedMessages(c, reply);
    }
  }

  lemma SubmitFailedMessages(c: Chat, reply: Reply<Answer>)
    requires Unloaded(Unloaded(c.messages)) == Unloaded(c.messages)
    ensures SubmitFailed(Landed(c, reply, true), SubmitErrorText(reply)).messages ==
      Unloaded(c.messages) + [Bot(SubmitError(SubmitErrorText(reply)))]
  {
    LandedKeeps(c, reply, true);
  }

  lemma AnsweredKeeps(c: Chat, sent: string, a: Answer, now: int)
    ensures Answered(c, sent, a, now).messages == c.messages + [Bot(a.nextQuestion)]
    ensures Answered(c, sent, a, now).count == c.count + 1
  {
    var c1 := c.(messages := c.messages + [Bot(a.nextQuestion)], count := c.count + 1);
    if a.currentStep != "" {
      ReachedStepKeeps(c1, a.currentStep);
    }
  }

  lemma ReachedStepKeeps(c: Chat, step: string)
    ensures ReachedStep(c, step).messages == c.messages && ReachedStep(c, step).count == c.count
    ensures ReachedStep(c, step).pending == c.pending && ReachedStep(c, step).userId == c.userId
  {
  }

  /** A non-blank submission counts an exchange exactly when the server answered with a
    * question, and leaves the session, the patient record and the sidebar as they were. */
  lemma SubmitCounts(c: Chat, reply: Reply<Answer>, now: int)
    requires Trim(c.input, Js) != ""
    ensures var d := Submitted(c, reply, now);
      d.count == c.count + (if Answers(reply) then 1 else 0) &&
      d.input == "" && d.userId == c.userId && d.patient == c.patient && d.history == c.history
  {
    var c2 := SubmitStarted(c, reply);
    assert Submitted(c, reply, now) == SubmitOutcome(c2, c.input, reply, now);
    SubmitOutcomeFlags(c2, c.input, reply, now);
  }

  /** It completes the conversation exactly when the answer reaches a criticality step, and
    * shows the summary action then, or on an error past the "start" step. */
  lemma SubmitCompletes(c: Chat, reply: Reply<Answer>, now: int)
    requires Trim(c.input, Js) != ""
    ensures var d := Submitted(c, reply, now);
      (d.complete <==> c.complete || (Answers(reply) && IsCriticalityStep(reply.data.currentStep))) &&
      (d.showSummary <==> c.showSummary || SubmitShowsSummary(c, reply))
  {
    var c2 := SubmitStarted(c, reply);
    assert Submitted(c, reply, now) == SubmitOutcome(c2, c.input, reply, now);
    SubmitOutcomeFlags(c2, c.input, reply, now);
  }

  /** When a submission turns the summary action on. */
  predicate SubmitShowsSummary(c: Chat, reply: Reply<Answer>)
  {
    if Answers(reply) then IsCriticalityStep(reply.data.currentStep) else !IsStripFailure(reply) && c.step != "start"
  }

  lemma SubmitOutcomeFlags(c: Chat, sent: string, reply: Reply<Answer>, now: int)
    ensures var d := SubmitOutcome(c, sent, reply, now);
      d.count == c.count + (if Answers(reply) then 1 else 0) &&
      d.input == c.input && d.userId == c.userId && d.patient == c.patient && d.history == c.history &&
      (d.complete <==> c.complete || (Answers(reply) && IsCriticalityStep(reply.data.currentStep))) &&
      (d.showSummary <==> c.showSummary || SubmitShowsSummary(c, reply))
  {
    if Answers(reply) {
      AnsweredFlags(c.(messages := Unloaded(c.messages)), sent, reply.data, now);
    } else if !IsStripFailure(reply) {
      LandedKeeps(c, reply, true);
    }
  }

  lemma AnsweredFlags(c: Chat, sent: string, a: Answer, now: int)
    ensures var d := Answered(c, sent, a, now);
      d.count == c.count + 1 && d.input == c.input && d.userId == c.userId && d.patient == c.patient &&
      d.history == c.history && d.pending == c.pending &&
      d.step == (if a.currentStep != "" then a.currentStep else c.step) &&
      (d.complete <==> c.complete || IsCriticalityStep(a.currentStep)) &&
      (d.showSummary <==> c.showSummary || IsCriticalityStep(a.currentStep))
  {
  }

  /** A non-blank submission sends one /chat request (unless no token is stored), flagged as a
    * new conversation exactly when the page is at "start" with no exchange, and always asking
    * the server to ignore the previous context; on success the exchange is saved last. */
  lemma SubmitRequests(c: Chat, reply: Reply<Answer>, now: int)
    requires Trim(c.input, Js) != "" && !reply.NoToken?
    ensures var d := Submitted(c, reply, now);
      var isFirst := c.step == "start" && c.count == 0;
      d.requests == c.requests + [ChatRequest(c.userId, c.input, isFirst, isFirst, true)] +
        (if Answers(reply) then AnswerFollowUps(c.userId, c.input, reply.data, now) else [])
  {
    var c2 := SubmitStarted(c, reply);
    assert Submitted(c, reply, now) == SubmitOutcome(c2, c.input, reply, now);
    SubmitOutcomeRequests(c2, c.input, reply, now);
  }

  /** What an answer asks for: the sidebar record at a criticality step, then the exchange
    * saved to the history. */
  function AnswerFollowUps(userId: string, sent: string, a: Answer, now: int): seq<Request>
  {
    (if IsCriticalityStep(a.currentStep) then [UserDataRequest(userId)] else []) +
    [SaveRequest(userId, ExchangeRecord(sent, a.nextQuestion, now))]
  }

  /** Without a stored token nothing is sent: the page goes to /login and shows the error. */
  lemma SubmitWithoutToken(c: Chat, now: int)
    requires Trim(c.input, Js) != ""
    ensures var d := Submitted(c, NoToken, now); d.requests == c.requests && d.atLogin
  {
    var c2 := SubmitStarted(c, NoToken);
    assert Submitted(c, NoToken, now) == SubmitOutcome(c2, c.input, NoToken, now);
    SubmitOutcomeRequests(c2, c.input, NoToken, now);
  }

  lemma SubmitOutcomeRequests(c: Chat, sent: string, reply: Reply<Answer>, now: int)
    ensures var d := SubmitOutcome(c, sent, reply, now);
      |d.requests| >= |c.requests| && d.requests[..|c.requests|] == c.requests &&
      d.pending == c.pending + (if IsStripFailure(reply) then [DiagnosisTimer(c.userId)] else []) &&
      d.requests == c.requests + (if Answers(reply) then AnswerFollowUps(c.userId, sent, reply.data, now) else [])
  {
    if Answers(reply) {
      AnsweredRequests(c.(messages := Unloaded(c.messages)), sent, reply.data, now);
      AnsweredFlags(c.(messages := Unloaded(c.messages)), sent, reply.data, now);
    } else if !IsStripFailure(reply) {
      LandedKeeps(c, reply, true);
    }
  }

  lemma AnsweredRequests(c: Chat, sent: string, a: Answer, now: int)
    ensures Answered(c, sent, a, now).requests == c.requests + AnswerFollowUps(c.userId, sent, a, now)
  {
  }

  /** Only the known model failure sets a timer: one diagnosis for the current session. */
  lemma SubmitTimers(c: Chat, reply: Reply<Answer>, now: int)
    requires Trim(c.input, Js) != ""
    ensures Submitted(c, reply, now).pending == c.pending + (if IsStripFailure(reply) then [DiagnosisTimer(c.userId)] else [])
  {
    var c2 := SubmitStarted(c, reply);
    assert Submitted(c, reply, now) == SubmitOutcome(c2, c.input, reply, now);
    SubmitOutcomeRequests(c2, c.input, reply, now);
  }

  /** The saved exchange is titled by the patient's message, shortened to at most 23
    * characters. */
  lemma ExchangeRecordTitle(userMessage: string, botResponse: string, now: int)
    ensures var r := ExchangeRecord(userMessage, botResponse, now);
      |r.entry.title| <= 23 && (|userMessage| <= 20 ==> r.entry.title == userMessage) &&
      r.entry.kind == "" && !IsSummary(r.entry) && r.messages == [Message(User, userMessage, false), Bot(botResponse)]
  {
  }

  // ------------------------------------------------------------ the other requests

  /** The messages after a request that showed the placeholder `wait` and ended with `text`. */
  function AfterRequest(ms: seq<Message>, wait: string, thrown: bool, text: string): seq<Message>
  {
    (if thrown then ms + [Loading(wait)] else Unloaded(ms)) + [Bot(text)]
  }

  /** Such a request adds one answer to the transcript, and leaves a placeholder behind
    * exactly when it threw. */
  lemma {:induction false} AfterRequestTranscript(ms: seq<Message>, wait: string, thrown: bool, text: string)
    ensures OneReplyAfter(Unloaded(AfterRequest(ms, wait, thrown, text)), Unloaded(ms))
    ensures HasPlaceholder(AfterRequest(ms, wait, thrown, text)) <==> thrown
  {
    var r := AfterRequest(ms, wait, thrown, text);
    UnloadedClean(ms);
    if thrown {
      assert r == ms + [Loading(wait)] + [Bot(text)];
      ReplyKept(ms + [Loading(wait)], text);
      PlaceholderDropped(ms, wait);
      PlaceholderShown(ms, wait, text);
    } else {
      UnloadedIdempotent(ms);
      ReplyKept(Unloaded(ms), text);
      CleanReply(Unloaded(ms), text);
    }
    assert (Unloaded(ms) + [Bot(text)])[..|Unloaded(ms)|] == Unloaded(ms);
  }

  function ContinueReplyText(reply: Reply<Answer>): string
  {
    if Answers(reply) then reply.data.nextQuestion else ContinueFailure
  }

  lemma ContinueMessages(c: Chat, userId: string, early: bool, reply: Reply<Answer>)
    ensures Continued(c, userId, early, reply).messages ==
      AfterRequest(c.messages, AnswerWait, Thrown(reply), ContinueReplyText(reply))
  {
    PlaceholderDropped(c.messages, AnswerWait);
    var c2 := Started(c, [Loading(AnswerWait)], ContinueRequest(userId, "continue", !early), !reply.NoToken?);
    if Answers(reply) {
      ContinueAnsweredKeeps(c2.(messages := Unloaded(c2.messages)), userId, reply.data);
    } else {
      LandedKeeps(c2, reply, true);
    }
  }

  lemma ContinueAnsweredKeeps(c: Chat, userId: string, a: Answer)
    ensures ContinueAnswered(c, userId, a).messages == c.messages + [Bot(a.nextQuestion)]
    ensures ContinueAnswered(c, userId, a).count == c.count + 1
  {
  }

  /** handleContinuation adds one answer to the transcript; only an error thrown before any
    * response (or a missing token) leaves the "..." placeholder behind, while a body that
    * fails to decode comes after the filter and leaves none. */
  lemma ContinueTranscript(c: Chat, userId: string, early: bool, reply: Reply<Answer>)
    ensures OneReplyAfter(Unloaded(Continued(c, userId, early, reply).messages), Unloaded(c.messages))
    ensures HasPlaceholder(Continued(c, userId, early, reply).messages) <==> Thrown(reply)
  {
    ContinueMessages(c, userId, early, reply);
    AfterRequestTranscript(c.messages, AnswerWait, Thrown(reply), ContinueReplyText(reply));
  }

  function DiagnosisReplyText(reply: Reply<Answer>): string
  {
    if reply.Ok? then reply.data.nextQuestion else DiagnosisApology(DiagnosisErrorText(reply))
  }

  lemma DiagnosisMessages(c: Chat, userId: string, reply: Reply<Answer>, now: int)
    ensures Diagnosed(c, userId, reply, now).messages ==
      AfterRequest(c.messages, DiagnosisWait, Thrown(reply), DiagnosisReplyText(reply))
  {
    PlaceholderDropped(c.messages, DiagnosisWait);
    var c2 := Started(c, [Loading(DiagnosisWait)], DiagnosisRequest(userId, true), !reply.NoToken?);
    if reply.Ok? {
      DiagnosisAnsweredKeeps(c2.(messages := Unloaded(c2.messages)), userId, reply.data, now);
    } else {
      LandedKeeps(c2, reply, true);
    }
  }

  lemma DiagnosisAnsweredKeeps(c: Chat, userId: string, a: Answer, now: int)
    ensures DiagnosisAnswered(c, userId, a, now).messages == c.messages + [Bot(a.nextQuestion)]
    ensures DiagnosisAnswered(c, userId, a, now).count == c.count
  {
  }

  /** requestDiagnosis adds one answer to the transcript (the diagnosis, or an apology);
    * only an error thrown before any response (or a missing token) leaves its placeholder
    * behind; a body that fails to decode comes after the filter. */
  lemma DiagnosisTranscript(c: Chat, userId: string, reply: Reply<Answer>, now: int)
    ensures OneReplyAfter(Unloaded(Diagnosed(c, userId, reply, now).messages), Unloaded(c.messages))
    ensures HasPlaceholder(Diagnosed(c, userId, reply, now).messages) <==> Thrown(reply)
  {
    DiagnosisMessages(c, userId, reply, now);
    AfterRequestTranscript(c.messages, DiagnosisWait, Thrown(reply), DiagnosisReplyText(reply));
  }

  function SummaryReplyText(reply: Reply<string>): string
  {
    if reply.Ok? then Format(reply.data) else SummaryError(SummaryErrorText(reply))
  }

  lemma SummaryMessages(c: Chat, reply: Reply<string>, now: int)
    ensures Summarized(c, reply, now).messages == AfterRequest(c.messages, SummaryWait, Thrown(reply), SummaryReplyText(reply))
  {
    PlaceholderDropped(c.messages, SummaryWait);
    var c2 := Started(c, [Loading(SummaryWait)], SummaryRequest(c.userId), !reply.NoToken?);
    if !reply.Ok? {
      LandedKeeps(c2, reply, false);
    }
  }

  /** generateCaseSummary adds one answer to the transcript (the formatted summary, or an
    * error); only an error thrown before any response (or a missing token) leaves its
    * placeholder behind; a body that fails to decode comes after the filter. */
  lemma SummaryTranscript(c: Chat, reply: Reply<string>, now: int)
    ensures OneReplyAfter(Unloaded(Summarized(c, reply, now).messages), Unloaded(c.messages))
    ensures HasPlaceholder(Summarized(c, reply, now).messages) <==> Thrown(reply)
  {
    SummaryMessages(c, reply, now);
    AfterRequestTranscript(c.messages, SummaryWait, Thrown(reply), SummaryReplyText(reply));
  }

  // ------------------------------------------------------------ handleContinuation: state

  lemma ContinueOutcomeFlags(c: Chat, userId: string, reply: Reply<Answer>)
    ensures var d := ContinueOutcome(c, userId, reply);
      var ended := Answers(reply) && reply.data.currentStep == "end";
      d.count == c.count + (if Answers(reply) then 1 else 0) &&
      (d.complete <==> c.complete || ended) && (d.showSummary <==> c.showSummary || !Answers(reply)) &&
      d.userId == c.userId && d.pending == c.pending && d.history == c.history && d.patient == c.patient &&
      d.requests == c.requests + (if ended then [UserDataRequest(userId)] else [])
  {
    if !Answers(reply) {
      LandedKeeps(c, reply, true);
    }
  }

  /** The continuation counts an exchange exactly when the server answered with a question,
    * completes the conversation exactly when that answer reaches "end", and shows the
    * summary action on every failure. */
  lemma ContinueFlags(c: Chat, userId: string, early: bool, reply: Reply<Answer>)
    ensures var d := Continued(c, userId, early, reply);
      d.count == c.count + (if Answers(reply) then 1 else 0) &&
      (d.complete <==> c.complete || (Answers(reply) && reply.data.currentStep == "end")) &&
      (d.showSummary <==> c.showSummary || !Answers(reply)) &&
      d.userId == c.userId && d.pending == c.pending && d.history == c.history
  {
    var c2 := Started(c, [Loading(AnswerWait)], ContinueRequest(userId, "continue", !early), !reply.NoToken?);
    ContinueOutcomeFlags(c2, userId, reply);
  }

  /** It sends one "continue" request for the session its closure saw, asking to preserve the
    * context exactly when that render was past the early stage; only reaching "end" asks
    * for the sidebar record as well. */
  lemma ContinueRequests(c: Chat, userId: string, early: bool, reply: Reply<Answer>)
    ensures var d := Continued(c, userId, early, reply);
      var sent := if reply.NoToken? then [] else [ContinueRequest(userId, "continue", !early)];
      var ended := Answers(reply) && reply.data.currentStep == "end";
      d.requests == c.requests + sent + (if ended then [UserDataRequest(userId)] else [])
  {
    var c2 := Started(c, [Loading(AnswerWait)], ContinueRequest(userId, "continue", !early), !reply.NoToken?);
    ContinueOutcomeFlags(c2, userId, reply);
  }

  // ------------------------------------------------------------ requestDiagnosis: state

  lemma DiagnosisOutcomeFlags(c: Chat, userId: string, reply: Reply<Answer>, now: int)
    ensures var d := DiagnosisOutcome(c, userId, reply, now);
      d.complete && d.count == c.count && (d.showSummary <==> c.showSummary || reply.Ok?) &&
      d.userId == c.userId && d.pending == c.pending && d.patient == c.patient &&
      d.step == (if !reply.Ok? then c.step else if reply.data.currentStep != "" then reply.data.currentStep else "diagnosis") &&
      d.history == (if reply.Ok? && IsCriticalityStep(reply.data.currentStep)
        then [Entry(now, "summary", MedicalRecommendation, now)] + c.history else c.history) &&
      d.requests == c.requests + (if reply.Ok? then DiagnosisFollowUps(userId, reply.data, now) else [])
  {
    if !reply.Ok? {
      LandedKeeps(c, reply, true);
    }
  }

  /** What a diagnosis asks for once it arrives: the sidebar record, and at a criticality
    * step the recommendation saved to the history of the same session. */
  function DiagnosisFollowUps(userId: string, a: Answer, now: int): seq<Request>
  {
    [UserDataRequest(userId)] +
    if IsCriticalityStep(a.currentStep)
    then [SaveRequest(userId, Record(Entry(now, "summary", MedicalRecommendation, now), [Bot(a.nextQuestion)]))]
    else []
  }

  /** A forced diagnosis always completes the conversation, whatever the server does; it
    * never counts an exchange, and only a diagnosis shows the summary action and moves the
    * step (to "diagnosis" when the server names none). */
  lemma DiagnosisFlags(c: Chat, userId: string, reply: Reply<Answer>, now: int)
    ensures var d := Diagnosed(c, userId, reply, now);
      d.complete && d.count == c.count && (d.showSummary <==> c.showSummary || reply.Ok?) &&
      d.userId == c.userId && d.pending == c.pending &&
      d.step == (if !reply.Ok? then c.step else if reply.data.currentStep != "" then reply.data.currentStep else "diagnosis")
  {
    var c2 := Started(c, [Loading(DiagnosisWait)], DiagnosisRequest(userId, true), !reply.NoToken?);
    DiagnosisOutcomeFlags(c2, userId, reply, now);
  }

  /** The diagnosis request, and what follows a diagnosis, all name the session of the closure;
    * a recommendation is put first in the sidebar. */
  lemma DiagnosisRequests(c: Chat, userId: string, reply: Reply<Answer>, now: int)
    ensures var d := Diagnosed(c, userId, reply, now);
      var sent := if reply.NoToken? then [] else [DiagnosisRequest(userId, true)];
      d.requests == c.requests + sent + (if reply.Ok? then DiagnosisFollowUps(userId, reply.data, now) else []) &&
      d.history == (if reply.Ok? && IsCriticalityStep(reply.data.currentStep)
        then [Entry(now, "summary", MedicalRecommendation, now)] + c.history else c.history)
  {
    var c2 := Started(c, [Loading(DiagnosisWait)], DiagnosisRequest(userId, true), !reply.NoToken?);
    DiagnosisOutcomeFlags(c2, userId, reply, now);
  }

  // ------------------------------------------------------------ generateCaseSummary: state

  lemma SummaryOutcomeFlags(c: Chat, reply: Reply<string>, now: int)
    ensures var d := SummaryOutcome(c, reply, now);
      d.count == c.count && d.userId == c.userId && d.pending == c.pending && d.step == c.step &&
      d.complete == (c.complete || reply.Ok?) && d.showSummary == (c.showSummary && !reply.Ok?) &&
      d.history == (if reply.Ok? then [Entry(now, "summary", DoctorSummary, now)] + c.history else c.history) &&
      d.requests == c.requests + (if reply.Ok? then [SummarySave(c.userId, reply.data, now)] else [])
  {
    if !reply.Ok? {
      LandedKeeps(c, reply, false);
    }
  }

  /** The entry saved for a summary: the formatted text, under "Doctor Summary". */
  function SummarySave(userId: string, summary: string, now: int): Request
  {
    SaveRequest(userId, Record(Entry(now, "summary", DoctorSummary, now), [Bot(Format(summary))]))
  }

  /** A summary completes the conversation, hides the summary action, puts a "Doctor Summary"
    * entry first in the sidebar and saves it; a failure changes none of these. */
  lemma SummaryFlags(c: Chat, reply: Reply<string>, now: int)
    ensures var d := Summarized(c, reply, now);
      var sent := if reply.NoToken? then [] else [SummaryRequest(c.userId)];
      d.count == c.count && d.userId == c.userId && d.pending == c.pending && d.step == c.step &&
      d.complete == (c.complete || reply.Ok?) && d.showSummary == (c.showSummary && !reply.Ok?) &&
      d.history == (if reply.Ok? then [Entry(now, "summary", DoctorSummary, now)] + c.history else c.history) &&
      d.requests == c.requests + sent + (if reply.Ok? then [SummarySave(c.userId, reply.data, now)] else [])
  {
    var c2 := Started(c, [Loading(SummaryWait)], SummaryRequest(c.userId), !reply.NoToken?);
    SummaryOutcomeFlags(c2, reply, now);
  }

  /** The saved summary is already formatted: formatting it again changes nothing. */
  lemma SavedSummaryIsFormatted(userId: string, summary: string, now: int)
    ensures var m := SummarySave(userId, summary, now).record.messages[0];
      m.role == Assistant && Format(m.content) == m.content
  {
    FormatIdempotent(summary);
  }

  // ------------------------------------------------------------ startNewConsultation

  /** A new consultation resets the conversation to the welcome under a fresh session id
    * built from the account and the time, and asks the server to reset that session; the
    * timers already set, the sidebar and the input box are left as they were. */
  lemma RestartResets(c: Chat, accountId: string, now: int, token: bool)
    ensures var d := Restarted(c, accountId, now, token);
      d.messages == [Bot(WelcomeText)] && d.step == "start" && !d.complete && !d.showSummary &&
      d.count == 0 && d.patient == BlankPatient &&
      d.userId == "user-" + accountId + "-session-" + IntToString(now) &&
      d.pending == c.pending && d.history == c.history && d.input == c.input &&
      d.requests == c.requests + (if token then [ResetRequest(d.userId, true, true)] else []) &&
      d.atLogin == (c.atLogin || !token)
  {
  }

  /** A timer set before a new consultation still runs its old closure: the request it sends
    * names the session it was created in, not the new one. */
  lemma {:induction false} StaleTimerAfterRestart(c: Chat, accountId: string, now: int, token: bool,
                                                   k: nat, reply: Reply<Answer>, later: int)
    requires k < |c.pending| && !c.pending[k].TransitionTimer? && !reply.NoToken?
    ensures var r := Restarted(c, accountId, now, token);
      var d := Fired(r, k, reply, later);
      |d.requests| > |r.requests| && d.requests[|r.requests|].userId == c.pending[k].userId
  {
    var r := Restarted(c, accountId, now, token);
    var r1 := r.(pending := Unset(r.pending, k));
    assert r.pending == c.pending;
    match c.pending[k]
    case ContinueTimer(id, early) =>
      FiredContinue(r, k, reply, later);
      ContinueRequests(r1, id, early, reply);
    case DiagnosisTimer(id) =>
      FiredDiagnosis(r, k, reply, later);
      DiagnosisRequests(r1, id, reply, later);
  }

  lemma FiredTransition(c: Chat, k: nat, reply: Reply<Answer>, now: int)
    requires k < |c.pending| && c.pending[k].TransitionTimer?
    ensures Fired(c, k, reply, now) == TransitionShown(c.(pending := Unset(c.pending, k)), c.pending[k].userId)
  {
  }

  // ------------------------------------------------------------ "Continue Anyway"

  /** The button shows a placeholder and sets the transition timer; it sends nothing, and the
    * transcript without placeholders is unchanged. */
  lemma InvalidHandledShows(c: Chat)
    ensures var d := InvalidHandled(c);
      Unloaded(d.messages) == Unloaded(c.messages) && HasPlaceholder(d.messages) &&
      d.pending == c.pending + [TransitionTimer(c.userId)] && d.requests == c.requests &&
      d.count == c.count && d.complete == c.complete && d.step == c.step
  {
    var d := InvalidHandled(c);
    PlaceholderDropped(c.messages, ProcessingWait);
    assert d.messages[|c.messages|].isLoading;
  }

  /** The transition timer clears every placeholder, adds the transition message, and sets
    * the diagnosis timer for its closure's session; it sends nothing. */
  lemma TransitionShownMessages(c: Chat, userId: string)
    ensures var d := TransitionShown(c, userId);
      OneReplyAfter(Unloaded(d.messages), Unloaded(c.messages)) && NoPlaceholder(d.messages) &&
      d.pending == c.pending + [DiagnosisTimer(userId)] && d.requests == c.requests &&
      d.count == c.count && d.complete == c.complete
  {
    var d := TransitionShown(c, userId);
    UnloadedKeepsMessages(c.messages);
    CleanReply(Unloaded(c.messages), TransitionText);
    UnloadedKeepsMessages(d.messages);
  }

  /** Button and transition timer on a page with no timer set: the transition message is
    * shown, nothing is sent, and only the diagnosis timer is left. */
  lemma InvalidThenTransition(c: Chat, first: Reply<Answer>, soon: int)
    requires c.pending == []
    ensures var b := Fired(InvalidHandled(c), 0, first, soon);
      Unloaded(b.messages) == Unloaded(c.messages) + [Bot(TransitionText)] &&
      b.pending == [DiagnosisTimer(c.userId)] && b.requests == c.requests && b.userId == c.userId
  {
    var a := InvalidHandled(c);
    InvalidHandledShows(c);
    assert a.pending == [TransitionTimer(c.userId)];
    var a1 := a.(pending := []);
    assert Unset(a.pending, 0) == [];
    FiredTransition(a, 0, first, soon);
    var b := TransitionShown(a1, c.userId);
    TransitionShownMessages(a1, c.userId);
    UnloadedKeepsMessages(b.messages);
    assert b.messages == Unloaded(c.messages) + [Bot(TransitionText)];
  }

  /** The transition timer waits 1000 ms and a continuation timer 1500 ms, so one set by
    * "Continue Anyway" shortly after a continuation timer fires first: its handler runs and
    * the older timer stays set, before the newly set diagnosis timer. */
  lemma TransitionBeforeOlderTimer(c: Chat, t: Timer, reply: Reply<Answer>, now: int)
    requires c.pending == [t]
    ensures var b := Fired(InvalidHandled(c), 1, reply, now);
      Unloaded(b.messages) == Unloaded(c.messages) + [Bot(TransitionText)] &&
      b.pending == [t, DiagnosisTimer(c.userId)] && b.requests == c.requests
  {
    var a := InvalidHandled(c);
    InvalidHandledShows(c);
    assert a.pending == [t, TransitionTimer(c.userId)];
    assert Unset(a.pending, 1) == [t];
    var a1 := a.(pending := [t]);
    FiredTransition(a, 1, reply, now);
    var b := TransitionShown(a1, c.userId);
    TransitionShownMessages(a1, c.userId);
    UnloadedKeepsMessages(b.messages);
    assert b.messages == Unloaded(c.messages) + [Bot(TransitionText)];
  }

  /** Pressed on a page with no timer set, "Continue Anyway" and its two timers end with the
    * transition message in the transcript, a forced diagnosis requested for the session the
    * button saw, and the conversation complete. */
  lemma ContinueAnywayDiagnoses(c: Chat, first: Reply<Answer>, soon: int, reply: Reply<Answer>, now: int)
    requires c.pending == [] && !reply.NoToken?
    ensures var b := Fired(InvalidHandled(c), 0, first, soon);
      var d := Fired(b, 0, reply, now);
      Unloaded(b.messages) == Unloaded(c.messages) + [Bot(TransitionText)] &&
      d.complete && d.pending == [] &&
      |d.requests| > |c.requests| && d.requests[|c.requests|] == DiagnosisRequest(c.userId, true)
  {
    InvalidThenTransition(c, first, soon);
    LastTimerDiagnoses(Fired(InvalidHandled(c), 0, first, soon), reply, now);
  }

  /** A last diagnosis timer sends its diagnosis request and completes the conversation. */
  lemma LastTimerDiagnoses(b: Chat, reply: Reply<Answer>, now: int)
    requires |b.pending| == 1 && b.pending[0].DiagnosisTimer? && !reply.NoToken?
    ensures var d := Fired(b, 0, reply, now);
      d.complete && d.pending == [] &&
      |d.requests| > |b.requests| && d.requests[|b.requests|] == DiagnosisRequest(b.pending[0].userId, true)
  {
    var id := b.pending[0].userId;
    var b1 := b.(pending := []);
    assert Unset(b.pending, 0) == [];
    FiredDiagnosis(b, 0, reply, now);
    DiagnosisFlags(b1, id, reply, now);
    DiagnosisRequests(b1, id, reply, now);
    var d := Diagnosed(b1, id, reply, now);
    var more := if reply.Ok? then DiagnosisFollowUps(id, reply.data, now) else [];
    assert d.requests == b.requests + [DiagnosisRequest(id, true)] + more;
    assert d.requests[|b.requests|] == DiagnosisRequest(id, true);
  }

  lemma FiredContinue(c: Chat, k: nat, reply: Reply<Answer>, now: int)
    requires k < |c.pending| && c.pending[k].ContinueTimer?
    ensures Fired(c, k, reply, now) == Continued(c.(pending := Unset(c.pending, k)), c.pending[k].userId, c.pending[k].early, reply)
  {
  }

  lemma FiredDiagnosis(c: Chat, k: nat, reply: Reply<Answer>, now: int)
    requires k < |c.pending| && c.pending[k].DiagnosisTimer?
    ensures Fired(c, k, reply, now) == Diagnosed(c.(pending := Unset(c.pending, k)), c.pending[k].userId, reply, now)
  {
  }

  /** The first answer after a new consultation is sent as the start of a new conversation,
    * for the new session. */
  lemma FirstSubmitAfterRestart(c: Chat, accountId: string, now: int, text: string, reply: Reply<Answer>, later: int)
    requires Trim(text, Js) != "" && !reply.NoToken?
    ensures var r := Typed(Restarted(c, accountId, now, true), text);
      var d := Submitted(r, reply, later);
      |d.requests| > |r.requests| && d.requests[|r.requests|] == ChatRequest(r.userId, text, true, true, true)
  {
    var r := Typed(Restarted(c, accountId, now, true), text);
    SubmitRequests(r, reply, later);
    var sent := r.requests + [ChatRequest(r.userId, text, true, true, true)];
    var d := Submitted(r, reply, later);
    assert d.requests[..|sent|][|r.requests|] == sent[|r.requests|];
  }

  // ------------------------------------------------------------ effects

  /** The completion effect completes the conversation and shows the summary action exactly
    * at a final step or once a recommendation is in the transcript. */
  lemma CompletionCheckedFlags(c: Chat)
    ensures var d := CompletionChecked(c);
      var done := IsFinalStep(c.step) || HasReachedRecommendations(c.messages);
      (d.complete <==> c.complete || done) && (d.showSummary <==> c.showSummary || done) &&
      d.messages == c.messages && d.count == c.count && d.step == c.step && d.pending == c.pending &&
      d.requests == c.requests + (if done then [UserDataRequest(c.userId)] else [])
  {
  }

  /** A diagnosis card shown as an answer completes the conversation at the next check, even
    * when the server names no step. */
  lemma {:induction false} DiagnosisCardCompletes(c: Chat, s: Sections, step: string, now: int)
    requires Trim(c.input, Js) != ""
    ensures CompletionChecked(Submitted(c, Ok(Answer(DiagnosisHtml(s), step)), now)).complete
  {
    var reply := Ok(Answer(DiagnosisHtml(s), step));
    var d := Submitted(c, reply, now);
    DiagnosisCardRecommends(s);
    NonEmptyCard(s);
    SubmitTranscript(c, reply, now);
    var k := |Unloaded(c.messages)| + 1;
    assert d.messages[k].content == DiagnosisHtml(s);
    assert HasReachedRecommendations(d.messages);
  }

  lemma NonEmptyCard(s: Sections)
    ensures DiagnosisHtml(s) != ""
  {
    assert |DiagnosisHtml(s)| >= |CardHead|;
  }

  /** The recommendation effect completes the conversation exactly once a recommendation is
    * in the transcript, and shows the summary action when it does so. */
  lemma RecommendationCheckedFlags(c: Chat)
    ensures var d := RecommendationChecked(c);
      (d.complete <==> c.complete || HasReachedRecommendations(c.messages)) &&
      (d.showSummary <==> c.showSummary || (HasReachedRecommendations(c.messages) && !c.complete)) &&
      d.requests == c.requests && d.messages == c.messages
  {
  }

  /** The exchange-limit effect completes the conversation exactly at the limit, and a second
    * check after the first does nothing: the forced diagnosis is asked for only once. */
  lemma LimitCompletes(c: Chat, reply: Reply<Answer>, now: int)
    ensures LimitChecked(c, reply, now).complete <==> c.complete || AtExchangeLimit(c)
    ensures !AtExchangeLimit(LimitChecked(c, reply, now))
  {
    if AtExchangeLimit(c) {
      DiagnosisFlags(c, c.userId, reply, now);
    }
  }

  lemma LimitOnce(c: Chat, r1: Reply<Answer>, n1: int, r2: Reply<Answer>, n2: int)
    ensures LimitChecked(LimitChecked(c, r1, n1), r2, n2) == LimitChecked(c, r1, n1)
  {
    LimitCompletes(c, r1, n1);
  }

  /** The continuation timer set by the effect sends, when it fires, a "continue" request for
    * the session of that render, preserving the context exactly past the early stage. */
  lemma {:induction false} ScheduledContinuation(c: Chat, reply: Reply<Answer>, now: int)
    requires AsksToContinue(c.messages) && c.pending == [] && !reply.NoToken?
    ensures var d := Fired(AutoContinueChecked(c), 0, reply, now);
      |d.requests| > |c.requests| &&
      d.requests[|c.requests|] == ContinueRequest(c.userId, "continue", c.count >= 3 && c.step != "start")
  {
    var a := AutoContinueChecked(c);
    assert a.pending == [ContinueTimer(c.userId, IsEarly(c))];
    FiredContinue(a, 0, reply, now);
    assert Unset(a.pending, 0) == [];
    assert a.(pending := Unset(a.pending, 0)) == c;
    ContinueRequests(c, c.userId, IsEarly(c), reply);
  }

  /** An answer announcing the analysis of the symptoms sets the continuation timer. */
  lemma {:induction false} AnalysisAnswerContinues(c: Chat, a: Answer, now: int)
    requires Trim(c.input, Js) != "" && Contains(a.nextQuestion, AnalyzePhrase)
    ensures AsksToContinue(Submitted(c, Ok(a), now).messages)
  {
    assert a.nextQuestion != "" by {
      var i :| 0 <= i <= |a.nextQuestion| - |AnalyzePhrase| && ContainsAt(a.nextQuestion, AnalyzePhrase, i);
    }
    SubmitTranscript(c, Ok(a), now);
    var d := Submitted(c, Ok(a), now);
    assert d.messages[|d.messages| - 1] == Bot(a.nextQuestion);
    assert AutoContinuePhrases[0] == AnalyzePhrase;
  }

  /** The thanks for additional symptoms continues by itself but offers no continue button. */
  lemma ThanksContinuesWithoutButton()
    ensures AsksToContinue([Bot(AutoContinuePhrases[2])]) && !NeedsContinuation(Bot(AutoContinuePhrases[2]))
  {
    var t := AutoContinuePhrases[2];
    ContainsMiddle("", t, "");
    assert "" + t + "" == t;
    assert AutoContinuePhrases[1..][1..] == AutoContinuePhrases[2..];
    assert ContainsAny(t, AutoContinuePhrases[2..]);
    assert ContainsAny(t, AutoContinuePhrases[1..]);
    ThanksShowsNoButton();
  }

  // ------------------------------------------------------------ the history sidebar

  /** A regular item with saved messages replaces the transcript by the heading and those
    * messages, sets the step back to "start" and completes the conversation; an item without
    * messages changes nothing.  The count, the requests, the timers and the sidebar stay. */
  lemma ConversationViewedShows(c: Chat, saved: seq<Message>)
    ensures var d := ConversationViewed(c, saved);
      (saved == [] ==> d == c) &&
      (saved != [] ==> d.messages[0] == Bot(PreviousConversation) && d.messages[1..] == saved &&
                       d.step == "start" && d.complete) &&
      d.count == c.count && d.requests == c.requests && d.pending == c.pending &&
      d.history == c.history && d.userId == c.userId && d.atLogin == c.atLogin
  {
  }

  /** Opening the same conversation again shows what opening it once did. */
  lemma ConversationViewedIdempotent(c: Chat, saved: seq<Message>)
    ensures ConversationViewed(ConversationViewed(c, saved), saved) == ConversationViewed(c, saved)
  {
  }

  /** Displaying a summary shows only its heading and its text, sets the step back to "start"
    * and completes the conversation, and sends one /view_summary request naming the current
    * session and the item (none without a token, and the page goes to /login).  The count,
    * the timers and the sidebar stay. */
  lemma SummaryViewedShows(c: Chat, item: Entry, token: bool, heading: string, content: string)
    ensures var d := SummaryViewed(c, item, token, heading, content);
      d.messages == [Bot(heading), Bot(content)] && d.step == "start" && d.complete &&
      d.requests == c.requests + (if token then [ViewSummaryRequest(c.userId, item.id)] else []) &&
      d.atLogin == (c.atLogin || !token) &&
      d.count == c.count && d.pending == c.pending && d.history == c.history && d.userId == c.userId
  {
  }

  /** Clear empties the sidebar and changes nothing else. */
  lemma HistoryClearedEmpties(c: Chat)
    ensures HistoryCleared(c).history == [] && HistoryCleared(c).(history := c.history) == c
  {
  }
}
