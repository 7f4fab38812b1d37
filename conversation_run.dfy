// What holds along any run of the chat page: every request it sends has the fixed flags of
// its kind and the requests are only ever extended; a completed conversation stays complete
// until a new consultation; and, along runs that open no history item, the transcript is
// only extended until a new consultation and every counted exchange has its answer in it.
// Opening a history item replaces the transcript without resetting the count.
module ConversationRun {
  import opened Wrappers
  import opened Strings
  import opened HistoryDedup
  import opened ChatView
  import opened Conversation
  import opened ConversationProperties

  /** The fixed flags of each kind of request. */
  predicate WellFormed(r: Request)
  {
    match r
    case ChatRequest(_, _, newConversation, resetContext, ignorePrevious) => ignorePrevious && newConversation == resetContext
    case ContinueRequest(_, response, _) => response == "continue"
    case DiagnosisRequest(_, fallback) => fallback
    case ResetRequest(_, reset, completeReset) => reset && completeReset
    case _ => true
  }

  predicate AllWellFormed(rs: seq<Request>)
  {
    forall i | 0 <= i < |rs| :: WellFormed(rs[i])
  }

  predicate IsPrefix<T(==)>(a: seq<T>, b: seq<T>)
  {
    |a| <= |b| && b[..|a|] == a
  }

  /** The event added only well-formed requests after the ones already sent. */
  predicate SendsWellFormed(c: Chat, d: Chat)
  {
    IsPrefix(c.requests, d.requests) && AllWellFormed(d.requests[|c.requests|..])
  }

  /** The state every run keeps. */
  predicate Consistent(c: Chat)
  {
    AllWellFormed(c.requests) && c.count < |Unloaded(c.messages)|
  }

  /** The exchanges counted so far each have their answer in the transcript. */
  predicate CountFits(c: Chat)
  {
    c.count < |Unloaded(c.messages)|
  }

  /** What one step keeps: the requests it adds are well-formed, the count still fits, and
    * when `ongoing` the transcript is only extended and completion is not taken back. */
  predicate StepKeeps(c: Chat, d: Chat, ongoing: bool)
  {
    SendsWellFormed(c, d) && (CountFits(c) ==> CountFits(d)) &&
    (ongoing ==> IsPrefix(Unloaded(c.messages), Unloaded(d.messages)) && (c.complete ==> d.complete))
  }

  lemma Sends(c: Chat, d: Chat, extra: seq<Request>)
    requires d.requests == c.requests + extra && AllWellFormed(extra)
    ensures SendsWellFormed(c, d)
  {
    assert d.requests[|c.requests|..] == extra;
    assert d.requests[..|c.requests|] == c.requests;
  }

  lemma ReplyExtends(u: seq<Message>, t: seq<Message>)
    requires OneReplyAfter(u, t)
    ensures IsPrefix(t, u) && |u| == |t| + 1
  {
  }

  // ------------------------------------------------------------ one step per flow

  lemma SubmitSends(c: Chat, reply: Reply<Answer>, now: int)
    requires Trim(c.input, Js) != ""
    ensures SendsWellFormed(c, Submitted(c, reply, now))
  {
    if reply.NoToken? {
      SubmitWithoutToken(c, now);
      Sends(c, Submitted(c, reply, now), []);
    } else {
      SubmitRequests(c, reply, now);
      SubmitSent(c, Submitted(c, reply, now), reply, now);
    }
  }

  lemma SubmitSent(c: Chat, d: Chat, reply: Reply<Answer>, now: int)
    requires !reply.NoToken?
    requires var isFirst := c.step == "start" && c.count == 0;
      d.requests == c.requests + [ChatRequest(c.userId, c.input, isFirst, isFirst, true)] +
        (if Answers(reply) then AnswerFollowUps(c.userId, c.input, reply.data, now) else [])
    ensures SendsWellFormed(c, d)
  {
    var isFirst := c.step == "start" && c.count == 0;
    var sent := [ChatRequest(c.userId, c.input, isFirst, isFirst, true)];
    var more := if Answers(reply) then AnswerFollowUps(c.userId, c.input, reply.data, now) else [];
    assert c.requests + sent + more == c.requests + (sent + more);
    assert AllWellFormed(sent + more);
    Sends(c, d, sent + more);
  }

  /** The transcript a submission leaves, from the facts proved about it. */
  lemma SubmitShape(c: Chat, d: Chat, answered: bool)
    requires OneReplyAfter(d.messages, Unloaded(c.messages) + [Message(User, c.input, false)])
    requires NoPlaceholder(d.messages)
    requires d.count == c.count + (if answered then 1 else 0)
    ensures CountFits(c) ==> CountFits(d)
    ensures IsPrefix(Unloaded(c.messages), Unloaded(d.messages))
  {
    UnloadedKeepsMessages(d.messages);
    var u := Unloaded(c.messages);
    var t := u + [Message(User, c.input, false)];
    assert d.messages[..|u|] == d.messages[..|t|][..|u|];
  }

  lemma SubmitKeeps(c: Chat, reply: Reply<Answer>, now: int)
    requires Trim(c.input, Js) != ""
    ensures var d := Submitted(c, reply, now);
      (CountFits(c) ==> CountFits(d)) && IsPrefix(Unloaded(c.messages), Unloaded(d.messages))
  {
    SubmitCounts(c, reply, now);
    SubmitTranscript(c, reply, now);
    SubmitShape(c, Submitted(c, reply, now), Answers(reply));
  }

  lemma SubmitStep(c: Chat, reply: Reply<Answer>, now: int)
    ensures StepKeeps(c, Submitted(c, reply, now), true)
  {
    if Trim(c.input, Js) != "" {
      SubmitSends(c, reply, now);
      SubmitKeeps(c, reply, now);
      SubmitCompletes(c, reply, now);
    } else {
      Sends(c, c, []);
    }
  }

  /** A step that adds one reply to the transcript and sends `sent`, from the facts proved
    * about it. */
  lemma ReplyStep(c: Chat, d: Chat, sent: seq<Request>)
    requires d.requests == c.requests + sent && AllWellFormed(sent)
    requires OneReplyAfter(Unloaded(d.messages), Unloaded(c.messages))
    requires d.count <= c.count + 1 && (c.complete ==> d.complete)
    ensures StepKeeps(c, d, true)
  {
    Sends(c, d, sent);
  }

  /** A step that leaves the transcript, the count and the requests alone and does not take
    * completion back. */
  lemma QuietStep(c: Chat, d: Chat)
    requires d.messages == c.messages && d.count == c.count && d.requests == c.requests
    requires c.complete ==> d.complete
    ensures StepKeeps(c, d, true)
  {
    Sends(c, d, []);
  }

  lemma ContinueStep(c: Chat, userId: string, early: bool, reply: Reply<Answer>)
    ensures StepKeeps(c, Continued(c, userId, early, reply), true)
  {
    ContinueRequests(c, userId, early, reply);
    ContinueFlags(c, userId, early, reply);
    ContinueTranscript(c, userId, early, reply);
    ContinueKeeps(c, Continued(c, userId, early, reply), userId, early, reply);
  }

  lemma ContinueKeeps(c: Chat, d: Chat, userId: string, early: bool, reply: Reply<Answer>)
    requires var sent := if reply.NoToken? then [] else [ContinueRequest(userId, "continue", !early)];
      var ended := Answers(reply) && reply.data.currentStep == "end";
      d.requests == c.requests + sent + (if ended then [UserDataRequest(userId)] else [])
    requires d.count == c.count + (if Answers(reply) then 1 else 0)
    requires d.complete <==> c.complete || (Answers(reply) && reply.data.currentStep == "end")
    requires OneReplyAfter(Unloaded(d.messages), Unloaded(c.messages))
    ensures StepKeeps(c, d, true)
  {
    var sent := if reply.NoToken? then [] else [ContinueRequest(userId, "continue", !early)];
    var ended := Answers(reply) && reply.data.currentStep == "end";
    var more := if ended then [UserDataRequest(userId)] else [];
    assert c.requests + sent + more == c.requests + (sent + more);
    ReplyStep(c, d, sent + more);
  }

  lemma DiagnosisStep(c: Chat, userId: string, reply: Reply<Answer>, now: int)
    ensures StepKeeps(c, Diagnosed(c, userId, reply, now), true)
  {
    DiagnosisRequests(c, userId, reply, now);
    DiagnosisFlags(c, userId, reply, now);
    DiagnosisTranscript(c, userId, reply, now);
    DiagnosisKeeps(c, Diagnosed(c, userId, reply, now), userId, reply, now);
  }

  lemma DiagnosisKeeps(c: Chat, d: Chat, userId: string, reply: Reply<Answer>, now: int)
    requires var sent := if reply.NoToken? then [] else [DiagnosisRequest(userId, true)];
      d.requests == c.requests + sent + (if reply.Ok? then DiagnosisFollowUps(userId, reply.data, now) else [])
    requires d.complete && d.count == c.count
    requires OneReplyAfter(Unloaded(d.messages), Unloaded(c.messages))
    ensures StepKeeps(c, d, true)
  {
    var sent := if reply.NoToken? then [] else [DiagnosisRequest(userId, true)];
    var more := if reply.Ok? then DiagnosisFollowUps(userId, reply.data, now) else [];
    assert c.requests + sent + more == c.requests + (sent + more);
    ReplyStep(c, d, sent + more);
  }

  lemma SummaryStep(c: Chat, reply: Reply<string>, now: int)
    ensures StepKeeps(c, Summarized(c, reply, now), true)
  {
    SummaryFlags(c, reply, now);
    SummaryTranscript(c, reply, now);
    var saves := if reply.Ok? then [SummarySave(c.userId, reply.data, now)] else [];
    assert forall i | 0 <= i < |saves| :: saves[i].SaveRequest?;
    SummaryKeeps(c, Summarized(c, reply, now), reply, saves);
  }

  lemma SummaryKeeps(c: Chat, d: Chat, reply: Reply<string>, saves: seq<Request>)
    requires var sent := if reply.NoToken? then [] else [SummaryRequest(c.userId)];
      d.requests == c.requests + sent + saves
    requires forall i | 0 <= i < |saves| :: saves[i].SaveRequest?
    requires d.count == c.count && d.complete == (c.complete || reply.Ok?)
    requires OneReplyAfter(Unloaded(d.messages), Unloaded(c.messages))
    ensures StepKeeps(c, d, true)
  {
    var sent := if reply.NoToken? then [] else [SummaryRequest(c.userId)];
    assert c.requests + sent + saves == c.requests + (sent + saves);
    assert AllWellFormed(sent + saves);
    ReplyStep(c, d, sent + saves);
  }

  lemma RestartStep(c: Chat, accountId: string, now: int, token: bool)
    ensures StepKeeps(c, Restarted(c, accountId, now, token), false)
  {
    var d := Restarted(c, accountId, now, token);
    RestartResets(c, accountId, now, token);
    Sends(c, d, if token then [ResetRequest(d.userId, true, true)] else []);
    UnloadedOne(Bot(WelcomeText));
  }

  lemma TimerStep(c: Chat, k: nat, reply: Reply<Answer>, now: int)
    requires k < |c.pending|
    ensures StepKeeps(c, Fired(c, k, reply, now), true)
  {
    var c1 := c.(pending := Unset(c.pending, k));
    if c.pending[k].ContinueTimer? {
      FiredContinue(c, k, reply, now);
      ContinueStep(c1, c.pending[k].userId, c.pending[k].early, reply);
    } else if c.pending[k].DiagnosisTimer? {
      FiredDiagnosis(c, k, reply, now);
      DiagnosisStep(c1, c.pending[k].userId, reply, now);
    } else {
      FiredTransition(c, k, reply, now);
      TransitionStep(c1, c.pending[k].userId);
    }
  }

  /** "Continue Anyway" only adds a placeholder and a timer. */
  lemma InvalidStep(c: Chat)
    ensures StepKeeps(c, InvalidHandled(c), true)
  {
    InvalidHandledShows(c);
    Sends(c, InvalidHandled(c), []);
  }

  lemma TransitionStep(c: Chat, userId: string)
    ensures StepKeeps(c, TransitionShown(c, userId), true)
  {
    TransitionShownMessages(c, userId);
    assert c.requests + [] == c.requests;
    ReplyStep(c, TransitionShown(c, userId), []);
  }

  lemma LimitStep(c: Chat, reply: Reply<Answer>, now: int)
    ensures StepKeeps(c, LimitChecked(c, reply, now), true)
  {
    if AtExchangeLimit(c) {
      DiagnosisStep(c, c.userId, reply, now);
    } else {
      QuietStep(c, c);
    }
  }

  lemma CompletionStep(c: Chat)
    ensures StepKeeps(c, CompletionChecked(c), true)
  {
    CompletionCheckedFlags(c);
    var done := IsFinalStep(c.step) || HasReachedRecommendations(c.messages);
    Sends(c, CompletionChecked(c), if done then [UserDataRequest(c.userId)] else []);
  }

  lemma SignInStep(c: Chat, account: Option<string>, reply: Reply<seq<Entry>>)
    ensures StepKeeps(c, SignedIn(c, account, reply), true)
  {
    if account.Some? && !reply.NoToken? {
      Sends(c, SignedIn(c, account, reply), [HistoryRequest(account.value)]);
    } else {
      Sends(c, SignedIn(c, account, reply), []);
    }
  }

  /** Opening a history item sends only well-formed requests and leaves the conversation
    * complete, but rewrites the transcript. */
  lemma ViewStep(c: Chat, item: Entry, saved: seq<Message>, token: bool, heading: string, content: string)
    ensures var d := HistoryItemOpened(c, item, saved, token, heading, content);
      SendsWellFormed(c, d) && (c.complete ==> d.complete)
  {
    var d := HistoryItemOpened(c, item, saved, token, heading, content);
    if IsSummary(item) {
      Sends(c, d, if token then [ViewSummaryRequest(c.userId, item.id)] else []);
    } else {
      Sends(c, d, []);
    }
  }

  /** Every event sends only well-formed requests and, except a new consultation, keeps
    * completion; every event but opening a history item keeps the step properties, and of
    * those only a new consultation rewrites the transcript. */
  lemma EventStep(c: Chat, e: Event)
    ensures SendsWellFormed(c, Apply(c, e))
    ensures !e.NewConsultation? ==> (c.complete ==> Apply(c, e).complete)
    ensures !e.OpenHistoryItem? ==> StepKeeps(c, Apply(c, e), !e.NewConsultation?)
  {
    if e.OpenHistoryItem? {
      ViewStep(c, e.item, e.saved, e.token, e.heading, e.content);
    } else if e.Submit? || e.GetDiagnosis? || e.GetSummary? || e.NewConsultation? {
      RequestStep(c, e);
    } else {
      EffectStep(c, e);
    }
  }

  /** The events where the user asks for something. */
  lemma RequestStep(c: Chat, e: Event)
    requires e.Submit? || e.GetDiagnosis? || e.GetSummary? || e.NewConsultation?
    ensures StepKeeps(c, Apply(c, e), !e.NewConsultation?)
  {
    match e
    case Submit(answer, now) => SubmitStep(c, answer, now);
    case GetDiagnosis(answer, now) => DiagnosisStep(c, c.userId, answer, now);
    case GetSummary(summary, now) => SummaryStep(c, summary, now);
    case NewConsultation(accountId, now, token) => RestartStep(c, accountId, now, token);
  }

  /** The typing, the buttons under a message, the effects, the timers, the loads and the
    * sidebar's Clear button. */
  lemma EffectStep(c: Chat, e: Event)
    requires !(e.Submit? || e.GetDiagnosis? || e.GetSummary? || e.NewConsultation? || e.OpenHistoryItem?)
    ensures StepKeeps(c, Apply(c, e), true)
  {
    match e
    case Type(text) => QuietStep(c, Typed(c, text));
    case ContinueNow(answer) => ContinueStep(c, c.userId, IsEarly(c), answer);
    case ContinueAnyway => InvalidStep(c);
    case CheckCompletion => CompletionStep(c);
    case CheckRecommendations => QuietStep(c, RecommendationChecked(c));
    case CheckAutoContinue => QuietStep(c, AutoContinueChecked(c));
    case CheckLimit(answer, now) => LimitStep(c, answer, now);
    case TimerFires(k, answer, now) =>
      if k < |c.pending| {
        TimerStep(c, k, answer, now);
      } else {
        QuietStep(c, c);
      }
    case SignIn(account, history) => SignInStep(c, account, history);
    case PatientLoaded(data) => QuietStep(c, UserDataLoaded(c, data));
    case ClearHistory => QuietStep(c, HistoryCleared(c));
  }

  // ------------------------------------------------------------ whole runs

  lemma {:induction false} WellFormedAppend(a: seq<Request>, b: seq<Request>)
    requires AllWellFormed(a) && AllWellFormed(b)
    ensures AllWellFormed(a + b)
  {
    forall i | 0 <= i < |a + b| ensures WellFormed((a + b)[i]) {
      if i < |a| {
        assert (a + b)[i] == a[i];
      } else {
        assert (a + b)[i] == b[i - |a|];
      }
    }
  }

  /** A step that sends only well-formed requests keeps every request sent well-formed. */
  lemma {:induction false} SendsKeep(c: Chat, d: Chat)
    requires AllWellFormed(c.requests) && SendsWellFormed(c, d)
    ensures AllWellFormed(d.requests)
  {
    assert d.requests == d.requests[..|c.requests|] + d.requests[|c.requests|..];
    WellFormedAppend(c.requests, d.requests[|c.requests|..]);
  }

  /** A step that keeps the step properties keeps the run invariant. */
  lemma {:induction false} Preserves(c: Chat, d: Chat, ongoing: bool)
    requires Consistent(c) && StepKeeps(c, d, ongoing)
    ensures Consistent(d)
  {
    SendsKeep(c, d);
  }

  /** No event of the run opens a history item. */
  predicate NoHistoryView(events: seq<Event>)
  {
    forall k | 0 <= k < |events| :: !events[k].OpenHistoryItem?
  }

  lemma NoHistoryViewTail(events: seq<Event>)
    requires events != [] && NoHistoryView(events)
    ensures !events[0].OpenHistoryItem? && NoHistoryView(events[1..])
  {
    forall k | 0 <= k < |events[1..]| ensures !events[1..][k].OpenHistoryItem? {
      assert events[1..][k] == events[k + 1];
    }
  }

  lemma ConsistentStep(c: Chat, e: Event)
    requires Consistent(c) && !e.OpenHistoryItem?
    ensures Consistent(Apply(c, e))
  {
    EventStep(c, e);
    Preserves(c, Apply(c, e), !e.NewConsultation?);
  }

  /** Along any run, every request sent has the fixed flags of its kind (in particular every
    * /chat request asks to ignore the previous context). */
  lemma {:induction false} RunWellFormed(c: Chat, events: seq<Event>)
    requires AllWellFormed(c.requests)
    ensures AllWellFormed(Run(c, events).requests)
    decreases |events|
  {
    if events != [] {
      var d := Apply(c, events[0]);
      EventStep(c, events[0]);
      SendsKeep(c, d);
      RunWellFormed(d, events[1..]);
    }
  }

  /** Along any run from the mounted page that opens no history item, every request sent is
    * well-formed and every counted exchange has its answer in the transcript. */
  lemma {:induction false} RunConsistent(c: Chat, events: seq<Event>)
    requires Consistent(c) && NoHistoryView(events)
    ensures Consistent(Run(c, events))
    decreases |events|
  {
    if events != [] {
      NoHistoryViewTail(events);
      ConsistentStep(c, events[0]);
      RunConsistent(Apply(c, events[0]), events[1..]);
    }
  }

  /** Opening a history item does not reset the exchange count, so the count can outgrow
    * the transcript it replaces. */
  lemma HistoryViewOutgrowsCount()
    ensures var c := Initial("u").(messages := [Bot("a"), Bot("b"), Bot("c")], count := 2);
      var d := Apply(c, OpenHistoryItem(Entry(1, "chat", "t", 1), [Bot("x")], true, "", ""));
      Consistent(c) && !Consistent(d)
  {
    var c := Initial("u").(messages := [Bot("a"), Bot("b"), Bot("c")], count := 2);
    var d := Apply(c, OpenHistoryItem(Entry(1, "chat", "t", 1), [Bot("x")], true, "", ""));
    assert d.messages == [Bot(PreviousConversation), Bot("x")];
    UnloadedKeepsMessages(c.messages);
    UnloadedKeepsMessages(d.messages);
    assert Unloaded(c.messages) == c.messages;
    assert Unloaded(d.messages) == d.messages;
  }

  lemma MountedConsistent(userId: string)
    ensures Consistent(Initial(userId))
  {
    UnloadedOne(Bot(WelcomeText));
  }

  /** Without a new consultation, a run only extends the requests and never takes completion
    * back; when it opens no history item it also only extends the transcript. */
  lemma {:induction false} RunExtends(c: Chat, events: seq<Event>)
    requires forall k | 0 <= k < |events| :: !events[k].NewConsultation?
    ensures var d := Run(c, events);
      IsPrefix(c.requests, d.requests) && (c.complete ==> d.complete) &&
      (NoHistoryView(events) ==> IsPrefix(Unloaded(c.messages), Unloaded(d.messages)))
    decreases |events|
  {
    if events != [] {
      var c1 := Apply(c, events[0]);
      EventStep(c, events[0]);
      assert forall k | 0 <= k < |events[1..]| :: events[1..][k] == events[k + 1];
      RunExtends(c1, events[1..]);
      var d := Run(c1, events[1..]);
      assert d.requests[..|c.requests|] == d.requests[..|c1.requests|][..|c.requests|];
      if NoHistoryView(events) {
        NoHistoryViewTail(events);
        assert Unloaded(d.messages)[..|Unloaded(c.messages)|] ==
          Unloaded(d.messages)[..|Unloaded(c1.messages)|][..|Unloaded(c.messages)|];
      }
    }
  }
}
