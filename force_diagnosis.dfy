// The force_diagnosis endpoint of backend/main.py: the user's stored history is scanned
// for an asthma emergency; if one is found the emergency guidance is stored as the next
// question, otherwise the diagnosis card is produced at once and the criticality
// question is next.
module ForceDiagnosis {
  import opened Strings
  import opened UserStore
  import opened Routing
  import opened Handlers
  import opened DiagnosisCard
  import opened UrgentAdvice

  // ------------------------------------------------------------ the scan

  /** The signs the scan looks for in one stored value. */
  datatype Sign = Asthma | LostInhaler | BreathingTrouble

  /** Whether a value shows the sign: "asthma"; "lost" and "inhaler" both in the same
    * value; or one of the breathing phrases (all compared lower-cased). */
  predicate Shows(value: string, sign: Sign)
  {
    var lower := Lower(value);
    match sign
    case Asthma => Contains(lower, "asthma")
    case LostInhaler => Contains(lower, "lost") && Contains(lower, "inhaler")
    case BreathingTrouble =>
      Contains(lower, "can't breathe") || Contains(lower, "cant breathe") || Contains(lower, "difficulty breathing")
  }

  /** Whether some value of the entry shows the sign.  The validation details are not
    * read: the endpoint stores them as dictionaries, which the scan skips. */
  predicate EntryShows(entry: HistoryEntry, sign: Sign)
  {
    exists key | key in entry && key != DetailsKey :: Shows(entry[key], sign)
  }

  /** Whether some entry of the history shows the sign. */
  predicate HistoryShows(h: seq<HistoryEntry>, sign: Sign)
    decreases |h|
  {
    h != [] && (HistoryShows(h[..|h| - 1], sign) || EntryShows(h[|h| - 1], sign))
  }

  lemma {:induction false} HistoryShowsMeans(h: seq<HistoryEntry>, sign: Sign)
    ensures HistoryShows(h, sign) <==> exists i | 0 <= i < |h| :: EntryShows(h[i], sign)
    decreases |h|
  {
    if h != [] {
      var init := h[..|h| - 1];
      HistoryShowsMeans(init, sign);
      forall i | 0 <= i < |init| ensures init[i] == h[i] {
      }
    }
  }

  /** An asthma patient who lost the inhaler or cannot breathe. */
  predicate IsEmergency(h: seq<HistoryEntry>)
  {
    HistoryShows(h, Asthma) && (HistoryShows(h, LostInhaler) || HistoryShows(h, BreathingTrouble))
  }

  /** The loop over the entries: the three flags of the scan. */
  method ScanHistory(h: seq<HistoryEntry>) returns (asthma: bool, lostInhaler: bool, breathing: bool)
    ensures asthma == HistoryShows(h, Asthma)
    ensures lostInhaler == HistoryShows(h, LostInhaler)
    ensures breathing == HistoryShows(h, BreathingTrouble)
  {
    asthma, lostInhaler, breathing := false, false, false;
    var i := 0;
    while i < |h|
      invariant 0 <= i <= |h|
      invariant asthma == HistoryShows(h[..i], Asthma)
      invariant lostInhaler == HistoryShows(h[..i], LostInhaler)
      invariant breathing == HistoryShows(h[..i], BreathingTrouble)
    {
      assert h[..i + 1][..i] == h[..i];
      asthma, lostInhaler, breathing := ScanEntry(h[i], asthma, lostInhaler, breathing);
      i := i + 1;
    }
    assert h[..i] == h;
  }

  /** The loop over one entry's slots, raising the flags its values show. */
  method ScanEntry(entry: HistoryEntry, asthma0: bool, lost0: bool, breathing0: bool)
    returns (asthma: bool, lostInhaler: bool, breathing: bool)
    ensures asthma == (asthma0 || EntryShows(entry, Asthma))
    ensures lostInhaler == (lost0 || EntryShows(entry, LostInhaler))
    ensures breathing == (breathing0 || EntryShows(entry, BreathingTrouble))
  {
    asthma, lostInhaler, breathing := asthma0, lost0, breathing0;
    var keys := entry.Keys;
    while keys != {}
      invariant keys <= entry.Keys
      invariant asthma == (asthma0 || exists key | key in entry && key != DetailsKey && key !in keys :: Shows(entry[key], Asthma))
      invariant lostInhaler == (lost0 || exists key | key in entry && key != DetailsKey && key !in keys :: Shows(entry[key], LostInhaler))
      invariant breathing == (breathing0 || exists key | key in entry && key != DetailsKey && key !in keys :: Shows(entry[key], BreathingTrouble))
      decreases keys
    {
      var key :| key in keys;
      if key != DetailsKey {
        var value := entry[key];
        if Shows(value, Asthma) {
          asthma := true;
        }
        if Shows(value, LostInhaler) {
          lostInhaler := true;
        }
        if Shows(value, BreathingTrouble) {
          breathing := true;
        }
      }
      keys := keys - {key};
    }
  }

  // ------------------------------------------------------------ the endpoint

  const AsthmaHeader := "⚠️ URGENT ASTHMA EMERGENCY ⚠️"
  const AsthmaSteps: seq<string> := [
    "Call emergency services (911) immediately",
    "Sit upright in a comfortable position",
    "Try to remain calm and take slow breaths",
    "Remove tight clothing and stay in fresh air"]
  const AsthmaFooter := "Without an inhaler, an asthma attack can be life-threatening. Seek emergency help immediately."

  /** The fixed asthma emergency message. */
  function AsthmaHtml(): string
  {
    UrgentCard(AsthmaHeader, AsthmaSteps, AsthmaFooter)
  }

  /** The answer of the endpoint: the next question and step, or an HTTP error (the
    * 400 for a missing user id is raised inside the try block and answered as 500). */
  datatype Reply = Reply(nextQuestion: string, currentStep: string) | Failure(status: int)

  const InternalError := 500

  /** The updates the endpoint makes for a user with history `h`, given the model's
    * diagnosis `content`: the emergency guidance, or the diagnosis handler's own write
    * followed by the card and the criticality step. */
  function ForcedWrites(h: seq<HistoryEntry>, content: string): seq<Update>
  {
    if IsEmergency(h) then EmergencyWrites() else DiagnosisWrites(content)
  }

  function EmergencyWrites(): seq<Update>
  {
    [Update("current_question", AsthmaHtml(), ""), Update("current_step", "emergency_services", "")]
  }

  function DiagnosisWrites(content: string): seq<Update>
  {
    [Update("diagnosis", content, ""), Update("current_question", DiagnosisHtml(Parse(content)), ""),
     Update("current_step", "criticality", "")]
  }

  function ForcedReply(h: seq<HistoryEntry>, content: string): Reply
  {
    if IsEmergency(h) then Reply(AsthmaHtml(), "emergency_services")
    else Reply(DiagnosisHtml(Parse(content)), "criticality")
  }

  method ForceDiagnosis(users: UserDataStore, userId: string, content: string) returns (reply: Reply)
    modifies users
    ensures userId == "" ==> reply == Failure(InternalError) && users.store == old(users.store)
    ensures userId != "" ==>
      var u := old(users.GetUserData(userId));
      reply == ForcedReply(u.history, content) &&
      users.store == old(users.store)[userId := UpdatedAll(u, ForcedWrites(u.history, content))]
  {
    if userId == "" {
      return Failure(InternalError);
    }
    var u := users.GetUserData(userId);
    var asthma, lostInhaler, breathing := ScanHistory(u.history);
    if asthma && (lostInhaler || breathing) {
      assert ForcedWrites(u.history, content) == EmergencyWrites();
      reply := StoreEmergency(users, userId);
    } else {
      assert ForcedWrites(u.history, content) == DiagnosisWrites(content);
      reply := StoreDiagnosis(users, userId, content);
    }
  }

  /** The emergency branch: the guidance and the emergency step are stored. */
  method StoreEmergency(users: UserDataStore, userId: string) returns (reply: Reply)
    modifies users
    ensures reply == Reply(AsthmaHtml(), "emergency_services")
    ensures users.store == old(users.store)[userId := UpdatedAll(old(users.GetUserData(userId)), EmergencyWrites())]
  {
    var w := EmergencyWrites();
    StoreTwo(users, userId, w[0], w[1]);
    assert w == [w[0], w[1]];
    reply := Reply(w[0].value, w[1].value);
  }

  /** The diagnosis branch: diagnosis_prep_handler runs (its own write of the diagnosis
    * included), then its card and the criticality step are stored. */
  method StoreDiagnosis(users: UserDataStore, userId: string, content: string) returns (reply: Reply)
    modifies users
    ensures reply == Reply(DiagnosisHtml(Parse(content)), "criticality")
    ensures users.store == old(users.store)[userId := UpdatedAll(old(users.GetUserData(userId)), DiagnosisWrites(content))]
  {
    var t := DiagnosisPrep(content);
    var w := [t.writes[0], Update("current_question", t.question, ""), Update("current_step", "criticality", "")];
    assert w == DiagnosisWrites(content);
    StoreThree(users, userId, w[0], w[1], w[2]);
    reply := Reply(w[1].value, w[2].value);
  }

  /** Two consecutive calls of update_user_data for the same user. */
  method StoreTwo(users: UserDataStore, userId: string, a: Update, b: Update)
    modifies users
    ensures users.store == old(users.store)[userId := UpdatedAll(old(users.GetUserData(userId)), [a, b])]
  {
    ghost var u := users.GetUserData(userId);
    users.UpdateUserData(userId, a.key, a.value, a.details);
    ghost var v := Updated(u, a.key, a.value, a.details);
    assert users.GetUserData(userId) == v;
    users.UpdateUserData(userId, b.key, b.value, b.details);
    UpdatedTwo(u, a, b);
  }

  /** Three consecutive calls of update_user_data for the same user. */
  method StoreThree(users: UserDataStore, userId: string, a: Update, b: Update, c: Update)
    modifies users
    ensures users.store == old(users.store)[userId := UpdatedAll(old(users.GetUserData(userId)), [a, b, c])]
  {
    ghost var u := users.GetUserData(userId);
    users.UpdateUserData(userId, a.key, a.value, a.details);
    ghost var v := Updated(u, a.key, a.value, a.details);
    assert users.GetUserData(userId) == v;
    StoreTwo(users, userId, b, c);
    assert [a, b, c][1..] == [b, c];
  }

  /** UpdatedAll over two and over three updates, written out. */
  lemma UpdatedTwo(u: UserData, a: Update, b: Update)
    ensures UpdatedAll(u, [a, b]) == Updated(Updated(u, a.key, a.value, a.details), b.key, b.value, b.details)
  {
    var v := Updated(u, a.key, a.value, a.details);
    assert [a, b][1..] == [b];
    assert [b][1..] == [];
    assert UpdatedAll(u, [a, b]) == UpdatedAll(v, [b]);
    assert UpdatedAll(v, [b]) == UpdatedAll(Updated(v, b.key, b.value, b.details), []);
  }

  lemma UpdatedThree(u: UserData, a: Update, b: Update, c: Update)
    ensures UpdatedAll(u, [a, b, c]) ==
      Updated(Updated(Updated(u, a.key, a.value, a.details), b.key, b.value, b.details), c.key, c.value, c.details)
  {
    assert [a, b, c][1..] == [b, c];
    UpdatedTwo(Updated(u, a.key, a.value, a.details), b, c);
  }

  // ------------------------------------------------------------ properties

  /** The emergency guidance is given exactly when some entry mentions asthma and some
    * entry (the same or another) shows a lost inhaler or breathing trouble; without an
    * asthma mention the diagnosis card is always produced. */
  lemma EmergencyExactly(h: seq<HistoryEntry>, content: string)
    ensures ForcedReply(h, content).currentStep == "emergency_services" <==>
      (exists i | 0 <= i < |h| :: EntryShows(h[i], Asthma)) &&
      exists j | 0 <= j < |h| :: EntryShows(h[j], LostInhaler) || EntryShows(h[j], BreathingTrouble)
    ensures (forall i | 0 <= i < |h| :: !EntryShows(h[i], Asthma)) ==>
      ForcedReply(h, content) == Reply(DiagnosisHtml(Parse(content)), "criticality")
  {
    EmergencyStep(h, content);
    HistoryShowsMeans(h, Asthma);
    HistoryShowsMeans(h, LostInhaler);
    HistoryShowsMeans(h, BreathingTrouble);
  }

  lemma EmergencyStep(h: seq<HistoryEntry>, content: string)
    ensures ForcedReply(h, content).currentStep == "emergency_services" <==> IsEmergency(h)
  {
    assert "criticality"[0] != "emergency_services"[0];
  }

  /** After the endpoint, the next chat request resumes from the reported step and
    * validates against the reported question. */
  lemma ReplyIsResumed(u: UserData, content: string)
    ensures var after := UpdatedAll(u, ForcedWrites(u.history, content));
      var reply := ForcedReply(u.history, content);
      LastStep(after.history) == reply.currentStep && PreviousQuestion(after.history) == reply.nextQuestion
  {
    if IsEmergency(u.history) {
      assert ForcedWrites(u.history, content) == EmergencyWrites();
      assert ForcedReply(u.history, content) == Reply(AsthmaHtml(), "emergency_services");
      EmergencyResumed(u);
    } else {
      assert ForcedWrites(u.history, content) == DiagnosisWrites(content);
      assert ForcedReply(u.history, content) == Reply(DiagnosisHtml(Parse(content)), "criticality");
      DiagnosisResumed(u, content);
    }
  }

  lemma EmergencyResumed(u: UserData)
    ensures var after := UpdatedAll(u, EmergencyWrites());
      LastStep(after.history) == "emergency_services" && PreviousQuestion(after.history) == AsthmaHtml()
  {
    var w := EmergencyWrites();
    UpdatedTwo(u, w[0], w[1]);
    QuestionThenStep(u, w[0].value, w[1].value);
  }

  lemma DiagnosisResumed(u: UserData, content: string)
    ensures var after := UpdatedAll(u, DiagnosisWrites(content));
      LastStep(after.history) == "criticality" && PreviousQuestion(after.history) == DiagnosisHtml(Parse(content))
  {
    var w := DiagnosisWrites(content);
    UpdatedThree(u, w[0], w[1], w[2]);
    QuestionThenStep(Updated(u, w[0].key, w[0].value, w[0].details), w[1].value, w[2].value);
  }

  /** Storing a question and then a step makes them the latest of each. */
  lemma QuestionThenStep(v: UserData, question: string, step: string)
    ensures var after := Updated(Updated(v, "current_question", question, ""), "current_step", step, "");
      LastStep(after.history) == step && PreviousQuestion(after.history) == question
  {
    var mid := Updated(v, "current_question", question, "");
    LastValueAfterUpdate(v, "current_question", question, "", "current_question", "How can I help you?");
    LastValueAfterUpdate(mid, "current_step", step, "", "current_question", "How can I help you?");
    LastValueAfterUpdate(mid, "current_step", step, "", "current_step", "start");
  }
}
