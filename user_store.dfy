// The in-memory conversation store of the backend (user_data_store, get_user_data and
// update_user_data in backend/main.py): one record per user, each update appending
// one history entry and, for a few keys, also setting a field of the record.
module UserStore {
  import opened Strings

  /** One history entry: the key/value pair and, when given, the validation details. */
  type HistoryEntry = map<string, string>

  datatype UserData = UserData(
    userId: string,
    history: seq<HistoryEntry>,
    isExisting: bool,
    symptoms: seq<string>,
    previousHistory: string,
    medicationHistory: string,
    additionalSymptoms: string,
    diagnosis: string,
    critical: bool)

  /** The record of a user seen for the first time. */
  function NewUser(userId: string): (u: UserData)
    ensures u.userId == userId && u.history == [] && u.symptoms == [] && !u.critical && !u.isExisting
  {
    UserData(userId, [], false, [], "", "", "", "", false)
  }

  const DetailsKey := "validation_details"

  /** The keys that set a field of the record besides the history; every other key
    * (current_question, current_step, accident_info, ...) is Other. */
  datatype Field = Symptoms | PreviousHistory | MedicationHistory | AdditionalSymptoms | Diagnosis | Critical | Other

  function FieldOf(key: string): Field
  {
    if key == "symptoms" then Symptoms
    else if key == "previous_history" then PreviousHistory
    else if key == "medication_history" then MedicationHistory
    else if key == "additional_symptoms" then AdditionalSymptoms
    else if key == "diagnosis" then Diagnosis
    else if key == "critical" then Critical
    else Other
  }

  /** Whether the answer to "any other symptoms?" adds no symptom. */
  predicate NoMoreSymptoms(value: string)
  {
    var v := Lower(value);
    v == "no" || v == "none" || v == "not really" || v == "that's all"
  }

  /** The dictionary appended to the history; `details` is the validation details,
    * falsy when empty. */
  function Entry(key: string, value: string, details: string): HistoryEntry
  {
    var entry := map[key := value];
    if details != "" then entry[DetailsKey := details] else entry
  }

  /** The entry maps the key to the value and, when details are given, also carries
    * them (a key named like the details slot is then overwritten by them). */
  lemma EntryShape(key: string, value: string, details: string)
    ensures Entry(key, value, details).Keys == {key} + (if details != "" then {DetailsKey} else {})
    ensures key != DetailsKey || details == "" ==> Entry(key, value, details)[key] == value
    ensures details != "" ==> Entry(key, value, details)[DetailsKey] == details
  {
  }

  /** Whether an update of `key` with `value` adds a symptom. */
  predicate AddsSymptom(key: string, value: string)
  {
    FieldOf(key) == Symptoms || (FieldOf(key) == AdditionalSymptoms && !NoMoreSymptoms(value))
  }

  /** The record after one update: exactly one history entry is appended, then the
    * key's own field is set. */
  function Updated(u: UserData, key: string, value: string, details: string): UserData
  {
    SetField(u.(history := u.history + [Entry(key, value, details)]), key, value)
  }

  /** The fields a key sets: the symptom list grows only for "symptoms" and for a real
    * "additional_symptoms" answer; "critical" becomes whether the value is "yes";
    * each of the other field keys sets its own field; any other key sets nothing. */
  function SetField(u: UserData, key: string, value: string): UserData
  {
    var f := FieldOf(key);
    UserData(
      u.userId,
      u.history,
      u.isExisting,
      u.symptoms + SymptomOf(key, value),
      if f == PreviousHistory then value else u.previousHistory,
      if f == MedicationHistory then value else u.medicationHistory,
      if f == AdditionalSymptoms then value else u.additionalSymptoms,
      if f == Diagnosis then value else u.diagnosis,
      if f == Critical then Lower(value) == "yes" else u.critical)
  }

  lemma UpdatedOtherKey(u: UserData, key: string, value: string, details: string)
    requires FieldOf(key) == Other
    ensures Updated(u, key, value, details) == u.(history := u.history + [Entry(key, value, details)])
  {
  }

  /** One update as (key, value, details). */
  datatype Update = Update(key: string, value: string, details: string)

  function UpdatedAll(u: UserData, ops: seq<Update>): UserData
    decreases |ops|
  {
    if ops == [] then u
    else UpdatedAll(Updated(u, ops[0].key, ops[0].value, ops[0].details), ops[1..])
  }

  /** The history entries a run of updates logs. */
  function Entries(ops: seq<Update>): seq<HistoryEntry>
    decreases |ops|
  {
    if ops == [] then [] else [Entry(ops[0].key, ops[0].value, ops[0].details)] + Entries(ops[1..])
  }

  /** The symptom one update reports, if any. */
  function SymptomOf(key: string, value: string): seq<string>
  {
    if AddsSymptom(key, value) then [value] else []
  }

  /** The symptoms a run of updates reports, in order. */
  function SymptomsAdded(ops: seq<Update>): seq<string>
    decreases |ops|
  {
    if ops == [] then [] else SymptomOf(ops[0].key, ops[0].value) + SymptomsAdded(ops[1..])
  }

  lemma Assoc<T>(a: seq<T>, b: seq<T>, c: seq<T>)
    ensures a + b + c == a + (b + c)
  {
  }

  /** A run of updates logs exactly one entry per update, in order, and keeps the
    * user's id. */
  lemma {:induction false} UpdatedAllLogs(u: UserData, ops: seq<Update>)
    ensures UpdatedAll(u, ops).history == u.history + Entries(ops)
    ensures UpdatedAll(u, ops).userId == u.userId
    decreases |ops|
  {
    if ops != [] {
      var v := Updated(u, ops[0].key, ops[0].value, ops[0].details);
      UpdatedAllLogs(v, ops[1..]);
      Assoc(u.history, [Entry(ops[0].key, ops[0].value, ops[0].details)], Entries(ops[1..]));
    }
  }

  /** A run of updates appends exactly the reported symptoms to the symptom list. */
  lemma {:induction false} UpdatedAllSymptoms(u: UserData, ops: seq<Update>)
    ensures UpdatedAll(u, ops).symptoms == u.symptoms + SymptomsAdded(ops)
    decreases |ops|
  {
    if ops != [] {
      var v := Updated(u, ops[0].key, ops[0].value, ops[0].details);
      var added := SymptomOf(ops[0].key, ops[0].value);
      UpdatedSymptom(u, ops[0].key, ops[0].value, ops[0].details);
      UpdatedAllSymptoms(v, ops[1..]);
      Assoc(u.symptoms, added, SymptomsAdded(ops[1..]));
    }
  }

  lemma SymptomsAddedPair(a: Update, b: Update)
    ensures SymptomsAdded([a, b]) == SymptomOf(a.key, a.value) + SymptomOf(b.key, b.value)
  {
    assert [a, b][1..] == [b];
    assert [b][1..] == [];
    assert SymptomsAdded([b]) == SymptomOf(b.key, b.value) + SymptomsAdded([]);
    assert SymptomOf(b.key, b.value) + [] == SymptomOf(b.key, b.value);
  }

  lemma UpdatedSymptom(u: UserData, key: string, value: string, details: string)
    ensures Updated(u, key, value, details).symptoms == u.symptoms + SymptomOf(key, value)
  {
  }

  /** Whether no update of the run has one of the field keys. */
  predicate OnlyOtherKeys(ops: seq<Update>)
    decreases |ops|
  {
    ops == [] || (FieldOf(ops[0].key) == Other && OnlyOtherKeys(ops[1..]))
  }

  /** Updates with keys outside the field keys change nothing but the history. */
  lemma {:induction false} UpdatedAllOtherKeys(u: UserData, ops: seq<Update>)
    requires OnlyOtherKeys(ops)
    ensures UpdatedAll(u, ops) == u.(history := u.history + Entries(ops))
    decreases |ops|
  {
    if ops != [] {
      var v := Updated(u, ops[0].key, ops[0].value, ops[0].details);
      UpdatedOtherKey(u, ops[0].key, ops[0].value, ops[0].details);
      UpdatedAllOtherKeys(v, ops[1..]);
      Assoc(u.history, [Entry(ops[0].key, ops[0].value, ops[0].details)], Entries(ops[1..]));
    }
  }

  class UserDataStore {
    var store: map<string, UserData>

    constructor ()
      ensures store == map[]
    {
      store := map[];
    }

    /** The stored record, or a fresh one for an unknown user. */
    function GetUserData(userId: string): (u: UserData)
      reads this
      ensures userId in store ==> u == store[userId]
      ensures userId !in store ==> u == NewUser(userId)
    {
      if userId in store then store[userId] else NewUser(userId)
    }

    method UpdateUserData(userId: string, key: string, value: string, details: string)
      modifies this
      ensures store == old(store)[userId := Updated(old(GetUserData(userId)), key, value, details)]
    {
      var user := GetUserData(userId);
      var entry := map[key := value];
      if details != "" {
        entry := entry[DetailsKey := details];
      }
      user := user.(history := user.history + [entry]);
      user := ApplyKey(user, key, value);
      store := store[userId := user];
    }
  }

  /** The if/elif chain over the key. */
  method ApplyKey(u: UserData, key: string, value: string) returns (user: UserData)
    ensures user == SetField(u, key, value)
  {
    user := u;
    if key == "symptoms" {
      user := user.(symptoms := user.symptoms + [value]);
    } else if key == "previous_history" {
      user := user.(previousHistory := value);
    } else if key == "medication_history" {
      user := user.(medicationHistory := value);
    } else if key == "additional_symptoms" {
      user := user.(additionalSymptoms := value);
      if !NoMoreSymptoms(value) {
        user := user.(symptoms := user.symptoms + [value]);
      }
    } else if key == "diagnosis" {
      user := user.(diagnosis := value);
    } else if key == "critical" {
      user := user.(critical := Lower(value) == "yes");
    }
  }
}
