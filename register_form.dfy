// The three-step registration wizard of frontend/src/RegisterPage.jsx: the first-step checks
// (name, e-mail, password, confirmation), the second-step checks (gender, age), the name
// sanitising of handleChange, the three lists of step 3 with their add and remove buttons,
// and the Next/Back buttons that move between the steps.
module RegisterForm {
  import opened Wrappers
  import opened Strings
  import opened ValidationPatterns
  import opened JsNumbers
  import opened FormChecks

  // ------------------------------------------------------------ form data

  /** The `formData` state object. */
  datatype FormData = FormData(
    name: string, email: string, password: string, confirmPassword: string,
    gender: string, age: string,
    comorbidities: seq<string>, medications: seq<string>, allergies: seq<string>)

  const EmptyForm := FormData("", "", "", "", "", "", [], [], [])

  /** The fields of the form that carry an error message; gender is set by buttons of its
    * own, the others by handleChange. */
  datatype Field = NameField | EmailField | PasswordField | ConfirmField | GenderField | AgeField

  /** The `name` attribute of the input, which is also its key in `errors`. */
  function JsName(f: Field): string
  {
    match f
    case NameField => "name"
    case EmailField => "email"
    case PasswordField => "password"
    case ConfirmField => "confirmPassword"
    case GenderField => "gender"
    case AgeField => "age"
  }

  /** The step whose page renders the field. */
  function InputStep(f: Field): int
  {
    if f == GenderField || f == AgeField then 2 else 1
  }

  function Set(d: FormData, f: Field, v: string): FormData
  {
    match f
    case NameField => d.(name := v)
    case EmailField => d.(email := v)
    case PasswordField => d.(password := v)
    case ConfirmField => d.(confirmPassword := v)
    case GenderField => d.(gender := v)
    case AgeField => d.(age := v)
  }

  /** The three lists of step 3. */
  datatype ListKind = Comorbidities | Medications | Allergies

  function Items(d: FormData, k: ListKind): seq<string>
  {
    match k
    case Comorbidities => d.comorbidities
    case Medications => d.medications
    case Allergies => d.allergies
  }

  function WithItems(d: FormData, k: ListKind, l: seq<string>): (r: FormData)
    ensures Items(r, k) == l
    ensures forall k' | k' != k :: Items(r, k') == Items(d, k')
    ensures r.name == d.name && r.email == d.email && r.password == d.password
    ensures r.confirmPassword == d.confirmPassword && r.gender == d.gender && r.age == d.age
  {
    match k
    case Comorbidities => d.(comorbidities := l)
    case Medications => d.(medications := l)
    case Allergies => d.(allergies := l)
  }

  // ------------------------------------------------------------ step 1

  const NameRequired := "Name is required"
  const NameTooShort := "Name must be at least 2 characters"
  const NameAlphabet := "Name should only contain alphabets and spaces"

  predicate IsNameLetter(c: char)
  {
    IsLetter(c) || IsJsSpace(c)
  }

  /** /^[A-Za-z\s]+$/ */
  predicate LettersAndSpaces(s: string)
  {
    |s| >= 1 && forall i | 0 <= i < |s| :: IsNameLetter(s[i])
  }

  /** Blank after trimming, then shorter than two after trimming, then a character outside
    * letters and white space; the first failure is the message. */
  function NameError(name: string): Option<string>
  {
    var t := Trim(name, Js);
    if t == [] then Some(NameRequired)
    else if |t| < 2 then Some(NameTooShort)
    else if !LettersAndSpaces(name) then Some(NameAlphabet)
    else None
  }

  /** A name the page accepts matches the exported NAME pattern. */
  lemma AcceptedNameMatchesPattern(name: string)
    requires NameError(name) == None
    ensures NamePattern(name)
  {
    TrimIsSlice(name, Js);
  }

  /** The first test fails exactly for trimmed-blank names. */
  lemma NameRequiredIffBlank(name: string)
    ensures NameError(name) == Some(NameRequired) <==> IsBlank(name, Js)
  {
    TrimEmptyIffBlank(name, Js);
  }

  /** value.replace(/[^A-Za-z\s]/g, ''): the letters and white space of `v`, in order. */
  function Sanitize(v: string): (r: string)
    ensures |r| <= |v|
    ensures forall i | 0 <= i < |r| :: IsNameLetter(r[i])
    ensures (forall i | 0 <= i < |v| :: IsNameLetter(v[i])) ==> r == v
    decreases |v|
  {
    if v == [] then []
    else (if IsNameLetter(v[0]) then [v[0]] else []) + Sanitize(v[1..])
  }

  /** A name typed through handleChange never gets the alphabet message. */
  lemma SanitizedNameKeepsAlphabet(v: string)
    ensures NameError(Sanitize(v)) != Some(NameAlphabet)
  {
  }

  /** Sanitising twice is sanitising once. */
  lemma SanitizeIdempotent(v: string)
    ensures Sanitize(Sanitize(v)) == Sanitize(v)
  {
  }

  const PasswordRequired := "Password is required"

  /** Empty (not trimmed) is "required"; then the shared strength chain. */
  function RegisterPasswordError(p: string): (e: Option<string>)
    ensures e == None <==> StrengthError(p) == None
  {
    if p == "" then Some(PasswordRequired) else StrengthError(p)
  }

  function ConfirmError(password: string, confirm: string): (e: Option<string>)
    ensures e == None <==> confirm != "" && confirm == password
  {
    if confirm == "" then Some("Please confirm your password")
    else if password != confirm then Some("Passwords do not match")
    else None
  }

  /** validateFirstStep's record: one entry per failing field, holding its first failure. */
  function FirstStepErrors(d: FormData): (r: ErrorRecord<Field>)
    ensures r.Keys <= {NameField, EmailField, PasswordField, ConfirmField}
    ensures NameField in r <==> NameError(d.name).Some?
    ensures EmailField in r <==> EmailError(d.email).Some?
    ensures PasswordField in r <==> RegisterPasswordError(d.password).Some?
    ensures ConfirmField in r <==> ConfirmError(d.password, d.confirmPassword).Some?
  {
    var name, email := NameError(d.name), EmailError(d.email);
    var password, confirm := RegisterPasswordError(d.password), ConfirmError(d.password, d.confirmPassword);
    var r1 := Record(map[], NameField, name);
    var r2 := Record(r1, EmailField, email);
    var r3 := Record(r2, PasswordField, password);
    Record(r3, ConfirmField, confirm)
  }

  /** Every field of step 1 passes its checks. */
  predicate FirstStepPassed(d: FormData)
  {
    NameError(d.name) == None && EmailError(d.email) == None &&
    RegisterPasswordError(d.password) == None && ConfirmError(d.password, d.confirmPassword) == None
  }

  /** validateFirstStep returns true exactly when the record is empty, that is when every
    * field passes; a passing first step has a NAME-pattern name, an e-mail with an '@' and a
    * dot, a strong password and a matching confirmation. */
  lemma FirstStepPasses(d: FormData)
    ensures FirstStepErrors(d) == map[] <==> FirstStepPassed(d)
    ensures FirstStepErrors(d) == map[] ==>
      NamePattern(d.name) && LooseEmail(d.email) && StrengthError(d.password) == None &&
      d.confirmPassword == d.password
  {
    var r := FirstStepErrors(d);
    if r == map[] {
      assert NameField !in r && EmailField !in r && PasswordField !in r && ConfirmField !in r;
      AcceptedNameMatchesPattern(d.name);
    }
  }

  // ------------------------------------------------------------ step 2

  const AgeRequired := "Age is required"
  const AgeInvalid := "Please enter a valid age (1-120)"

  function GenderError(gender: string): Option<string>
  {
    if gender == "" then Some("Gender is required") else None
  }

  /** The age test as the page writes it: isNaN(age) || parseInt(age) <= 0 ||
    * parseInt(age) > 120.  When parseInt gives NaN both comparisons are false. */
  function AgeErrorAsWritten(age: string): Option<string>
  {
    if age == "" then Some(AgeRequired)
    else if IsNaNString(age) then Some(AgeInvalid)
    else if ParseInt(age).Some? && (ParseInt(age).value <= 0 || ParseInt(age).value > 120) then
      Some(AgeInvalid)
    else None
  }

  /** ".5" is a valid value of a number input; it passes the written test although parseInt
    * reads no digit from it, so the page then posts `age: null` (NaN serialised), which the
    * back end's integer age field rejects. */
  lemma FractionAgePassesAsWritten()
    ensures AgeErrorAsWritten(".5") == None && ParseInt(".5") == None
  {
    var s := ".5";
    assert !IsJsSpace(s[0]) && !IsJsSpace(s[1]);
    TrimOfTrimmed(s, Js);
    assert DigitRun(s) == 0;
    assert s[0..] == s && s[1..] == "5";
    assert DigitRun("5") == 1 by {
      assert DigitRun("5"[1..]) == 0;
    }
    assert s[2..] == "";
    assert UnsignedDecimal(s);
    assert LeadingBlank(s, Js) == 0;
  }

  /** The evidently intended test: parseInt must read an integer in 1..120. */
  function AgeError(age: string): (e: Option<string>)
    ensures e == None <==> AgeErrorAsWritten(age) == None && ParseInt(age).Some?
    ensures e == None ==> 1 <= ParseInt(age).value <= 120
  {
    if age == "" then Some(AgeRequired)
    else if IsNaNString(age) || ParseInt(age).None? ||
            ParseInt(age).value <= 0 || ParseInt(age).value > 120 then Some(AgeInvalid)
    else None
  }

  /** The corrected test rejects the fraction the written one lets through. */
  lemma FractionAgeRejected()
    ensures AgeError(".5") == Some(AgeInvalid)
  {
    FractionAgePassesAsWritten();
  }

  /** Every age the exported AGE pattern accepts, that is every spelling of 1..120, passes. */
  lemma CanonicalAgeAccepted(age: string)
    requires AgePattern(age)
    ensures AgeError(age) == None
  {
    AgePatternMeans(age);
    var n: nat :| 1 <= n <= 120 && age == NatToString(n);
    SpellingReadsBack(n);
  }

  /** validateSecondStep's record (with the corrected age test). */
  function SecondStepErrors(d: FormData): (r: ErrorRecord<Field>)
    ensures r.Keys <= {GenderField, AgeField}
    ensures GenderField in r <==> d.gender == ""
    ensures AgeField in r <==> AgeError(d.age).Some?
  {
    Record(Record(map[], GenderField, GenderError(d.gender)), AgeField, AgeError(d.age))
  }

  predicate SecondStepPassed(d: FormData)
  {
    d.gender != "" && AgeError(d.age) == None
  }

  /** validateSecondStep returns true exactly when a gender is chosen and the age reads as an
    * integer in 1..120. */
  lemma SecondStepPasses(d: FormData)
    ensures SecondStepErrors(d) == map[] <==> SecondStepPassed(d)
    ensures SecondStepErrors(d) == map[] ==>
      ParseInt(d.age).Some? && 1 <= ParseInt(d.age).value <= 120
  {
    var r := SecondStepErrors(d);
    if r == map[] {
      assert GenderField !in r && AgeField !in r;
    }
  }

  // ------------------------------------------------------------ the lists

  /** An item as addX stores it: trimmed and not empty. */
  predicate Listed(x: string)
  {
    x != "" && Trim(x, Js) == x
  }

  predicate AllListed(l: seq<string>)
  {
    forall i | 0 <= i < |l| :: Listed(l[i])
  }

  /** The trimmed text of a non-blank entry is a list item. */
  lemma TrimmedIsListed(t: string)
    requires Trim(t, Js) != ""
    ensures Listed(Trim(t, Js))
  {
    TrimOfTrimmed(Trim(t, Js), Js);
  }

  /** Where splice(index, 1) starts: a negative index counts from the end, clamped to the
    * list. */
  function SpliceStart(n: nat, index: int): (s: nat)
    ensures s <= n
  {
    if index < 0 then (if n + index < 0 then 0 else n + index)
    else if index > n then n else index
  }

  /** The list after splice(index, 1): the element at the start removed, the others in
    * order; nothing removed when the start is past the end. */
  function SpliceOne(l: seq<string>, index: int): (r: seq<string>)
    ensures var s := SpliceStart(|l|, index);
      (s < |l| ==> |r| == |l| - 1) && (s == |l| ==> r == l) &&
      (forall i | 0 <= i < s && i < |r| :: r[i] == l[i]) &&
      (forall i | s <= i < |r| :: r[i] == l[i + 1])
    ensures 0 <= index < |l| ==> multiset(r) + multiset{l[index]} == multiset(l)
  {
    var s := SpliceStart(|l|, index);
    if s < |l| then
      assert l == l[..s] + [l[s]] + l[s + 1..];
      l[..s] + l[s + 1..]
    else l
  }

  predicate ListsListed(d: FormData)
  {
    AllListed(d.comorbidities) && AllListed(d.medications) && AllListed(d.allergies)
  }

  /** Each step beyond the first is reached only with the steps before it passing. */
  predicate StepsPassed(step: int, d: FormData)
  {
    (step >= 2 ==> FirstStepPassed(d)) && (step == 3 ==> SecondStepPassed(d))
  }

  /** Replacing a list by one of listed items keeps the items listed and the steps passed. */
  lemma ReplaceListKeeps(step: int, d: FormData, k: ListKind, l: seq<string>)
    requires ListsListed(d) && StepsPassed(step, d) && AllListed(l)
    ensures ListsListed(WithItems(d, k, l)) && StepsPassed(step, WithItems(d, k, l))
  {
    var e := WithItems(d, k, l);
    assert e.name == d.name && e.email == d.email && e.password == d.password;
    assert e.confirmPassword == d.confirmPassword && e.gender == d.gender && e.age == d.age;
  }

  /** Appending a trimmed non-blank entry keeps the items listed and the steps passed. */
  lemma AddKeeps(step: int, d: FormData, k: ListKind, temp: string)
    requires ListsListed(d) && StepsPassed(step, d) && Trim(temp, Js) != ""
    ensures ListsListed(WithItems(d, k, Items(d, k) + [Trim(temp, Js)]))
    ensures StepsPassed(step, WithItems(d, k, Items(d, k) + [Trim(temp, Js)]))
  {
    TrimmedIsListed(temp);
    var l := Items(d, k) + [Trim(temp, Js)];
    assert forall i | 0 <= i < |l| :: l[i] == if i < |Items(d, k)| then Items(d, k)[i] else Trim(temp, Js);
    ReplaceListKeeps(step, d, k, l);
  }

  /** Splicing a list keeps the items listed and the steps passed. */
  lemma RemoveKeeps(step: int, d: FormData, k: ListKind, index: int)
    requires ListsListed(d) && StepsPassed(step, d)
    ensures ListsListed(WithItems(d, k, SpliceOne(Items(d, k), index)))
    ensures StepsPassed(step, WithItems(d, k, SpliceOne(Items(d, k), index)))
  {
    SpliceKeepsListed(Items(d, k), index);
    ReplaceListKeeps(step, d, k, SpliceOne(Items(d, k), index));
  }

  /** Removing the entry just added gives the list back. */
  lemma RemoveUndoesAdd(l: seq<string>, x: string)
    ensures SpliceOne(l + [x], |l|) == l
  {
    var r := SpliceOne(l + [x], |l|);
    assert |r| == |l|;
    assert forall i | 0 <= i < |l| :: r[i] == l[i];
  }

  /** Removing keeps every remaining item an item of the list. */
  lemma SpliceKeepsListed(l: seq<string>, index: int)
    requires AllListed(l)
    ensures AllListed(SpliceOne(l, index))
  {
    var r := SpliceOne(l, index);
    var s := SpliceStart(|l|, index);
    forall i | 0 <= i < |r| ensures Listed(r[i]) {
      if i < s {
        assert r[i] == l[i];
      } else {
        assert r[i] == l[i + 1];
      }
    }
  }

  // ------------------------------------------------------------ the request

  /** The JSON body handleSubmit posts. */
  datatype Registration = Registration(
    name: string, email: string, password: string, gender: string, age: int,
    comorbidities: seq<string>, medications: seq<string>, allergies: seq<string>)

  /** handleChange's error clearing: a non-empty message for the key becomes ''. */
  function Cleared(errors: ErrorRecord<Field>, key: Field): (r: ErrorRecord<Field>)
    ensures r.Keys == errors.Keys
    ensures forall k | k in r && k != key :: r[k] == errors[k]
    ensures key in r ==> r[key] == ""
  {
    if key in errors && errors[key] != "" then errors[key := ""] else errors
  }

  // ------------------------------------------------------------ the wizard

  class RegisterWizard {
    var step: int
    var data: FormData
    var temps: map<ListKind, string>
    var errors: ErrorRecord<Field>

    /** The step is 1..3, every list holds trimmed non-empty items, and a step beyond the
      * first (second) is reached only with a passing first (second) step. */
    predicate Valid()
      reads this
    {
      1 <= step <= 3 &&
      Comorbidities in temps && Medications in temps && Allergies in temps &&
      ListsListed(data) && StepsPassed(step, data)
    }

    constructor()
      ensures step == 1 && data == EmptyForm && errors == map[]
      ensures temps == map[Comorbidities := "", Medications := "", Allergies := ""]
      ensures Valid()
    {
      step := 1;
      data := EmptyForm;
      temps := map[Comorbidities := "", Medications := "", Allergies := ""];
      errors := map[];
    }

    /** handleChange for an input of the current step: the field gets the value (for the
      * name, its letters and white space only) and a non-empty message for it is cleared.
      * The Male and Female buttons do the same for the gender. */
    method HandleChange(f: Field, value: string)
      requires Valid() && step == InputStep(f)
      modifies this
      ensures data == Set(old(data), f, if f == NameField then Sanitize(value) else value)
      ensures errors == Cleared(old(errors), f)
      ensures step == old(step) && temps == old(temps)
      ensures Valid()
    {
      var v := if f == NameField then Sanitize(value) else value;
      data := Set(data, f, v);
      errors := Cleared(errors, f);
    }

    /** Typing into one of the step-3 entry boxes. */
    method SetTemp(k: ListKind, value: string)
      requires Valid() && step == 3
      modifies this
      ensures temps == old(temps)[k := value]
      ensures data == old(data) && step == old(step) && errors == old(errors)
      ensures Valid()
    {
      temps := temps[k := value];
    }

    /** addComorbidity, addMedication, addAllergy: a non-blank entry is appended trimmed and
      * the box is emptied; a blank one changes nothing. */
    method AddItem(k: ListKind)
      requires Valid() && step == 3
      modifies this
      ensures var t := Trim(old(temps)[k], Js);
        if t != "" then
          data == WithItems(old(data), k, Items(old(data), k) + [t]) && temps == old(temps)[k := ""]
        else data == old(data) && temps == old(temps)
      ensures step == old(step) && errors == old(errors)
      ensures Valid()
    {
      var t := Trim(temps[k], Js);
      if t != "" {
        AddKeeps(step, data, k, temps[k]);
        data := WithItems(data, k, Items(data, k) + [t]);
        temps := temps[k := ""];
      }
    }

    /** removeComorbidity, removeMedication, removeAllergy: splice(index, 1) on the list. */
    method RemoveItem(k: ListKind, index: int)
      requires Valid() && step == 3
      modifies this
      ensures data == WithItems(old(data), k, SpliceOne(Items(old(data), k), index))
      ensures step == old(step) && temps == old(temps) && errors == old(errors)
      ensures Valid()
    {
      RemoveKeeps(step, data, k, index);
      data := WithItems(data, k, SpliceOne(Items(data, k), index));
    }

    /** Next: the current step's validator replaces the errors, and the step advances only
      * when its record is empty; step 3 has no Next button and nothing happens there. */
    method HandleNext()
      requires Valid()
      modifies this
      ensures old(step) == 1 ==>
        errors == FirstStepErrors(data) && step == (if errors == map[] then 2 else 1)
      ensures old(step) == 2 ==>
        errors == SecondStepErrors(data) && step == (if errors == map[] then 3 else 2)
      ensures old(step) == 3 ==> errors == old(errors) && step == 3
      ensures data == old(data) && temps == old(temps)
      ensures Valid()
    {
      if step == 1 {
        FirstStepPasses(data);
        errors := FirstStepErrors(data);
        if errors == map[] {
          step := 2;
        }
      } else if step == 2 {
        SecondStepPasses(data);
        errors := SecondStepErrors(data);
        if errors == map[] {
          step := 3;
        }
      }
    }

    /** Back (rendered on steps 2 and 3): one step back, every message cleared. */
    method HandleBack()
      requires Valid() && step >= 2
      modifies this
      ensures step == old(step) - 1 && errors == map[]
      ensures data == old(data) && temps == old(temps)
      ensures Valid()
    {
      step := step - 1;
      errors := map[];
    }

    /** The body handleSubmit posts from step 3: the form fields, and parseInt of the age,
      * which the corrected second step guarantees is an integer in 1..120. */
    method Submission() returns (r: Registration)
      requires Valid() && step == 3
      ensures 1 <= r.age <= 120 && Some(r.age) == ParseInt(data.age)
      ensures r.name == data.name && r.email == data.email && r.password == data.password
      ensures r.gender == data.gender && r.gender != ""
      ensures r.comorbidities == data.comorbidities && r.medications == data.medications &&
        r.allergies == data.allergies
      ensures NamePattern(r.name) && LooseEmail(r.email) && StrengthError(r.password) == None
    {
      SecondStepPasses(data);
      FirstStepPasses(data);
      var age := ParseInt(data.age).value;
      r := Registration(data.name, data.email, data.password, data.gender, age,
        data.comorbidities, data.medications, data.allergies);
    }
  }
}
