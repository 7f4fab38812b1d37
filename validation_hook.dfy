// The rule-driven form hook useFormValidation of frontend/src/ValidationUtils.jsx: the
// messages validateField collects for one field in the fixed order required, pattern,
// minLength, maxLength, equals, custom; the hook's state (values, errors, touched); and
// validateForm over every field that has rules.
module ValidationHook {
  import opened Wrappers
  import opened Strings
  import opened ValidationPatterns

  // ------------------------------------------------------------ rules

  /** The rules object of one field.  A falsy JavaScript option is written as its falsy
    * value here: no pattern or custom test is None, a minLength or maxLength of 0 and an
    * empty equals, label or message are absent. */
  datatype Rules = Rules(
    required: bool,
    pattern: Option<string -> bool>,
    message: string,
    minLength: nat,
    maxLength: nat,
    equals: string,
    equalsLabel: string,
    custom: Option<Option<string> -> bool>,
    customMessage: string,
    fieldLabel: string)

  /** The exported patterns as `test` functions for a rule. */
  const EmailTest: string -> bool := s => EmailPattern(s)
  const PasswordTest: string -> bool := s => PasswordPattern(s)
  const NameTest: string -> bool := s => NamePattern(s)
  const AgeTest: string -> bool := s => AgePattern(s)

  /** The checks, in the order validateField runs them. */
  datatype Check = Required | Pattern | MinLength | MaxLength | Equals | Custom

  /** A value is present when it is defined and not empty (a truthy string). */
  predicate Present(value: Option<string>)
  {
    value.Some? && value.value != ""
  }

  /** values[key], undefined when the form has no such value. */
  function Lookup(values: map<string, string>, key: string): Option<string>
  {
    if key in values then Some(values[key]) else None
  }

  /** Whether check `c` of the rules fails for `value`; `values` is the form the equals
    * check compares against. */
  predicate Fails(r: Rules, value: Option<string>, values: map<string, string>, c: Check)
  {
    match c
    case Required => r.required && !Present(value)
    case Pattern => r.pattern.Some? && Present(value) && !r.pattern.value(value.value)
    case MinLength => r.minLength > 0 && Present(value) && |value.value| < r.minLength
    case MaxLength => r.maxLength > 0 && Present(value) && |value.value| > r.maxLength
    case Equals => r.equals != "" && value != Lookup(values, r.equals)
    case Custom => r.custom.Some? && !r.custom.value(value)
  }

  /** rules.label || name (`label` is a Dafny keyword, hence `fieldLabel`) */
  function Label(r: Rules, name: string): string
  {
    if r.fieldLabel != "" then r.fieldLabel else name
  }

  /** The message check `c` pushes. */
  function Message(r: Rules, name: string, c: Check): string
  {
    var text := Label(r, name);
    match c
    case Required => text + " is required"
    case Pattern => if r.message != "" then r.message else "Invalid " + text + " format"
    case MinLength => text + " should be at least " + NatToString(r.minLength) + " characters"
    case MaxLength => text + " should be at most " + NatToString(r.maxLength) + " characters"
    case Equals => text + " does not match " + (if r.equalsLabel != "" then r.equalsLabel else r.equals)
    case Custom => if r.customMessage != "" then r.customMessage else "Invalid " + text
  }

  /** What check `c` pushes: its message when it fails, nothing otherwise. */
  function Push(r: Rules, name: string, value: Option<string>, values: map<string, string>, c: Check): (m: seq<string>)
    ensures m == [] <==> !Fails(r, value, values, c)
    ensures |m| <= 1
  {
    if Fails(r, value, values, c) then [Message(r, name, c)] else []
  }

  /** validateField's `fieldErrors` for a field that has rules: the six checks in order. */
  function FieldErrors(r: Rules, name: string, value: Option<string>, values: map<string, string>): (m: seq<string>)
    ensures |m| <= 6
  {
    Push(r, name, value, values, Required) + Push(r, name, value, values, Pattern) +
    Push(r, name, value, values, MinLength) + Push(r, name, value, values, MaxLength) +
    Push(r, name, value, values, Equals) + Push(r, name, value, values, Custom)
  }

  /** A field passes exactly when none of the six checks fails. */
  lemma FieldErrorsEmptyIff(r: Rules, name: string, value: Option<string>, values: map<string, string>)
    ensures FieldErrors(r, name, value, values) == [] <==> forall c: Check :: !Fails(r, value, values, c)
  {
    if FieldErrors(r, name, value, values) == [] {
      forall c: Check ensures !Fails(r, value, values, c) {
        assert Push(r, name, value, values, c) == [];
      }
    }
  }

  /** The first message is that of the first failing check. */
  lemma FirstMessageIsFirstFailure(r: Rules, name: string, value: Option<string>,
                                   values: map<string, string>, c: Check)
    requires Fails(r, value, values, c)
    requires forall d: Check | CheckIndex(d) < CheckIndex(c) :: !Fails(r, value, values, d)
    ensures FieldErrors(r, name, value, values) != []
    ensures FieldErrors(r, name, value, values)[0] == Message(r, name, c)
  {
    assert !Fails(r, value, values, Required) ==> Push(r, name, value, values, Required) == [];
    if c != Required {
      assert !Fails(r, value, values, Pattern) ==> Push(r, name, value, values, Pattern) == [];
    }
  }

  /** The position of a check in validateField. */
  function CheckIndex(c: Check): nat
  {
    match c
    case Required => 0
    case Pattern => 1
    case MinLength => 2
    case MaxLength => 3
    case Equals => 4
    case Custom => 5
  }

  /** An empty or undefined value skips the pattern and length checks: only the required,
    * equals and custom messages can appear, in that order. */
  lemma EmptyValueSkipsFormat(r: Rules, name: string, value: Option<string>, values: map<string, string>)
    requires !Present(value)
    ensures FieldErrors(r, name, value, values) ==
      (if r.required then [Message(r, name, Required)] else []) +
      Push(r, name, value, values, Equals) + Push(r, name, value, values, Custom)
  {
    assert Push(r, name, value, values, Pattern) == [];
    assert Push(r, name, value, values, MinLength) == [];
    assert Push(r, name, value, values, MaxLength) == [];
  }

  /** A field whose only rule is `required` passes exactly when its value is present. */
  lemma RequiredOnly(name: string, value: Option<string>, values: map<string, string>)
    ensures var r := Rules(true, None, "", 0, 0, "", "", None, "", "");
      FieldErrors(r, name, value, values) == (if Present(value) then [] else [name + " is required"])
  {
    var r := Rules(true, None, "", 0, 0, "", "", None, "", "");
    assert Push(r, name, value, values, Pattern) == [];
    assert Push(r, name, value, values, MinLength) == [];
    assert Push(r, name, value, values, MaxLength) == [];
    assert Push(r, name, value, values, Equals) == [];
    assert Push(r, name, value, values, Custom) == [];
  }

  /** A field whose only rule is a pattern passes exactly when it is empty or matches. */
  lemma PatternOnly(test: string -> bool, name: string, value: Option<string>, values: map<string, string>)
    ensures var r := Rules(false, Some(test), "", 0, 0, "", "", None, "", "");
      FieldErrors(r, name, value, values) == [] <==> !Present(value) || test(value.value)
  {
    var r := Rules(false, Some(test), "", 0, 0, "", "", None, "", "");
    FieldErrorsEmptyIff(r, name, value, values);
    assert !Fails(r, value, values, Required) && !Fails(r, value, values, MinLength);
    assert !Fails(r, value, values, MaxLength) && !Fails(r, value, values, Equals);
    assert !Fails(r, value, values, Custom);
  }

  /** A field ruled by the EMAIL pattern alone accepts an empty value or an address with one
    * '@', no white space, and a dotted part after the '@'. */
  lemma EmailRuleMeans(value: string, values: map<string, string>)
    ensures var r := Rules(false, Some(EmailTest), "", 0, 0, "", "", None, "", "");
      FieldErrors(r, "email", Some(value), values) == [] <==> value == "" || EmailShape(value)
  {
    PatternOnly(EmailTest, "email", Some(value), values);
    EmailPatternMeans(value);
  }

  // ------------------------------------------------------------ the hook

  /** What `errors[name]` holds: undefined, null (validated without error), or the list. */
  datatype FieldError = Undefined | Null | Messages(messages: seq<string>)

  /** The messages validateField computes for every field with rules, from the form's
    * values. */
  function AllFieldErrors(rules: map<string, Rules>, values: map<string, string>): (m: map<string, seq<string>>)
    ensures m.Keys == rules.Keys
    ensures forall n | n in m :: m[n] == FieldErrors(rules[n], n, Lookup(values, n), values)
  {
    map n | n in rules :: FieldErrors(rules[n], n, Lookup(values, n), values)
  }

  /** The fields among `names` with at least one message. */
  function Failing(computed: map<string, seq<string>>, names: set<string>): set<string>
  {
    set n | n in names && n in computed && computed[n] != []
  }

  /** The errors validateForm computes as written: for each failing field the snapshot's
    * errors[name], which is undefined for a field never validated before. */
  function FormErrorsAsWritten(rules: map<string, Rules>, values: map<string, string>,
                               errors: map<string, FieldError>): (m: map<string, FieldError>)
    ensures m.Keys == Failing(AllFieldErrors(rules, values), rules.Keys)
    ensures forall n | n in m :: m[n] == if n in errors then errors[n] else Undefined
  {
    var computed := AllFieldErrors(rules, values);
    map n | n in Failing(computed, rules.Keys) :: if n in errors then errors[n] else Undefined
  }

  /** A required field left empty and never blurred: validateForm reports the form invalid
    * but stores undefined for the field, so no message appears under it. */
  lemma StaleErrorHidesMessage()
    ensures var rules := map["email" := Rules(true, None, "", 0, 0, "", "", None, "", "")];
      var m := FormErrorsAsWritten(rules, map[], map[]);
      AllFieldErrors(rules, map[])["email"] == ["email is required"] &&
      "email" in m && m["email"] == Undefined
  {
    var rules := map["email" := Rules(true, None, "", 0, 0, "", "", None, "", "")];
    RequiredOnly("email", None, map[]);
    assert "email" + " is required" == "email is required";
    assert Lookup(map[], "email") == None;
    assert AllFieldErrors(rules, map[])["email"] == ["email is required"];
    assert "email" in Failing(AllFieldErrors(rules, map[]), rules.Keys);
  }

  /** The failing fields among `names`, each with its fresh messages. */
  function ErrorsOver(computed: map<string, seq<string>>, names: set<string>): map<string, FieldError>
  {
    map n | n in Failing(computed, names) :: Messages(computed[n])
  }

  /** Checking one more field adds its entry when it fails. */
  lemma ErrorsOverAdd(computed: map<string, seq<string>>, names: set<string>, n: string)
    requires n in computed
    ensures Failing(computed, names + {n}) ==
      if computed[n] != [] then Failing(computed, names) + {n} else Failing(computed, names)
    ensures ErrorsOver(computed, names + {n}) ==
      if computed[n] != [] then ErrorsOver(computed, names)[n := Messages(computed[n])] else ErrorsOver(computed, names)
  {
    assert Failing(computed, names + {n}) ==
      if computed[n] != [] then Failing(computed, names) + {n} else Failing(computed, names);
  }

  /** The evidently intended errors of validateForm: every failing field with its fresh,
    * non-empty list of messages, and no other field. */
  function FormErrors(rules: map<string, Rules>, values: map<string, string>): (m: map<string, FieldError>)
    ensures m.Keys == Failing(AllFieldErrors(rules, values), rules.Keys)
    ensures forall n | n in m ::
      m[n].Messages? && m[n].messages != [] && m[n].messages == FieldErrors(rules[n], n, Lookup(values, n), values)
  {
    ErrorsOver(AllFieldErrors(rules, values), rules.Keys)
  }

  /** The hook's state. */
  class FormHook {
    const rules: map<string, Rules>
    var values: map<string, string>
    var errors: map<string, FieldError>
    var touched: set<string>

    constructor(initialValues: map<string, string>, validationRules: map<string, Rules>)
      ensures rules == validationRules && values == initialValues
      ensures errors == map[] && touched == {}
    {
      rules := validationRules;
      values := initialValues;
      errors := map[];
      touched := {};
    }

    /** validateField: a field without rules is valid and nothing is stored; otherwise the
      * messages are collected check by check, stored (null when there are none), and the
      * result is whether there were none. */
    method ValidateField(name: string, value: Option<string>) returns (ok: bool)
      modifies this
      ensures name !in rules ==> ok && errors == old(errors)
      ensures name in rules ==>
        var fieldErrors := FieldErrors(rules[name], name, value, values);
        ok == (fieldErrors == []) &&
        errors == old(errors)[name := if fieldErrors == [] then Null else Messages(fieldErrors)]
      ensures values == old(values) && touched == old(touched)
    {
      if name !in rules {
        return true;
      }
      var r := rules[name];
      var fieldErrors: seq<string> := [];
      if Fails(r, value, values, Required) {
        fieldErrors := fieldErrors + [Message(r, name, Required)];
      }
      assert fieldErrors == Push(r, name, value, values, Required);
      ghost var pushed := fieldErrors;
      if Fails(r, value, values, Pattern) {
        fieldErrors := fieldErrors + [Message(r, name, Pattern)];
      }
      assert fieldErrors == pushed + Push(r, name, value, values, Pattern);
      pushed := fieldErrors;
      if Fails(r, value, values, MinLength) {
        fieldErrors := fieldErrors + [Message(r, name, MinLength)];
      }
      assert fieldErrors == pushed + Push(r, name, value, values, MinLength);
      pushed := fieldErrors;
      if Fails(r, value, values, MaxLength) {
        fieldErrors := fieldErrors + [Message(r, name, MaxLength)];
      }
      assert fieldErrors == pushed + Push(r, name, value, values, MaxLength);
      pushed := fieldErrors;
      if Fails(r, value, values, Equals) {
        fieldErrors := fieldErrors + [Message(r, name, Equals)];
      }
      assert fieldErrors == pushed + Push(r, name, value, values, Equals);
      pushed := fieldErrors;
      if Fails(r, value, values, Custom) {
        fieldErrors := fieldErrors + [Message(r, name, Custom)];
      }
      assert fieldErrors == pushed + Push(r, name, value, values, Custom);
      errors := errors[name := if fieldErrors == [] then Null else Messages(fieldErrors)];
      ok := fieldErrors == [];
    }

    /** handleChange: the value is stored, and a touched field is validated against the
      * values as they were before the change (the handler's snapshot). */
    method HandleChange(name: string, value: string)
      modifies this
      ensures values == old(values)[name := value] && touched == old(touched)
      ensures name in old(touched) && name in rules ==>
        var fieldErrors := FieldErrors(rules[name], name, Some(value), old(values));
        errors == old(errors)[name := if fieldErrors == [] then Null else Messages(fieldErrors)]
      ensures !(name in old(touched) && name in rules) ==> errors == old(errors)
    {
      if name in touched {
        var _ := ValidateField(name, Some(value));
      }
      values := values[name := value];
    }

    /** handleBlur: the field is marked touched and validated. */
    method HandleBlur(name: string, value: string)
      modifies this
      ensures touched == old(touched) + {name} && values == old(values)
      ensures name in rules ==>
        var fieldErrors := FieldErrors(rules[name], name, Some(value), values);
        errors == old(errors)[name := if fieldErrors == [] then Null else Messages(fieldErrors)]
      ensures name !in rules ==> errors == old(errors)
    {
      touched := touched + {name};
      var _ := ValidateField(name, Some(value));
    }

    /** validateForm: every field with rules is validated and touched; the result is whether
      * all of them pass, and the errors become the failing fields with their messages.  The
      * messages of each field do not depend on the others, so they are computed first. */
    method ValidateForm() returns (formIsValid: bool)
      modifies this
      ensures formIsValid <==> forall n | n in rules :: FieldErrors(rules[n], n, Lookup(values, n), values) == []
      ensures errors == FormErrors(rules, values)
      ensures touched == old(touched) + rules.Keys && values == old(values)
    {
      var computed := AllFieldErrors(rules, values);
      var newErrors;
      formIsValid, newErrors := Collect(computed);
      errors := newErrors;
      assert forall n | n in rules :: n in computed && (computed[n] == [] <==> n !in Failing(computed, rules.Keys));
    }

    /** The loop of validateForm over the fields with rules, given each field's messages. */
    method Collect(computed: map<string, seq<string>>) returns (formIsValid: bool, newErrors: map<string, FieldError>)
      requires computed.Keys == rules.Keys
      modifies this
      ensures formIsValid <==> Failing(computed, rules.Keys) == {}
      ensures newErrors == ErrorsOver(computed, rules.Keys)
      ensures touched == old(touched) + rules.Keys && values == old(values) && errors == old(errors)
    {
      formIsValid := true;
      newErrors := map[];
      var left := rules.Keys;
      ghost var done: set<string> := {};
      while left != {}
        invariant done == rules.Keys - left && left <= rules.Keys
        invariant values == old(values) && errors == old(errors)
        invariant touched == old(touched) + done
        invariant formIsValid <==> Failing(computed, done) == {}
        invariant newErrors == ErrorsOver(computed, done)
        decreases left
      {
        var name :| name in left;
        ErrorsOverAdd(computed, done, name);
        if computed[name] != [] {
          formIsValid := false;
          newErrors := newErrors[name := Messages(computed[name])];
        }
        touched := touched + {name};
        left := left - {name};
        done := done + {name};
      }
    }
  }
}
