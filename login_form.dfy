// The login page of frontend/src/LoginPage.jsx: its two state fields, handleChange, the
// validateForm checks, and the guard that keeps handleSubmit from posting an invalid form.
module LoginForm {
  import opened Wrappers
  import opened Strings
  import opened FormChecks
  import opened RegisterForm

  const LoginPasswordRequired := "Password is required"

  /** Blank after trimming is "required" (the registration page does not trim); then the
    * shared strength chain. */
  function LoginPasswordError(p: string): (e: Option<string>)
    ensures e == None <==> StrengthError(p) == None
  {
    TrimEmptyIffBlank(p, Js);
    if Trim(p, Js) == [] then Some(LoginPasswordRequired) else StrengthError(p)
  }

  /** The two pages give different messages exactly for a password of white space only. */
  lemma PasswordMessagesDiffer(p: string)
    ensures LoginPasswordError(p) != RegisterPasswordError(p) <==> p != "" && IsBlank(p, Js)
  {
    TrimEmptyIffBlank(p, Js);
  }

  /** The two pages accept the same passwords. */
  lemma SamePasswordsAccepted(p: string)
    ensures LoginPasswordError(p) == None <==> RegisterPasswordError(p) == None
  {
  }

  /** The error keys of the login form. */
  datatype LoginField = EmailKey | PasswordKey

  function LoginErrors(email: string, password: string): (r: ErrorRecord<LoginField>)
    ensures r.Keys <= {EmailKey, PasswordKey}
    ensures EmailKey in r <==> EmailError(email).Some?
    ensures PasswordKey in r <==> LoginPasswordError(password).Some?
  {
    var e, p := EmailError(email), LoginPasswordError(password);
    Record(Record(map[], EmailKey, e), PasswordKey, p)
  }

  /** validateForm returns true exactly when the record is empty: an e-mail with an '@' and a
    * dot, and a password of eight characters with a capital, a digit and a special one. */
  lemma LoginPasses(email: string, password: string)
    ensures LoginErrors(email, password) == map[] <==>
      !IsBlank(email, Js) && LooseEmail(email) && StrengthError(password) == None
  {
    var r := LoginErrors(email, password);
    if r == map[] {
      assert EmailKey !in r && PasswordKey !in r;
    }
  }

  /** The record validateForm stores, keyed by the inputs' names. */
  function Stored(r: ErrorRecord<LoginField>): (m: map<string, string>)
    ensures m.Keys == (if EmailKey in r then {"email"} else {}) + (if PasswordKey in r then {"password"} else {})
    ensures "email" in m ==> m["email"] == r[EmailKey]
    ensures "password" in m ==> m["password"] == r[PasswordKey]
  {
    var m1 := if EmailKey in r then map["email" := r[EmailKey]] else map[];
    if PasswordKey in r then m1["password" := r[PasswordKey]] else m1
  }

  /** What handleSubmit posts. */
  datatype Credentials = Credentials(email: string, password: string)

  class LoginPage {
    var email: string
    var password: string
    /** `errors`, keyed by the input's name. */
    var errors: map<string, string>
    /** The message shown above the form. */
    var error: string

    constructor()
      ensures email == "" && password == "" && errors == map[] && error == ""
    {
      email, password, errors, error := "", "", map[], "";
    }

    /** The named field (if it is one of the two) takes the value; a non-empty message for
      * that name becomes '' and nothing else changes. */
    method HandleChange(name: string, value: string)
      modifies this
      ensures email == (if name == "email" then value else old(email))
      ensures password == (if name == "password" then value else old(password))
      ensures errors.Keys == old(errors).Keys
      ensures forall k | k in errors && k != name :: errors[k] == old(errors)[k]
      ensures name in errors ==> errors[name] == (if old(errors)[name] != "" then "" else old(errors)[name])
      ensures error == old(error)
    {
      if name == "email" {
        email := value;
      } else if name == "password" {
        password := value;
      }
      if name in errors && errors[name] != "" {
        errors := errors[name := ""];
      }
    }

    /** validateForm: the record replaces the errors, and the result is its emptiness. */
    method ValidateForm() returns (ok: bool)
      modifies this
      ensures errors == Stored(LoginErrors(email, password))
      ensures ok <==> EmailError(email) == None && LoginPasswordError(password) == None
      ensures email == old(email) && password == old(password) && error == old(error)
    {
      var r := LoginErrors(email, password);
      errors := Stored(r);
      ok := r == map[];
      if !ok {
        assert EmailKey in r || PasswordKey in r;
      }
    }

    /** handleSubmit: the message is cleared, and the form is posted only when it validates. */
    method HandleSubmit() returns (request: Option<Credentials>)
      modifies this
      ensures error == ""
      ensures email == old(email) && password == old(password)
      ensures errors == Stored(LoginErrors(email, password))
      ensures request.Some? <==> !IsBlank(email, Js) && LooseEmail(email) && StrengthError(password) == None
      ensures request.Some? ==> request.value == Credentials(email, password)
    {
      error := "";
      var ok := ValidateForm();
      if !ok {
        return None;
      }
      request := Some(Credentials(email, password));
    }
  }
}
