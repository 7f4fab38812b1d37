// The checks the registration page (frontend/src/RegisterPage.jsx) and the login page
// (frontend/src/LoginPage.jsx) share, written once: the unanchored e-mail test /\S+@\S+\.\S+/,
// the password strength chain after the "required" test, and the error record the pages
// fill with one message per failing field.
module FormChecks {
  import opened Wrappers
  import opened Strings
  import opened ValidationPatterns

  // ------------------------------------------------------------ error records

  /** The `newErrors` object of a validator: a message per failing field. */
  type ErrorRecord<K> = map<K, string>

  /** `newErrors.key = message` when the check failed; nothing otherwise. */
  function Record<K>(m: ErrorRecord<K>, key: K, e: Option<string>): (r: ErrorRecord<K>)
    ensures e.Some? ==> r == m[key := e.value]
    ensures e.None? ==> r == m
  {
    if e.Some? then m[key := e.value] else m
  }

  // ------------------------------------------------------------ /\S+@\S+\.\S+/

  predicate NonSpaceRun(s: string, a: int, b: int)
    requires 0 <= a <= b <= |s|
  {
    a < b && forall i | a <= i < b :: !IsJsSpace(s[i])
  }

  /** The expression matches s[a..e] with its '@' at k and its '.' at j. */
  predicate LooseEmailMatch(s: string, a: int, k: int, j: int, e: int)
  {
    0 <= a < k < j < e <= |s| && s[k] == '@' && s[j] == '.' &&
    NonSpaceRun(s, a, k) && NonSpaceRun(s, k + 1, j) && NonSpaceRun(s, j + 1, e)
  }

  /** `test` of the unanchored expression: some substring matches. */
  predicate LooseEmail(s: string)
  {
    exists a, k, j, e | 0 <= a < k < j < e <= |s| :: LooseEmailMatch(s, a, k, j, e)
  }

  /** The substring condition, position by position: a non-space character before an '@',
    * a non-empty run of non-space characters, a '.', and a non-space character. */
  predicate LooseEmailAt(s: string, k: int, j: int)
  {
    0 < k && k + 1 < j && j + 1 < |s| && s[k] == '@' && s[j] == '.' &&
    !IsJsSpace(s[k - 1]) && !IsJsSpace(s[j + 1]) && forall i | k < i < j :: !IsJsSpace(s[i])
  }

  /** A match can always be shrunk to one character on each side. */
  lemma LooseEmailMeans(s: string)
    ensures LooseEmail(s) <==> exists k, j | 0 < k < j < |s| :: LooseEmailAt(s, k, j)
  {
    if LooseEmail(s) {
      var a, k, j, e :| 0 <= a < k < j < e <= |s| && LooseEmailMatch(s, a, k, j, e);
      assert LooseEmailAt(s, k, j);
    }
    if exists k, j | 0 < k < j < |s| :: LooseEmailAt(s, k, j) {
      var k, j :| 0 < k < j < |s| && LooseEmailAt(s, k, j);
      assert LooseEmailMatch(s, k - 1, k, j, j + 2);
    }
  }

  /** Every address the exported EMAIL pattern accepts passes the pages' test. */
  lemma StrictEmailIsLoose(s: string)
    requires EmailPattern(s)
    ensures LooseEmail(s)
  {
    var k, j :| 0 <= k < j < |s| && EmailSplit(s, k, j);
    EmailSplitShape(s, k, j);
    assert LooseEmailMatch(s, 0, k, j, |s|);
  }

  /** The pages' test is looser than the exported pattern: it lets two '@' through. */
  lemma LooseEmailAdmitsTwoAts()
    ensures LooseEmail("a@@b.c") && !EmailPattern("a@@b.c")
  {
    var s := "a@@b.c";
    assert LooseEmailMatch(s, 0, 1, 4, 6);
    assert s[1] == '@' && s[2] == '@';
    EmailPatternMeans(s);
  }

  /** The e-mail check both pages run: trimmed-blank is "required", then the test. */
  function EmailError(email: string): (e: Option<string>)
    ensures e == None <==> !IsBlank(email, Js) && LooseEmail(email)
  {
    TrimEmptyIffBlank(email, Js);
    if Trim(email, Js) == [] then Some("Email is required")
    else if !LooseEmail(email) then Some("Email is invalid")
    else None
  }

  // ------------------------------------------------------------ password strength

  /** The class [!@#$%^&*()_+\-=\[\]{};':"\\|,.<>\/?] the pages require one of. */
  predicate IsListedSpecial(c: char)
  {
    c in "!@#$%^&*()_+-=[]{};':\"\\|,.<>/?"
  }

  predicate HasListedSpecial(s: string)
  {
    exists i | 0 <= i < |s| :: IsListedSpecial(s[i])
  }

  /** The checks after "required", in the pages' order; the first failure gives the message. */
  function StrengthError(p: string): (e: Option<string>)
    ensures e == None <==> |p| >= 8 && HasUpper(p) && HasDigit(p) && HasListedSpecial(p)
  {
    if |p| < 8 then Some("Password must be at least 8 characters")
    else if !HasUpper(p) then Some("Password must contain at least one capital letter")
    else if !HasDigit(p) then Some("Password must contain at least one number")
    else if !HasListedSpecial(p) then Some("Password must contain at least one special character")
    else None
  }

  /** Every special character of the exported PASSWORD pattern is one the pages list, so a
    * password that pattern accepts passes the pages' strength checks. */
  lemma PatternPasswordIsStrong(p: string)
    requires PasswordPattern(p)
    ensures StrengthError(p) == None
  {
    var i :| 0 <= i < |p| && IsPatternSpecial(p[i]);
    assert IsListedSpecial(p[i]);
  }

  /** The converse fails: the pages never ask for a lower-case letter. */
  lemma StrongPasswordWithoutLower()
    ensures StrengthError("ABCDEF1!") == None && !PasswordPattern("ABCDEF1!")
  {
    var p := "ABCDEF1!";
    assert IsUpper(p[0]) && IsAsciiDigit(p[6]) && IsListedSpecial(p[7]);
    assert !HasLower(p) by {
      forall i | 0 <= i < |p| ensures !IsLower(p[i]) {
      }
    }
  }
}
