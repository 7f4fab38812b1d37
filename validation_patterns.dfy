// The regular expressions exported as VALIDATION_PATTERNS by frontend/src/ValidationUtils.jsx,
// each written as the predicate its anchored expression decides, together with what a match
// means: the AGE pattern accepts exactly the decimal spellings of 1..120, the EMAIL pattern
// one '@' with a dotted part after it, the PASSWORD pattern the four character kinds.
module ValidationPatterns {
  import opened Strings

  // ------------------------------------------------------------ character classes

  predicate IsLower(c: char)
  {
    'a' <= c <= 'z'
  }

  predicate IsUpper(c: char)
  {
    'A' <= c <= 'Z'
  }

  predicate IsLetter(c: char)
  {
    IsLower(c) || IsUpper(c)
  }

  /** The class [@$!%*?&] of the PASSWORD pattern. */
  predicate IsPatternSpecial(c: char)
  {
    c == '@' || c == '$' || c == '!' || c == '%' || c == '*' || c == '?' || c == '&'
  }

  /** Some character of `s` satisfies the class: what the lookahead (?=.*[...]) asks for (the
    * characters the pattern admits hold no line terminator, so `.` never has to stop early). */
  predicate HasLower(s: string)
  {
    exists i | 0 <= i < |s| :: IsLower(s[i])
  }

  predicate HasUpper(s: string)
  {
    exists i | 0 <= i < |s| :: IsUpper(s[i])
  }

  predicate HasDigit(s: string)
  {
    exists i | 0 <= i < |s| :: IsAsciiDigit(s[i])
  }

  predicate HasPatternSpecial(s: string)
  {
    exists i | 0 <= i < |s| :: IsPatternSpecial(s[i])
  }

  // ------------------------------------------------------------ EMAIL: /^[^\s@]+@[^\s@]+\.[^\s@]+$/

  /** A run of [^\s@]+: at least one character, none white space or '@'. */
  predicate EmailAtom(s: string)
  {
    |s| >= 1 && forall i | 0 <= i < |s| :: !IsJsSpace(s[i]) && s[i] != '@'
  }

  /** The pattern matches `s` with its '@' at `k` and its escaped '.' at `j`. */
  predicate EmailSplit(s: string, k: int, j: int)
  {
    0 <= k < j < |s| && s[k] == '@' && s[j] == '.' &&
    EmailAtom(s[..k]) && EmailAtom(s[k + 1..j]) && EmailAtom(s[j + 1..])
  }

  predicate EmailPattern(s: string)
  {
    exists k, j | 0 <= k < j < |s| :: EmailSplit(s, k, j)
  }

  /** What a match means, position by position. */
  predicate EmailShape(s: string)
  {
    (forall i | 0 <= i < |s| :: !IsJsSpace(s[i])) &&
    exists k, j | 0 < k && k + 1 < j < |s| - 1 ::
      s[k] == '@' && s[j] == '.' && forall i | 0 <= i < |s| && i != k :: s[i] != '@'
  }

  /** A match has exactly one '@', no white space, something before the '@', and a '.' after
    * it with something on both sides; and every such string matches. */
  lemma EmailPatternMeans(s: string)
    ensures EmailPattern(s) <==> EmailShape(s)
  {
    if EmailPattern(s) {
      var k, j :| 0 <= k < j < |s| && EmailSplit(s, k, j);
      EmailSplitShape(s, k, j);
    }
    if EmailShape(s) {
      var k, j :| 0 < k && k + 1 < j < |s| - 1 &&
        s[k] == '@' && s[j] == '.' && forall i | 0 <= i < |s| && i != k :: s[i] != '@';
      ShapeEmailSplit(s, k, j);
    }
  }

  lemma EmailSplitShape(s: string, k: int, j: int)
    requires EmailSplit(s, k, j)
    ensures EmailShape(s)
  {
    forall i | 0 <= i < |s| ensures !IsJsSpace(s[i]) && (i != k ==> s[i] != '@') {
      if i < k {
        assert s[i] == s[..k][i];
      } else if k < i < j {
        assert s[i] == s[k + 1..j][i - k - 1];
      } else if j < i {
        assert s[i] == s[j + 1..][i - j - 1];
      }
    }
  }

  lemma ShapeEmailSplit(s: string, k: int, j: int)
    requires 0 < k && k + 1 < j < |s| - 1 && s[k] == '@' && s[j] == '.'
    requires forall i | 0 <= i < |s| :: !IsJsSpace(s[i])
    requires forall i | 0 <= i < |s| && i != k :: s[i] != '@'
    ensures EmailSplit(s, k, j)
  {
    AtomSlice(s, 0, k);
    AtomSlice(s, k + 1, j);
    AtomSlice(s, j + 1, |s|);
    assert s[0..k] == s[..k] && s[j + 1..|s|] == s[j + 1..];
  }

  lemma AtomSlice(s: string, a: int, b: int)
    requires 0 <= a < b <= |s|
    requires forall i | a <= i < b :: !IsJsSpace(s[i]) && s[i] != '@'
    ensures EmailAtom(s[a..b])
  {
    forall i | 0 <= i < b - a ensures !IsJsSpace(s[a..b][i]) && s[a..b][i] != '@' {
      assert s[a..b][i] == s[a + i];
    }
  }

  // ------------------------------------------------------------ PASSWORD

  /** /^(?=.*[a-z])(?=.*[A-Z])(?=.*\d)(?=.*[@$!%*?&])[A-Za-z\d@$!%*?&]{8,}$/ */
  predicate PasswordPattern(s: string)
  {
    HasLower(s) && HasUpper(s) && HasDigit(s) && HasPatternSpecial(s) &&
    |s| >= 8 && forall i | 0 <= i < |s| :: IsLetter(s[i]) || IsAsciiDigit(s[i]) || IsPatternSpecial(s[i])
  }

  // ------------------------------------------------------------ NAME: /^[a-zA-Z\s'-]{2,}$/

  predicate IsNameChar(c: char)
  {
    IsLetter(c) || IsJsSpace(c) || c == '\'' || c == '-'
  }

  predicate NamePattern(s: string)
  {
    |s| >= 2 && forall i | 0 <= i < |s| :: IsNameChar(s[i])
  }

  // ------------------------------------------------------------ AGE: /^(?:[1-9]|[1-9][0-9]|1[0-1][0-9]|120)$/

  predicate IsNonZeroDigit(c: char)
  {
    '1' <= c <= '9'
  }

  /** The four alternatives of the AGE pattern. */
  predicate AgePattern(s: string)
  {
    (|s| == 1 && IsNonZeroDigit(s[0])) ||
    (|s| == 2 && IsNonZeroDigit(s[0]) && IsAsciiDigit(s[1])) ||
    (|s| == 3 && s[0] == '1' && '0' <= s[1] <= '1' && IsAsciiDigit(s[2])) ||
    s == "120"
  }

  /** The pattern accepts exactly the decimal spellings, without leading zeros, of 1..120. */
  lemma AgePatternMeans(s: string)
    ensures AgePattern(s) <==> exists n: nat | 1 <= n <= 120 :: s == NatToString(n)
  {
    if AgePattern(s) {
      AgeMatchIsSpelling(s);
    }
    if exists n: nat | 1 <= n <= 120 :: s == NatToString(n) {
      var n: nat :| 1 <= n <= 120 && s == NatToString(n);
      SpellingMatchesAge(n);
    }
  }

  lemma AgeMatchIsSpelling(s: string)
    requires AgePattern(s)
    ensures 1 <= DigitsValue(s) <= 120 && s == NatToString(DigitsValue(s))
  {
    assert s[0] != '0';
    if |s| > 1 {
      assert s[..|s| - 1][0] == s[0];
      if |s| == 3 {
        assert s[..2][..1] == s[..1];
      }
    }
    CanonicalDigits(s);
    DigitsBound(s);
  }

  /** The value of a 1- to 3-character match, bounded by the pattern. */
  lemma DigitsBound(s: string)
    requires AgePattern(s)
    ensures 1 <= DigitsValue(s) <= 120
  {
    if |s| == 1 {
      assert s[..0] == [];
    } else if |s| == 2 {
      assert s[..1][..0] == [];
      assert DigitsValue(s[..1]) == s[0] as int - '0' as int;
    } else {
      var t := s[..2];
      assert t[..1][..0] == [];
      assert t[..1] == [s[0]];
      assert DigitsValue(t[..1]) == 1;
      assert t[1] == s[1];
      assert DigitsValue(t) == 10 + (s[1] as int - '0' as int);
    }
  }

  /** A decimal string without a leading zero spells its own value. */
  lemma {:induction false} CanonicalDigits(s: string)
    requires |s| >= 1 && forall i | 0 <= i < |s| :: IsAsciiDigit(s[i])
    requires |s| > 1 ==> s[0] != '0'
    ensures NatToString(DigitsValue(s)) == s
    decreases |s|
  {
    if |s| == 1 {
      assert s[..0] == [];
    } else {
      var init := s[..|s| - 1];
      assert init[0] == s[0];
      CanonicalDigits(init);
      LeadingDigitPositive(init);
      var v := DigitsValue(s);
      assert v / 10 == DigitsValue(init) && v % 10 == s[|s| - 1] as int - '0' as int;
      assert s == init + [s[|s| - 1]];
    }
  }

  lemma {:induction false} LeadingDigitPositive(s: string)
    requires |s| >= 1 && forall i | 0 <= i < |s| :: IsAsciiDigit(s[i])
    requires s[0] != '0'
    ensures DigitsValue(s) >= 1
    decreases |s|
  {
    if |s| == 1 {
      assert s[..0] == [];
    } else {
      var init := s[..|s| - 1];
      assert init[0] == s[0];
      LeadingDigitPositive(init);
    }
  }

  lemma SpellingMatchesAge(n: nat)
    requires 1 <= n <= 120
    ensures AgePattern(NatToString(n))
  {
    var s := NatToString(n);
    if n >= 10 {
      var t := NatToString(n / 10);
      assert s == t + [DigitChar(n % 10)];
      if n >= 100 {
        assert t == NatToString(n / 10 / 10) + [DigitChar(n / 10 % 10)];
        assert NatToString(n / 10 / 10) == [DigitChar(1)];
        if n == 120 {
          assert s == "120";
        }
      }
    }
  }
}
