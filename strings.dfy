// String primitives of the two runtimes the system is written in: JavaScript
// (String.prototype.trim, includes, startsWith, split, replace with a global
// literal pattern, toLowerCase/toUpperCase) and Python (str.strip, `in`,
// split, replace, lower).  Case mapping is ASCII-only.
module Strings {
  import opened Wrappers

  // ---------------------------------------------------------------- spaces

  /** The characters JavaScript's `\s` class and String.prototype.trim treat as
    * white space (WhiteSpace plus LineTerminator): TAB, LF, VT, FF, CR, SPACE,
    * NBSP, U+1680, U+2000..U+200A, U+2028, U+2029, U+202F, U+205F, U+3000, U+FEFF. */
  predicate IsJsSpace(c: char)
  {
    ('\t' <= c <= '\r') || c == ' ' || c == '\U{00A0}' || c == '\U{1680}' ||
    ('\U{2000}' <= c <= '\U{200A}') || c == '\U{2028}' || c == '\U{2029}' ||
    c == '\U{202F}' || c == '\U{205F}' || c == '\U{3000}' || c == '\U{FEFF}'
  }

  /** The characters Python's str.strip() and str.isspace() treat as white space:
    * TAB..CR, U+001C..U+001F, SPACE, U+0085, NBSP, U+1680, U+2000..U+200A, U+2028,
    * U+2029, U+202F, U+205F, U+3000 (U+FEFF is not among them). */
  predicate IsPySpace(c: char)
  {
    ('\t' <= c <= '\r') || ('\U{001C}' <= c <= ' ') || c == '\U{0085}' || c == '\U{00A0}' ||
    c == '\U{1680}' || ('\U{2000}' <= c <= '\U{200A}') || c == '\U{2028}' || c == '\U{2029}' ||
    c == '\U{202F}' || c == '\U{205F}' || c == '\U{3000}'
  }

  datatype Runtime = Js | Py

  predicate IsSpace(c: char, rt: Runtime)
  {
    match rt
    case Js => IsJsSpace(c)
    case Py => IsPySpace(c)
  }

  /** Every character of `s` is white space (this includes the empty string). */
  predicate IsBlank(s: string, rt: Runtime)
  {
    forall i | 0 <= i < |s| :: IsSpace(s[i], rt)
  }

  /** How many white-space characters `s` starts with. */
  function LeadingBlank(s: string, rt: Runtime): (n: nat)
    ensures n <= |s|
    ensures n < |s| ==> !IsSpace(s[n], rt)
    decreases |s|
  {
    if s != [] && IsSpace(s[0], rt) then 1 + LeadingBlank(s[1..], rt) else 0
  }

  /** How many white-space characters `s` ends with. */
  function TrailingBlank(s: string, rt: Runtime): (n: nat)
    ensures n <= |s|
    ensures n < |s| ==> !IsSpace(s[|s| - 1 - n], rt)
    decreases |s|
  {
    if s != [] && IsSpace(s[|s| - 1], rt) then 1 + TrailingBlank(s[..|s| - 1], rt) else 0
  }

  /** The characters LeadingBlank counts are white space. */
  lemma {:induction false} LeadingBlankIsBlank(s: string, rt: Runtime)
    ensures IsBlank(s[..LeadingBlank(s, rt)], rt)
    decreases |s|
  {
    if s != [] && IsSpace(s[0], rt) {
      LeadingBlankIsBlank(s[1..], rt);
      var n := LeadingBlank(s, rt);
      var head := s[..n];
      var tail := s[1..][..n - 1];
      forall i | 0 <= i < n ensures IsSpace(head[i], rt) {
        if i > 0 {
          assert head[i] == tail[i - 1];
        }
      }
    }
  }

  /** The characters TrailingBlank counts are white space. */
  lemma {:induction false} TrailingBlankIsBlank(s: string, rt: Runtime)
    ensures IsBlank(s[|s| - TrailingBlank(s, rt)..], rt)
    decreases |s|
  {
    if s != [] && IsSpace(s[|s| - 1], rt) {
      var p := s[..|s| - 1];
      TrailingBlankIsBlank(p, rt);
      var n := TrailingBlank(s, rt);
      var whole := s[|s| - n..];
      var shorter := p[|p| - (n - 1)..];
      forall i | 0 <= i < n ensures IsSpace(whole[i], rt) {
        if i < n - 1 {
          assert whole[i] == shorter[i];
        }
      }
    }
  }

  /** str.lstrip() / String.prototype.trimStart. */
  function TrimStart(s: string, rt: Runtime): string
  {
    s[LeadingBlank(s, rt)..]
  }

  /** str.rstrip() / String.prototype.trimEnd. */
  function TrimEnd(s: string, rt: Runtime): string
  {
    s[..|s| - TrailingBlank(s, rt)]
  }

  /** String.prototype.trim (rt == Js) and str.strip() (rt == Py). */
  function Trim(s: string, rt: Runtime): (r: string)
    ensures |r| <= |s|
    ensures r != [] ==> !IsSpace(r[0], rt) && !IsSpace(r[|r| - 1], rt)
  {
    TrimEnd(TrimStart(s, rt), rt)
  }

  /** Trimming keeps one contiguous piece of the string... */
  lemma {:induction false} TrimIsSlice(s: string, rt: Runtime)
    ensures LeadingBlank(s, rt) + |Trim(s, rt)| <= |s|
    ensures Trim(s, rt) == s[LeadingBlank(s, rt)..LeadingBlank(s, rt) + |Trim(s, rt)|]
  {
    var a := LeadingBlank(s, rt);
    var l := s[a..];
    var m := |l| - TrailingBlank(l, rt);
    assert Trim(s, rt) == l[..m];
    SliceOfSuffix(s, a, m);
  }

  /** ...and what it removes on either side is white space. */
  lemma {:induction false} TrimDropsBlank(s: string, rt: Runtime)
    ensures LeadingBlank(s, rt) + |Trim(s, rt)| <= |s|
    ensures IsBlank(s[..LeadingBlank(s, rt)], rt)
    ensures IsBlank(s[LeadingBlank(s, rt) + |Trim(s, rt)|..], rt)
  {
    var a := LeadingBlank(s, rt);
    var l := s[a..];
    var m := |l| - TrailingBlank(l, rt);
    assert |Trim(s, rt)| == m;
    LeadingBlankIsBlank(s, rt);
    TrailingBlankIsBlank(l, rt);
    SuffixOfSuffix(s, a, m);
  }

  lemma SliceOfSuffix(s: string, a: nat, n: nat)
    requires a + n <= |s|
    ensures s[a..][..n] == s[a..a + n]
  {
  }

  lemma SuffixOfSuffix(s: string, a: nat, n: nat)
    requires a + n <= |s|
    ensures s[a..][n..] == s[a + n..]
  {
  }

  /** A string trims to nothing exactly when it is all white space. */
  lemma {:induction false} TrimEmptyIffBlank(s: string, rt: Runtime)
    ensures Trim(s, rt) == [] <==> IsBlank(s, rt)
  {
    TrimDropsBlank(s, rt);
    var a := LeadingBlank(s, rt);
    if Trim(s, rt) == [] {
      assert s == s[..a] + s[a..];
    } else {
      assert !IsSpace(s[a], rt);
    }
  }

  /** Trimming a string that has no white space at either end changes nothing. */
  lemma {:induction false} TrimOfTrimmed(s: string, rt: Runtime)
    requires s != [] ==> !IsSpace(s[0], rt) && !IsSpace(s[|s| - 1], rt)
    ensures Trim(s, rt) == s
  {
    assert LeadingBlank(s, rt) == 0;
    assert TrailingBlank(s, rt) == 0;
  }

  // ------------------------------------------------------------ case mapping

  function LowerChar(c: char): char
  {
    if 'A' <= c <= 'Z' then (c as int + 32) as char else c
  }

  function UpperChar(c: char): char
  {
    if 'a' <= c <= 'z' then (c as int - 32) as char else c
  }

  /** toLowerCase() / lower(), restricted to ASCII letters. */
  function Lower(s: string): (r: string)
    ensures |r| == |s|
    ensures forall i | 0 <= i < |s| :: r[i] == LowerChar(s[i])
  {
    seq(|s|, i requires 0 <= i < |s| => LowerChar(s[i]))
  }

  /** toUpperCase(), restricted to ASCII letters. */
  function Upper(s: string): (r: string)
    ensures |r| == |s|
    ensures forall i | 0 <= i < |s| :: r[i] == UpperChar(s[i])
  {
    seq(|s|, i requires 0 <= i < |s| => UpperChar(s[i]))
  }

  /** An upper-cased string holds no lower-case ASCII letter. */
  lemma UpperHasNoLowerLetter(s: string, i: int)
    requires 0 <= i < |s|
    ensures !('a' <= Upper(s)[i] <= 'z')
  {
  }

  // ------------------------------------------------------- prefix, suffix, in

  predicate StartsWith(s: string, p: string)
  {
    |p| <= |s| && s[..|p|] == p
  }

  predicate EndsWith(s: string, p: string)
  {
    |p| <= |s| && s[|s| - |p|..] == p
  }

  /** `t` occurs in `s` at position `i`. */
  predicate ContainsAt(s: string, t: string, i: int)
  {
    0 <= i && i + |t| <= |s| && s[i..i + |t|] == t
  }

  /** JavaScript's s.includes(t) and Python's `t in s`. */
  predicate Contains(s: string, t: string)
  {
    exists i | 0 <= i <= |s| - |t| :: ContainsAt(s, t, i)
  }

  /** Some string of `words` occurs in `s` (Python's any(w in s for w in words)). */
  predicate ContainsAny(s: string, words: seq<string>)
    decreases |words|
  {
    words != [] && (Contains(s, words[0]) || ContainsAny(s, words[1..]))
  }

  lemma {:induction false} ContainsAnyMeans(s: string, words: seq<string>)
    ensures ContainsAny(s, words) <==> exists k | 0 <= k < |words| :: Contains(s, words[k])
    decreases |words|
  {
    if words != [] {
      ContainsAnyMeans(s, words[1..]);
      assert forall k | 1 <= k < |words| :: words[1..][k - 1] == words[k];
    }
  }

  lemma {:induction false} ContainsAppend(a: string, b: string, t: string)
    requires Contains(a, t) || Contains(b, t)
    ensures Contains(a + b, t)
  {
    if Contains(a, t) {
      var i :| 0 <= i <= |a| - |t| && ContainsAt(a, t, i);
      assert (a + b)[i..i + |t|] == a[i..i + |t|];
      assert ContainsAt(a + b, t, i);
    } else {
      var i :| 0 <= i <= |b| - |t| && ContainsAt(b, t, i);
      assert (a + b)[|a| + i..|a| + i + |t|] == b[i..i + |t|];
      assert ContainsAt(a + b, t, |a| + i);
    }
  }

  lemma {:induction false} ContainsAtShift(s: string, t: string, i: int)
    requires 1 <= |s| && 0 <= i
    ensures ContainsAt(s[1..], t, i) <==> ContainsAt(s, t, i + 1)
  {
    if 0 <= i && i + |t| <= |s| - 1 {
      assert s[1..][i..i + |t|] == s[i + 1..i + 1 + |t|];
    }
  }

  /** An occurrence inside a slice is an occurrence in the whole string. */
  lemma {:induction false} ContainsInSlice(s: string, a: int, b: int, t: string)
    requires 0 <= a <= b <= |s|
    requires Contains(s[a..b], t)
    ensures Contains(s, t)
  {
    var i :| 0 <= i <= |s[a..b]| - |t| && ContainsAt(s[a..b], t, i);
    forall k | 0 <= k < |t| ensures s[a + i..a + i + |t|][k] == t[k] {
      assert s[a + i..a + i + |t|][k] == s[a + i + k] == s[a..b][i..i + |t|][k];
    }
    assert s[a + i..a + i + |t|] == t;
    assert ContainsAt(s, t, a + i);
  }

  lemma StartsWithContains(s: string, p: string)
    requires StartsWith(s, p)
    ensures Contains(s, p)
  {
    assert ContainsAt(s, p, 0);
  }

  /** What a prefix contains, the whole string contains. */
  lemma {:induction false} ContainsInPrefix(s: string, p: string, t: string)
    requires StartsWith(s, p) && Contains(p, t)
    ensures Contains(s, t)
  {
    assert s[0..|p|] == p;
    ContainsInSlice(s, 0, |p|, t);
  }

  /** A string contains each of its pieces. */
  lemma ContainsMiddle(a: string, t: string, b: string)
    ensures Contains(a + t + b, t)
  {
    assert (a + t + b)[|a|..|a| + |t|] == t;
    assert ContainsAt(a + t + b, t, |a|);
  }

  /** What a part of `s` contains, `s` contains. */
  lemma {:induction false} ContainsTrans(s: string, t: string, u: string)
    requires Contains(s, t) && Contains(t, u)
    ensures Contains(s, u)
  {
    var i :| 0 <= i <= |s| - |t| && ContainsAt(s, t, i);
    ContainsInSlice(s, i, i + |t|, u);
  }

  /** A string made only of characters outside `t` cannot contain `t`. */
  lemma {:induction false} NotContainsByChar(s: string, t: string, c: char)
    requires c in t && c !in s
    ensures !Contains(s, t)
  {
    var k :| 0 <= k < |t| && t[k] == c;
    forall i | 0 <= i <= |s| - |t| ensures !ContainsAt(s, t, i) {
      assert s[i..i + |t|][k] == s[i + k] != c;
    }
  }

  // ------------------------------------------------------ search and split

  /** Index of the leftmost occurrence of `t` in `s` (indexOf / str.find). */
  function FirstIndex(s: string, t: string): (r: Option<nat>)
    requires |t| > 0
    ensures r.Some? ==> r.value + |t| <= |s|
    decreases |s|
  {
    if |s| < |t| then None
    else if s[..|t|] == t then Some(0)
    else match FirstIndex(s[1..], t)
      case None => None
      case Some(k) => Some(k + 1)
  }

  /** FirstIndex finds the leftmost occurrence, and reports none only when there is none. */
  lemma {:induction false} FirstIndexFinds(s: string, t: string)
    requires |t| > 0
    ensures var r := FirstIndex(s, t);
      (r.Some? ==> ContainsAt(s, t, r.value) && forall j | 0 <= j < r.value :: !ContainsAt(s, t, j)) &&
      (r.None? <==> !Contains(s, t))
    decreases |s|
  {
    if |s| < |t| {
    } else if s[..|t|] == t {
      assert ContainsAt(s, t, 0);
    } else {
      FirstIndexFinds(s[1..], t);
      assert !ContainsAt(s, t, 0);
      forall j | 0 <= j ensures ContainsAt(s[1..], t, j) <==> ContainsAt(s, t, j + 1) {
        ContainsAtShift(s, t, j);
      }
      match FirstIndex(s[1..], t)
      case None =>
        forall i | 1 <= i <= |s| - |t| ensures !ContainsAt(s, t, i) {
          assert !ContainsAt(s[1..], t, i - 1);
        }
      case Some(k) =>
        forall j | 0 <= j < k + 1 ensures !ContainsAt(s, t, j) {
          if j > 0 { assert !ContainsAt(s[1..], t, j - 1); }
        }
    }
  }

  /** A prefix that ends before the first occurrence of `t` does not contain `t`. */
  lemma {:induction false} PrefixBeforeFirst(s: string, t: string, k: nat)
    requires |t| > 0 && k <= |s|
    requires forall j | 0 <= j < k :: !ContainsAt(s, t, j)
    ensures !Contains(s[..k], t)
  {
    if Contains(s[..k], t) {
      var i :| 0 <= i <= k - |t| && ContainsAt(s[..k], t, i);
      assert s[..k][i..i + |t|] == s[i..i + |t|];
      assert ContainsAt(s, t, i);
    }
  }

  /** s.split(sep) for a non-empty literal separator (both runtimes agree). */
  function Split(s: string, sep: string): (parts: seq<string>)
    requires |sep| > 0
    ensures |parts| >= 1
    decreases |s|
  {
    match FirstIndex(s, sep)
    case None => [s]
    case Some(k) => [s[..k]] + Split(s[k + |sep|..], sep)
  }

  /** No part of a split holds the separator. */
  lemma {:induction false} SplitPartsLackSep(s: string, sep: string)
    requires |sep| > 0
    ensures forall k | 0 <= k < |Split(s, sep)| :: !Contains(Split(s, sep)[k], sep)
    decreases |s|
  {
    FirstIndexFinds(s, sep);
    match FirstIndex(s, sep)
    case None =>
    case Some(k) =>
      PrefixBeforeFirst(s, sep, k);
      SplitPartsLackSep(s[k + |sep|..], sep);
      assert Split(s, sep) == [s[..k]] + Split(s[k + |sep|..], sep);
  }

  /** A string that a text avoids is avoided by every part of its split. */
  lemma {:induction false} SplitPartsAvoid(s: string, sep: string, t: string)
    requires |sep| > 0 && !Contains(s, t)
    ensures forall part | part in Split(s, sep) :: !Contains(part, t)
    decreases |s|
  {
    match FirstIndex(s, sep)
    case None =>
    case Some(k) =>
      var head := s[..k];
      var rest := s[k + |sep|..];
      if Contains(head, t) {
        assert s[0..k] == head;
        ContainsInSlice(s, 0, k, t);
      }
      if Contains(rest, t) {
        assert s[k + |sep|..|s|] == rest;
        ContainsInSlice(s, k + |sep|, |s|, t);
      }
      SplitPartsAvoid(rest, sep, t);
      assert Split(s, sep) == [head] + Split(rest, sep);
  }

  /** sep.join(parts) / parts.join(sep). */
  function Join(parts: seq<string>, sep: string): string
    decreases |parts|
  {
    if |parts| == 0 then ""
    else if |parts| == 1 then parts[0]
    else parts[0] + sep + Join(parts[1..], sep)
  }

  /** Joining with one more part at the end adds the separator and that part. */
  lemma {:induction false} JoinSnoc(parts: seq<string>, x: string, sep: string)
    requires |parts| >= 1
    ensures Join(parts + [x], sep) == Join(parts, sep) + sep + x
    decreases |parts|
  {
    if |parts| > 1 {
      JoinSnoc(parts[1..], x, sep);
      assert (parts + [x])[1..] == parts[1..] + [x];
    } else {
      assert (parts + [x])[1..] == [x];
    }
  }

  /** A string is the text before an occurrence, the occurrence, and the text after it. */
  lemma {:induction false} SplitAround(s: string, t: string, k: int)
    requires ContainsAt(s, t, k)
    ensures s == s[..k] + t + s[k + |t|..]
  {
    assert s == s[..k] + s[k..k + |t|] + s[k + |t|..];
  }

  /** Joining a list with a head: the head, the separator, then the rest joined. */
  lemma JoinCons(head: string, rest: seq<string>, sep: string)
    requires |rest| >= 1
    ensures Join([head] + rest, sep) == head + sep + Join(rest, sep)
  {
    assert ([head] + rest)[1..] == rest;
  }

  /** Splitting and joining back with the same separator gives the original string. */
  lemma {:induction false} JoinSplit(s: string, sep: string)
    requires |sep| > 0
    ensures Join(Split(s, sep), sep) == s
    decreases |s|
  {
    FirstIndexFinds(s, sep);
    match FirstIndex(s, sep)
    case None =>
    case Some(k) =>
      var rest := s[k + |sep|..];
      JoinSplit(rest, sep);
      JoinCons(s[..k], Split(rest, sep), sep);
      SplitAround(s, sep, k);
  }

  /** Replace every occurrence of `t`, scanning left to right without overlap
    * (str.replace, and String.prototype.replace with a global literal pattern). */
  function ReplaceAll(s: string, t: string, u: string): (r: string)
    requires |t| > 0
    ensures |u| <= |t| ==> |r| <= |s|
    decreases |s|
  {
    match FirstIndex(s, t)
    case None => s
    case Some(k) => s[..k] + u + ReplaceAll(s[k + |t|..], t, u)
  }

  /** Without an occurrence there is nothing to replace. */
  lemma {:induction false} ReplaceAllWithout(s: string, t: string, u: string)
    requires |t| > 0 && !Contains(s, t)
    ensures ReplaceAll(s, t, u) == s
  {
    FirstIndexFinds(s, t);
  }

  /** Replacement agrees with splitting on `t` and joining with `u`. */
  lemma {:induction false} ReplaceAllIsSplitJoin(s: string, t: string, u: string)
    requires |t| > 0
    ensures ReplaceAll(s, t, u) == Join(Split(s, t), u)
    decreases |s|
  {
    match FirstIndex(s, t)
    case None =>
    case Some(k) =>
      var rest := s[k + |t|..];
      ReplaceAllIsSplitJoin(rest, t, u);
      JoinCons(s[..k], Split(rest, t), u);
  }

  /** After the replacement no occurrence remains, provided `u` cannot help form one. */
  lemma {:induction false} RemoveAllRemovesChar(s: string, c: char)
    ensures c !in ReplaceAll(s, [c], "")
    decreases |s|
  {
    FirstIndexFinds(s, [c]);
    match FirstIndex(s, [c])
    case None =>
      forall i | 0 <= i < |s| ensures s[i] != c {
        assert !ContainsAt(s, [c], i);
        assert s[i..i + 1] == [s[i]];
      }
    case Some(k) =>
      RemoveAllRemovesChar(s[k + 1..], c);
      var before := s[..k];
      assert ReplaceAll(s, [c], "") == before + ReplaceAll(s[k + 1..], [c], "");
      forall i | 0 <= i < k ensures before[i] != c {
        assert !ContainsAt(s, [c], i);
        assert s[i..i + 1] == [s[i]];
      }
  }

  /** A character absent from a text is absent from its trimmed form. */
  lemma TrimKeepsOut(s: string, rt: Runtime, c: char)
    requires c !in s
    ensures c !in Trim(s, rt)
  {
    TrimIsSlice(s, rt);
    var a := LeadingBlank(s, rt);
    var t := Trim(s, rt);
    forall i | 0 <= i < |t| ensures t[i] != c {
      assert t[i] == s[a + i];
    }
  }

  /** A character absent from a text is absent from every part of its split. */
  lemma {:induction false} SplitKeepsOut(s: string, sep: string, c: char)
    requires |sep| > 0 && c !in s
    ensures forall part | part in Split(s, sep) :: c !in part
    decreases |s|
  {
    match FirstIndex(s, sep)
    case None =>
    case Some(k) =>
      var head := s[..k];
      var rest := s[k + |sep|..];
      forall i | 0 <= i < |head| ensures head[i] != c {
        assert head[i] == s[i];
      }
      forall i | 0 <= i < |rest| ensures rest[i] != c {
        assert rest[i] == s[k + |sep| + i];
      }
      SplitKeepsOut(rest, sep, c);
      assert Split(s, sep) == [head] + Split(rest, sep);
  }

  /** Replacing cannot bring in a character that neither the text nor the replacement has. */
  lemma {:induction false} ReplaceKeepsOut(s: string, t: string, u: string, c: char)
    requires |t| > 0 && c !in s && c !in u
    ensures c !in ReplaceAll(s, t, u)
    decreases |s|
  {
    match FirstIndex(s, t)
    case None =>
    case Some(k) =>
      var head := s[..k];
      var rest := s[k + |t|..];
      forall i | 0 <= i < |head| ensures head[i] != c {
        assert head[i] == s[i];
      }
      forall i | 0 <= i < |rest| ensures rest[i] != c {
        assert rest[i] == s[k + |t| + i];
      }
      ReplaceKeepsOut(rest, t, u, c);
  }

  /** The number of positions at which `t` occurs in `s` (overlapping ones included). */
  function Occurrences(s: string, t: string): nat
    requires |t| > 0
    decreases |s|
  {
    if |s| < |t| then 0 else (if s[..|t|] == t then 1 else 0) + Occurrences(s[1..], t)
  }

  /** Whether no occurrence of `t` can start in the last |t| - 1 characters of `s`. */
  predicate QuietEnd(s: string, t: string)
    requires |t| > 0
  {
    forall i | |s| - |t| < i < |s| && 0 <= i :: s[i] != t[0]
  }

  /** Occurrences add up over a concatenation when none can straddle the seam. */
  lemma {:induction false} OccurrencesAppend(a: string, b: string, t: string)
    requires |t| > 0 && QuietEnd(a, t)
    ensures Occurrences(a + b, t) == Occurrences(a, t) + Occurrences(b, t)
    decreases |a|
  {
    if a == [] {
      assert a + b == b;
    } else if |a + b| >= |t| {
      assert (a + b)[1..] == a[1..] + b;
      OccurrencesAppend(a[1..], b, t);
      if |a| < |t| {
        assert a[0] != t[0];
        assert (a + b)[..|t|][0] == a[0];
      } else {
        assert (a + b)[..|t|] == a[..|t|];
      }
    }
  }

  /** A text without the first character of `t` holds no occurrence of `t`. */
  lemma {:induction false} OccurrencesAbsent(s: string, t: string)
    requires |t| > 0 && t[0] !in s
    ensures Occurrences(s, t) == 0
    decreases |s|
  {
    if |s| >= |t| {
      assert s[..|t|][0] == s[0];
      assert forall c | c in s[1..] :: c in s;
      OccurrencesAbsent(s[1..], t);
    }
  }

  // ------------------------------------------------------------ integers

  function DigitChar(d: int): char
    requires 0 <= d <= 9
  {
    ('0' as int + d) as char
  }

  /** The decimal spelling of a natural number (String(n) / str(n)). */
  function NatToString(n: nat): (r: string)
    ensures |r| >= 1
    ensures forall i | 0 <= i < |r| :: '0' <= r[i] <= '9'
    ensures n > 0 ==> r[0] != '0'
    decreases n
  {
    if n < 10 then [DigitChar(n)] else NatToString(n / 10) + [DigitChar(n % 10)]
  }

  /** The decimal spelling of an integer, with a leading '-' when negative. */
  function IntToString(n: int): string
  {
    if n < 0 then "-" + NatToString(-n) else NatToString(n)
  }

  predicate IsAsciiDigit(c: char)
  {
    '0' <= c <= '9'
  }

  /** The value of a string of ASCII digits. */
  function DigitsValue(s: string): nat
    requires forall i | 0 <= i < |s| :: IsAsciiDigit(s[i])
    decreases |s|
  {
    if s == [] then 0
    else
      assert IsAsciiDigit(s[|s| - 1]);
      DigitsValue(s[..|s| - 1]) * 10 + (s[|s| - 1] as int - '0' as int)
  }

  /** Reading back a decimal spelling gives the number. */
  lemma {:induction false} DigitsValueOfNatToString(n: nat)
    ensures DigitsValue(NatToString(n)) == n
    decreases n
  {
    if n >= 10 {
      DigitsValueOfNatToString(n / 10);
      var r := NatToString(n);
      assert r[..|r| - 1] == NatToString(n / 10);
    }
  }
}
