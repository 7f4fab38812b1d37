// The client's history list: the pre-filter, the de-duplication of summaries saved
// within five minutes of each other (filterDuplicateSummaries) and the two sorts by time.
module HistoryDedup {
  import opened Wrappers

  /** A history entry: its id, its `type` ("" when absent), its title ("" when absent)
    * and the time `new Date(timestamp || id).getTime()` in milliseconds. */
  datatype Entry = Entry(id: int, kind: string, title: string, time: int)

  const Window: int := 300000
  const DoctorSummary: string := "Doctor Summary"
  const MedicalRecommendation: string := "Medical Recommendation"

  predicate IsSummary(e: Entry)
  {
    e.kind == "summary"
  }

  /** Math.abs(a - b) / (1000 * 60) < 5, on integer milliseconds. */
  predicate Close(e: Entry, x: Entry)
  {
    -Window < e.time - x.time < Window
  }

  /** The incoming summary `e` replaces the stored summary `x`. */
  predicate Prefer(e: Entry, x: Entry)
  {
    e.title == DoctorSummary || (e.title == x.title && e.time > x.time)
  }

  // ---------------------------------------------------------------- sorting

  /** The comparator of the two sorts: ascending `a - b` or descending `b - a`. */
  predicate Before(a: Entry, b: Entry, desc: bool)
  {
    if desc then a.time > b.time else a.time < b.time
  }

  predicate Sorted(s: seq<Entry>, desc: bool)
  {
    forall i, j | 0 <= i < j < |s| :: !Before(s[j], s[i], desc)
  }

  /** Insertion after every element that does not sort after `e`, so equal times keep
    * their order, as in the stable Array.prototype.sort. */
  function Insert(e: Entry, t: seq<Entry>, desc: bool): (r: seq<Entry>)
    ensures |r| == |t| + 1
    decreases |t|
  {
    if t == [] || Before(e, t[0], desc) then [e] + t else [t[0]] + Insert(e, t[1..], desc)
  }

  function Sort(s: seq<Entry>, desc: bool): (r: seq<Entry>)
    ensures |r| == |s|
    decreases |s|
  {
    if s == [] then [] else Insert(s[|s| - 1], Sort(s[..|s| - 1], desc), desc)
  }

  lemma {:induction false} InsertPerm(e: Entry, t: seq<Entry>, desc: bool)
    ensures multiset(Insert(e, t, desc)) == multiset(t) + multiset{e}
    decreases |t|
  {
    if t != [] && !Before(e, t[0], desc) {
      InsertPerm(e, t[1..], desc);
      assert t == [t[0]] + t[1..];
    }
  }

  /** Insertion adds `e` and keeps everything else. */
  lemma {:induction false} InsertMembers(e: Entry, t: seq<Entry>, desc: bool)
    ensures forall x | x in Insert(e, t, desc) :: x == e || x in t
    ensures e in Insert(e, t, desc)
    ensures forall x | x in t :: x in Insert(e, t, desc)
    decreases |t|
  {
    if t != [] && !Before(e, t[0], desc) {
      InsertMembers(e, t[1..], desc);
      assert t == [t[0]] + t[1..];
    }
  }

  /** The sort keeps exactly the members of its input. */
  lemma {:induction false} SortMembers(s: seq<Entry>, desc: bool)
    ensures forall x | x in Sort(s, desc) :: x in s
    ensures forall x | x in s :: x in Sort(s, desc)
    decreases |s|
  {
    if s != [] {
      var init := s[..|s| - 1];
      SortMembers(init, desc);
      InsertMembers(s[|s| - 1], Sort(init, desc), desc);
      assert s == init + [s[|s| - 1]];
    }
  }

  lemma {:induction false} SortedTail(t: seq<Entry>, desc: bool)
    requires Sorted(t, desc) && t != []
    ensures Sorted(t[1..], desc)
    ensures forall x | x in t[1..] :: !Before(x, t[0], desc)
  {
    var u := t[1..];
    forall i, j | 0 <= i < j < |u| ensures !Before(u[j], u[i], desc) {
      assert u[i] == t[i + 1] && u[j] == t[j + 1];
    }
    forall x | x in u ensures !Before(x, t[0], desc) {
      var m :| 0 <= m < |u| && u[m] == x;
      assert t[m + 1] == x;
    }
  }

  lemma {:induction false} SortedCons(x: Entry, r: seq<Entry>, desc: bool)
    requires Sorted(r, desc) && forall y | y in r :: !Before(y, x, desc)
    ensures Sorted([x] + r, desc)
  {
    var s := [x] + r;
    forall i, j | 0 <= i < j < |s| ensures !Before(s[j], s[i], desc) {
      assert s[j] == r[j - 1];
      if i > 0 {
        assert s[i] == r[i - 1];
      }
    }
  }

  lemma {:induction false} InsertSorted(e: Entry, t: seq<Entry>, desc: bool)
    requires Sorted(t, desc)
    ensures Sorted(Insert(e, t, desc), desc)
    decreases |t|
  {
    if t == [] || Before(e, t[0], desc) {
      if t != [] {
        forall y | y in t ensures !Before(y, e, desc) {
          var m :| 0 <= m < |t| && t[m] == y;
          if m > 0 {
            assert !Before(t[m], t[0], desc);
          }
        }
      }
      SortedCons(e, t, desc);
    } else {
      SortedTail(t, desc);
      InsertSorted(e, t[1..], desc);
      InsertMembers(e, t[1..], desc);
      SortedCons(t[0], Insert(e, t[1..], desc), desc);
    }
  }

  /** The sort orders by time and is a permutation: the comparator's promise. */
  lemma {:induction false} SortSortsAndPermutes(s: seq<Entry>, desc: bool)
    ensures Sorted(Sort(s, desc), desc)
    ensures multiset(Sort(s, desc)) == multiset(s)
    decreases |s|
  {
    if s != [] {
      var init := s[..|s| - 1];
      SortSortsAndPermutes(init, desc);
      InsertSorted(s[|s| - 1], Sort(init, desc), desc);
      InsertPerm(s[|s| - 1], Sort(init, desc), desc);
      assert s == init + [s[|s| - 1]];
    }
  }

  /** An element that sorts after all others goes to the end. */
  lemma {:induction false} InsertAtEnd(e: Entry, t: seq<Entry>, desc: bool)
    requires forall x | x in t :: !Before(e, x, desc)
    ensures Insert(e, t, desc) == t + [e]
    decreases |t|
  {
    if t != [] {
      assert t[0] in t;
      assert forall x | x in t[1..] :: x in t;
      InsertAtEnd(e, t[1..], desc);
      assert t == [t[0]] + t[1..];
    }
  }

  /** Sorting an already sorted list changes nothing. */
  lemma {:induction false} SortedInit(init: seq<Entry>, last: Entry, desc: bool)
    requires Sorted(init + [last], desc)
    ensures Sorted(init, desc)
    ensures forall x | x in init :: !Before(last, x, desc)
  {
    var s := init + [last];
    forall i, j | 0 <= i < j < |init| ensures !Before(init[j], init[i], desc) {
      assert init[i] == s[i] && init[j] == s[j];
    }
    forall x | x in init ensures !Before(last, x, desc) {
      var m :| 0 <= m < |init| && init[m] == x;
      assert s[m] == x && s[|init|] == last;
    }
  }

  lemma {:induction false} SortOfSorted(s: seq<Entry>, desc: bool)
    requires Sorted(s, desc)
    ensures Sort(s, desc) == s
    decreases |s|
  {
    if s != [] {
      var init := s[..|s| - 1];
      assert s == init + [s[|s| - 1]];
      SortedInit(init, s[|s| - 1], desc);
      SortOfSorted(init, desc);
      InsertAtEnd(s[|s| - 1], init, desc);
    }
  }

  // ------------------------------------------------------- the session map

  /** No two entries share an id (so the Map keyed by id holds each of them). */
  predicate DistinctIds(s: seq<Entry>)
  {
    forall i, j | 0 <= i < j < |s| :: s[i].id != s[j].id
  }

  /** The position of the entry with `id`, if any. */
  function IndexOfId(m: seq<Entry>, id: int): (r: Option<nat>)
    ensures r.Some? ==> r.value < |m| && m[r.value].id == id
    decreases |m|
  {
    if m == [] then None
    else if m[0].id == id then Some(0)
    else match IndexOfId(m[1..], id)
      case None => None
      case Some(k) => Some(k + 1)
  }

  lemma {:induction false} IndexOfIdNone(m: seq<Entry>, id: int)
    requires forall x | x in m :: x.id != id
    ensures IndexOfId(m, id) == None
    decreases |m|
  {
    if m != [] {
      assert m[0] in m;
      assert forall x | x in m[1..] :: x in m;
      IndexOfIdNone(m[1..], id);
    }
  }

  /** Map.set: a new key goes to the end, an existing key keeps its place. */
  function MapSet(m: seq<Entry>, e: Entry): seq<Entry>
  {
    match IndexOfId(m, e.id)
    case Some(k) => m[k := e]
    case None => m + [e]
  }

  /** The forEach over the map for an incoming summary: every stored summary within
    * the window is either deleted (the incoming one is preferred, and the flag is
    * reset) or kept (and the flag is set).  Returns the map and the final flag. */
  function Scan(m: seq<Entry>, e: Entry, dup: bool): (r: (seq<Entry>, bool))
    decreases |m|
  {
    if m == [] then ([], dup)
    else
      var x := m[0];
      if IsSummary(x) && Close(e, x) then
        if Prefer(e, x) then Scan(m[1..], e, false)
        else var rest := Scan(m[1..], e, true); ([x] + rest.0, rest.1)
      else
        var rest := Scan(m[1..], e, dup); ([x] + rest.0, rest.1)
  }

  /** One entry of the sorted list. */
  function Process(m: seq<Entry>, e: Entry): seq<Entry>
  {
    if !IsSummary(e) then MapSet(m, e)
    else
      var r := Scan(m, e, false);
      if !r.1 then MapSet(r.0, e) else r.0
  }

  function Fold(m: seq<Entry>, es: seq<Entry>): seq<Entry>
    decreases |es|
  {
    if es == [] then m else Fold(Process(m, es[0]), es[1..])
  }

  /** filterDuplicateSummaries: the map's values after the sorted entries. */
  function Dedup(entries: seq<Entry>): seq<Entry>
  {
    Fold([], Sort(entries, false))
  }

  /** The filter of fetchChatHistory before the de-duplication. */
  predicate Listed(e: Entry)
  {
    e.kind == "summary" || (e.title != "" && (e.title == DoctorSummary || e.title == MedicalRecommendation))
  }

  function ListedOnly(s: seq<Entry>): (r: seq<Entry>)
    ensures |r| <= |s|
    decreases |s|
  {
    if s == [] then [] else (if Listed(s[0]) then [s[0]] else []) + ListedOnly(s[1..])
  }

  /** The history shown after fetchChatHistory: listed entries, de-duplicated, newest first. */
  function FetchedHistory(entries: seq<Entry>): seq<Entry>
  {
    Sort(Dedup(ListedOnly(entries)), true)
  }

  // ------------------------------------------------------ properties: tools

  /** Kept summaries are at least five minutes apart. */
  predicate Spaced(s: seq<Entry>)
  {
    forall i, j | 0 <= i < j < |s| :: IsSummary(s[i]) && IsSummary(s[j]) ==> !Close(s[j], s[i])
  }

  /** No stored summary lies within the window of `e`. */
  predicate NoneClose(m: seq<Entry>, e: Entry)
  {
    forall i | 0 <= i < |m| :: !(IsSummary(m[i]) && Close(e, m[i]))
  }

  function RemoveAt(s: seq<Entry>, k: nat): (r: seq<Entry>)
    requires k < |s|
    ensures |r| == |s| - 1
  {
    s[..k] + s[k + 1..]
  }

  lemma RemoveAtIndex(s: seq<Entry>, k: nat, i: nat)
    requires k < |s| && i < |s| - 1
    ensures RemoveAt(s, k)[i] == s[if i < k then i else i + 1]
  {
  }

  /** Removing one entry keeps the order, the distinct ids and the spacing... */
  lemma {:induction false} RemoveAtKeeps(s: seq<Entry>, k: nat)
    requires k < |s|
    ensures Sorted(s, false) ==> Sorted(RemoveAt(s, k), false)
    ensures DistinctIds(s) ==> DistinctIds(RemoveAt(s, k))
    ensures Spaced(s) ==> Spaced(RemoveAt(s, k))
  {
    var r := RemoveAt(s, k);
    forall i, j | 0 <= i < j < |r|
      ensures s[if i < k then i else i + 1] == r[i] && s[if j < k then j else j + 1] == r[j]
    {
      RemoveAtIndex(s, k, i);
      RemoveAtIndex(s, k, j);
    }
  }

  /** ... and removes that entry and nothing else. */
  lemma {:induction false} RemoveAtMembers(s: seq<Entry>, k: nat)
    requires k < |s|
    ensures forall x | x in RemoveAt(s, k) :: x in s
    ensures forall i | 0 <= i < |s| && i != k :: s[i] in RemoveAt(s, k)
  {
    var r := RemoveAt(s, k);
    forall i | 0 <= i < |r| ensures r[i] in s {
      RemoveAtIndex(s, k, i);
    }
    forall i | 0 <= i < |s| && i != k ensures s[i] in r {
      var i' := if i < k then i else i - 1;
      RemoveAtIndex(s, k, i');
    }
  }

  lemma {:induction false} ConsDistinct(x: Entry, r: seq<Entry>)
    requires DistinctIds(r) && forall y | y in r :: y.id != x.id
    ensures DistinctIds([x] + r)
  {
    var s := [x] + r;
    forall i, j | 0 <= i < j < |s| ensures s[i].id != s[j].id {
      assert s[j] == r[j - 1];
      if i > 0 {
        assert s[i] == r[i - 1];
      } else {
        assert r[j - 1] in r;
      }
    }
  }

  lemma {:induction false} SnocSpaced(s: seq<Entry>, e: Entry)
    requires Spaced(s) && (IsSummary(e) ==> NoneClose(s, e))
    ensures Spaced(s + [e])
  {
    var t := s + [e];
    forall i, j | 0 <= i < j < |t| && IsSummary(t[i]) && IsSummary(t[j]) ensures !Close(t[j], t[i]) {
      assert t[i] == s[i];
      if j < |s| {
        assert t[j] == s[j];
      }
    }
  }

  lemma {:induction false} DistinctTail(t: seq<Entry>)
    requires DistinctIds(t) && t != []
    ensures DistinctIds(t[1..])
    ensures forall y | y in t[1..] :: y.id != t[0].id
  {
    var u := t[1..];
    forall i, j | 0 <= i < j < |u| ensures u[i].id != u[j].id {
      assert u[i] == t[i + 1] && u[j] == t[j + 1];
    }
    forall y | y in u ensures y.id != t[0].id {
      var m :| 0 <= m < |u| && u[m] == y;
      assert t[m + 1] == y;
    }
  }

  lemma {:induction false} DistinctInit(init: seq<Entry>, last: Entry)
    requires DistinctIds(init + [last])
    ensures DistinctIds(init)
    ensures forall x | x in init :: x.id != last.id
  {
    var s := init + [last];
    forall i, j | 0 <= i < j < |init| ensures init[i].id != init[j].id {
      assert init[i] == s[i] && init[j] == s[j];
    }
    forall x | x in init ensures x.id != last.id {
      var m :| 0 <= m < |init| && init[m] == x;
      assert s[m] == x && s[|init|] == last;
    }
  }

  lemma {:induction false} InsertDistinct(e: Entry, t: seq<Entry>, desc: bool)
    requires DistinctIds(t) && forall x | x in t :: x.id != e.id
    ensures DistinctIds(Insert(e, t, desc))
    decreases |t|
  {
    if t == [] || Before(e, t[0], desc) {
      ConsDistinct(e, t);
    } else {
      DistinctTail(t);
      assert forall x | x in t[1..] :: x in t;
      InsertDistinct(e, t[1..], desc);
      InsertMembers(e, t[1..], desc);
      assert t[0] in t;
      ConsDistinct(t[0], Insert(e, t[1..], desc));
    }
  }

  lemma {:induction false} SortDistinct(s: seq<Entry>, desc: bool)
    requires DistinctIds(s)
    ensures DistinctIds(Sort(s, desc))
    decreases |s|
  {
    if s != [] {
      var init := s[..|s| - 1];
      var last := s[|s| - 1];
      assert s == init + [last];
      DistinctInit(init, last);
      SortDistinct(init, desc);
      SortMembers(init, desc);
      InsertDistinct(last, Sort(init, desc), desc);
    }
  }

  /** The first stored summary within the window of `e`. */
  function FirstClose(m: seq<Entry>, e: Entry): (r: Option<nat>)
    ensures r.Some? ==> r.value < |m| && IsSummary(m[r.value]) && Close(e, m[r.value])
    decreases |m|
  {
    if m == [] then None
    else if IsSummary(m[0]) && Close(e, m[0]) then Some(0)
    else match FirstClose(m[1..], e)
      case None => None
      case Some(k) => Some(k + 1)
  }

  lemma {:induction false} FirstCloseNone(m: seq<Entry>, e: Entry)
    requires FirstClose(m, e) == None
    ensures NoneClose(m, e)
    decreases |m|
  {
    if m != [] {
      FirstCloseNone(m[1..], e);
      forall i | 1 <= i < |m| ensures !(IsSummary(m[i]) && Close(e, m[i])) {
        assert m[i] == m[1..][i - 1];
      }
    }
  }

  lemma {:induction false} ScanNoClose(m: seq<Entry>, e: Entry, dup: bool)
    requires NoneClose(m, e)
    ensures Scan(m, e, dup) == (m, dup)
    decreases |m|
  {
    if m != [] {
      assert NoneClose(m[1..], e) by {
        forall i | 0 <= i < |m| - 1 ensures !(IsSummary(m[1..][i]) && Close(e, m[1..][i])) {
          assert m[1..][i] == m[i + 1];
        }
      }
      ScanNoClose(m[1..], e, dup);
      assert m == [m[0]] + m[1..];
    }
  }

  lemma RemoveAtCons(m: seq<Entry>, k: nat)
    requires 0 < k < |m|
    ensures RemoveAt(m, k) == [m[0]] + RemoveAt(m[1..], k - 1)
  {
  }

  lemma {:induction false} ScanOneClose(m: seq<Entry>, e: Entry, dup: bool, k: nat)
    requires k < |m| && IsSummary(m[k]) && Close(e, m[k])
    requires forall i | 0 <= i < |m| && i != k :: !(IsSummary(m[i]) && Close(e, m[i]))
    ensures Scan(m, e, dup) == if Prefer(e, m[k]) then (RemoveAt(m, k), false) else (m, true)
    decreases |m|
  {
    var tail := m[1..];
    if k == 0 {
      assert NoneClose(tail, e) by {
        forall i | 0 <= i < |tail| ensures !(IsSummary(tail[i]) && Close(e, tail[i])) {
          assert tail[i] == m[i + 1];
        }
      }
      assert m == [m[0]] + tail;
      if Prefer(e, m[0]) {
        ScanNoClose(tail, e, false);
        assert RemoveAt(m, 0) == tail;
      } else {
        ScanNoClose(tail, e, true);
        assert Scan(m, e, dup) == ([m[0]] + tail, true);
      }
    } else {
      assert !(IsSummary(m[0]) && Close(e, m[0]));
      forall i | 0 <= i < |tail| && i != k - 1 ensures !(IsSummary(tail[i]) && Close(e, tail[i])) {
        assert tail[i] == m[i + 1];
      }
      assert tail[k - 1] == m[k];
      ScanOneClose(tail, e, dup, k - 1);
      var rest := Scan(tail, e, dup);
      assert Scan(m, e, dup) == ([m[0]] + rest.0, rest.1);
      if Prefer(e, m[k]) {
        RemoveAtCons(m, k);
      } else {
        assert [m[0]] + tail == m;
      }
    }
  }

  /** Sorted input and spaced summaries leave at most one stored summary within the
    * window of a later entry. */
  lemma {:induction false} AtMostOneClose(m: seq<Entry>, e: Entry)
    requires Sorted(m, false) && Spaced(m)
    requires forall i | 0 <= i < |m| :: m[i].time <= e.time
    ensures forall i, j | 0 <= i < |m| && 0 <= j < |m| && i != j ::
      !(IsSummary(m[i]) && Close(e, m[i]) && IsSummary(m[j]) && Close(e, m[j]))
  {
    forall i, j | 0 <= i < |m| && 0 <= j < |m| && i != j
      ensures !(IsSummary(m[i]) && Close(e, m[i]) && IsSummary(m[j]) && Close(e, m[j]))
    {
      if i < j {
        assert !Before(m[j], m[i], false);
      } else {
        assert !Before(m[i], m[j], false);
      }
    }
  }

  /** What one entry does to the map: a regular entry or a summary with no stored
    * summary in its window is added; otherwise the one summary in the window is
    * replaced when the new one is preferred, and the new one is dropped when not. */
  lemma {:induction false} ProcessCases(m: seq<Entry>, e: Entry)
    requires Sorted(m, false) && Spaced(m) && DistinctIds(m)
    requires forall i | 0 <= i < |m| :: m[i].time <= e.time && m[i].id != e.id
    ensures !IsSummary(e) ==> Process(m, e) == m + [e]
    ensures IsSummary(e) && FirstClose(m, e) == None ==> Process(m, e) == m + [e]
    ensures IsSummary(e) && FirstClose(m, e).Some? ==>
      var k := FirstClose(m, e).value;
      Process(m, e) == if Prefer(e, m[k]) then RemoveAt(m, k) + [e] else m
  {
    assert forall x | x in m :: x.id != e.id;
    IndexOfIdNone(m, e.id);
    if IsSummary(e) {
      match FirstClose(m, e)
      case None =>
        FirstCloseNone(m, e);
        ScanNoClose(m, e, false);
      case Some(k) =>
        AtMostOneClose(m, e);
        ScanOneClose(m, e, false, k);
        if Prefer(e, m[k]) {
          RemoveAtMembers(m, k);
          assert forall x | x in RemoveAt(m, k) :: x.id != e.id;
          IndexOfIdNone(RemoveAt(m, k), e.id);
        }
    }
  }

  /** The state of the fold: processed map and pending entries, together sorted and
    * with distinct ids, the map spaced. */
  predicate Good(m: seq<Entry>, es: seq<Entry>)
  {
    Sorted(m + es, false) && Spaced(m) && DistinctIds(m + es)
  }

  lemma {:induction false} GoodSplit(m: seq<Entry>, es: seq<Entry>)
    requires Good(m, es) && es != []
    ensures Sorted(m, false) && DistinctIds(m)
    ensures forall i | 0 <= i < |m| :: m[i].time <= es[0].time && m[i].id != es[0].id
  {
    var s := m + es;
    forall i, j | 0 <= i < j < |m| ensures !Before(m[j], m[i], false) && m[i].id != m[j].id {
      assert s[i] == m[i] && s[j] == m[j];
    }
    forall i | 0 <= i < |m| ensures m[i].time <= es[0].time && m[i].id != es[0].id {
      assert s[i] == m[i] && s[|m|] == es[0];
    }
  }

  /** One step of the fold keeps the state good, keeps every regular entry and adds
    * nothing new. */
  predicate StepOk(m: seq<Entry>, es: seq<Entry>, next: seq<Entry>)
    requires es != []
  {
    Good(next, es[1..]) &&
    (forall i | 0 <= i < |m + es| && !IsSummary((m + es)[i]) :: (m + es)[i] in next + es[1..]) &&
    (forall x | x in next + es[1..] :: x in m + es)
  }

  lemma {:induction false} StepAdds(m: seq<Entry>, es: seq<Entry>)
    requires Good(m, es) && es != []
    requires !IsSummary(es[0]) || NoneClose(m, es[0])
    ensures StepOk(m, es, m + [es[0]])
  {
    SnocSpaced(m, es[0]);
    assert m + [es[0]] + es[1..] == m + es;
  }

  lemma {:induction false} StepDrops(m: seq<Entry>, es: seq<Entry>)
    requires Good(m, es) && es != [] && IsSummary(es[0])
    ensures StepOk(m, es, m)
  {
    var s := m + es;
    RemoveAtKeeps(s, |m|);
    RemoveAtMembers(s, |m|);
    assert m + es[1..] == RemoveAt(s, |m|);
    assert s[|m|] == es[0];
  }

  lemma {:induction false} StepReplaces(m: seq<Entry>, es: seq<Entry>, k: nat)
    requires Good(m, es) && es != [] && k < |m| && IsSummary(m[k])
    requires forall i | 0 <= i < |m| && i != k :: !(IsSummary(m[i]) && Close(es[0], m[i]))
    ensures StepOk(m, es, RemoveAt(m, k) + [es[0]])
  {
    var r := RemoveAt(m, k);
    RemoveAtAppend(m, es, k);
    assert r + [es[0]] + es[1..] == r + es;
    ReplaceKeepsOrder(m, es, k);
    ReplaceMembers(m + es, k);
    assert (m + es)[k] == m[k];
  }

  lemma {:induction false} ReplaceKeepsOrder(m: seq<Entry>, es: seq<Entry>, k: nat)
    requires Good(m, es) && es != [] && k < |m|
    requires forall i | 0 <= i < |m| && i != k :: !(IsSummary(m[i]) && Close(es[0], m[i]))
    ensures Good(RemoveAt(m, k) + [es[0]], es[1..])
  {
    var e := es[0];
    var r := RemoveAt(m, k);
    RemoveAtKeeps(m, k);
    RemoveAtKeeps(m + es, k);
    RemoveAtAppend(m, es, k);
    assert r + [e] + es[1..] == RemoveAt(m + es, k);
    forall i | 0 <= i < |r| ensures !(IsSummary(r[i]) && Close(e, r[i])) {
      RemoveAtIndex(m, k, i);
    }
    SnocSpaced(r, e);
  }

  lemma {:induction false} ReplaceMembers(s: seq<Entry>, k: nat)
    requires k < |s| && IsSummary(s[k])
    ensures forall i | 0 <= i < |s| && !IsSummary(s[i]) :: s[i] in RemoveAt(s, k)
    ensures forall x | x in RemoveAt(s, k) :: x in s
  {
    RemoveAtMembers(s, k);
  }

  lemma RemoveAtAppend(m: seq<Entry>, t: seq<Entry>, k: nat)
    requires k < |m|
    ensures RemoveAt(m, k) + t == RemoveAt(m + t, k)
  {
    assert (m + t)[..k] == m[..k];
    assert (m + t)[k + 1..] == m[k + 1..] + t;
  }

  lemma {:induction false} GoodStep(m: seq<Entry>, es: seq<Entry>)
    requires Good(m, es) && es != []
    ensures StepOk(m, es, Process(m, es[0]))
  {
    var e := es[0];
    GoodSplit(m, es);
    ProcessCases(m, e);
    if !IsSummary(e) {
      StepAdds(m, es);
    } else {
      match FirstClose(m, e)
      case None =>
        FirstCloseNone(m, e);
        StepAdds(m, es);
      case Some(k) =>
        AtMostOneClose(m, e);
        if Prefer(e, m[k]) {
          StepReplaces(m, es, k);
        } else {
          StepDrops(m, es);
        }
    }
  }

  lemma {:induction false} FoldFacts(m: seq<Entry>, es: seq<Entry>)
    requires Good(m, es)
    ensures Sorted(Fold(m, es), false) && Spaced(Fold(m, es)) && DistinctIds(Fold(m, es))
    ensures forall i | 0 <= i < |m + es| && !IsSummary((m + es)[i]) :: (m + es)[i] in Fold(m, es)
    ensures forall x | x in Fold(m, es) :: x in m + es
    decreases |es|
  {
    if es == [] {
      assert m + es == m;
    } else {
      var next := Process(m, es[0]);
      GoodStep(m, es);
      FoldFacts(next, es[1..]);
      forall i | 0 <= i < |m + es| && !IsSummary((m + es)[i]) ensures (m + es)[i] in Fold(m, es) {
        var x := (m + es)[i];
        assert x in next + es[1..];
        var p :| 0 <= p < |next + es[1..]| && (next + es[1..])[p] == x;
      }
    }
  }

  // ------------------------------------------------------------- properties

  /** The de-duplicated list is in ascending time order, its summaries are pairwise at
    * least five minutes apart, every regular entry is kept and nothing is added. */
  lemma {:induction false} DedupFacts(entries: seq<Entry>)
    requires DistinctIds(entries)
    ensures Sorted(Dedup(entries), false) && Spaced(Dedup(entries)) && DistinctIds(Dedup(entries))
    ensures forall x | x in entries && !IsSummary(x) :: x in Dedup(entries)
    ensures forall x | x in Dedup(entries) :: x in entries
  {
    var sorted := Sort(entries, false);
    SortSortsAndPermutes(entries, false);
    SortDistinct(entries, false);
    SortMembers(entries, false);
    FoldFromEmpty(sorted);
  }

  lemma {:induction false} FoldFromEmpty(es: seq<Entry>)
    requires Sorted(es, false) && DistinctIds(es)
    ensures Sorted(Fold([], es), false) && Spaced(Fold([], es)) && DistinctIds(Fold([], es))
    ensures forall x | x in es && !IsSummary(x) :: x in Fold([], es)
    ensures forall x | x in Fold([], es) :: x in es
  {
    assert [] + es == es;
    FoldFacts([], es);
    forall x | x in es && !IsSummary(x) ensures x in Fold([], es) {
      var p :| 0 <= p < |es| && es[p] == x;
      assert ([] + es)[p] == x;
    }
  }

  /** A sorted, spaced list with distinct ids is a fixed point of the fold. */
  lemma {:induction false} FoldIdentity(m: seq<Entry>, es: seq<Entry>)
    requires Sorted(m + es, false) && Spaced(m + es) && DistinctIds(m + es)
    ensures Fold(m, es) == m + es
    decreases |es|
  {
    if es != [] {
      var e := es[0];
      var s := m + es;
      assert Spaced(m) by {
        forall i, j | 0 <= i < j < |m| ensures IsSummary(m[i]) && IsSummary(m[j]) ==> !Close(m[j], m[i]) {
          assert s[i] == m[i] && s[j] == m[j];
        }
      }
      assert Good(m, es);
      GoodSplit(m, es);
      ProcessCases(m, e);
      if IsSummary(e) {
        forall i | 0 <= i < |m| ensures !(IsSummary(m[i]) && Close(e, m[i])) {
          assert s[i] == m[i] && s[|m|] == e;
        }
        assert FirstClose(m, e) == None;
      }
      assert m + [e] + es[1..] == s;
      FoldIdentity(m + [e], es[1..]);
    } else {
      assert m + es == m;
    }
  }

  /** Re-running the filter on its own output returns it unchanged. */
  lemma {:induction false} DedupIdempotent(entries: seq<Entry>)
    requires DistinctIds(entries)
    ensures Dedup(Dedup(entries)) == Dedup(entries)
  {
    var d := Dedup(entries);
    DedupFacts(entries);
    SortOfSorted(d, false);
    assert [] + d == d;
    FoldIdentity([], d);
  }

  /** Two summaries less than five minutes apart, `a` not later than `b`: one survives,
    * "Doctor Summary" whichever it is, the later one for equal titles, and the earlier
    * one for two different other titles. */
  lemma {:induction false} DedupPair(a: Entry, b: Entry)
    requires IsSummary(a) && IsSummary(b) && a.time <= b.time && Close(b, a)
    ensures Dedup([a, b]) == if Prefer(b, a) then [b] else [a]
    ensures (a.title == DoctorSummary || b.title == DoctorSummary) ==> Dedup([a, b])[0].title == DoctorSummary
    ensures a.title == b.title && a.time < b.time ==> Dedup([a, b]) == [b]
    ensures a.title != b.title && a.title != DoctorSummary && b.title != DoctorSummary ==> Dedup([a, b]) == [a]
  {
    assert [a, b][..1] == [a] && [a][..0] == [] && [a][1..] == [] && [a, b][1..] == [b];
    assert Sort([a], false) == [a];
    assert Insert(b, [a], false) == [a] + Insert(b, [], false);
    assert Sort([a, b], false) == [a, b];
    assert Process([], a) == [a];
    assert Scan([a], b, false) == if Prefer(b, a) then ([], false) else ([a], true);
    assert Fold([], [a, b]) == Fold([a], [b]);
    assert Fold([a], [b]) == Process([a], b);
  }

  /** The outcome does not depend on the order the two arrive in. */
  lemma {:induction false} DedupPairOrder(a: Entry, b: Entry)
    requires a.time < b.time
    ensures Dedup([b, a]) == Dedup([a, b])
  {
    assert [b, a][..1] == [b];
    assert [a, b][..1] == [a];
    assert Sort([b, a], false) == [a, b];
    assert Sort([a, b], false) == [a, b];
  }

  lemma {:induction false} ListedOnlyMembers(s: seq<Entry>)
    ensures forall x | x in ListedOnly(s) :: x in s && Listed(x)
    ensures forall x | x in s && Listed(x) :: x in ListedOnly(s)
    decreases |s|
  {
    if s != [] {
      ListedOnlyMembers(s[1..]);
      assert s == [s[0]] + s[1..];
    }
  }

  lemma {:induction false} ListedOnlyDistinct(s: seq<Entry>)
    requires DistinctIds(s)
    ensures DistinctIds(ListedOnly(s))
    decreases |s|
  {
    if s != [] {
      assert DistinctIds(s[1..]) by {
        forall i, j | 0 <= i < j < |s| - 1 ensures s[1..][i].id != s[1..][j].id {
          assert s[1..][i] == s[i + 1] && s[1..][j] == s[j + 1];
        }
      }
      ListedOnlyDistinct(s[1..]);
      ListedOnlyMembers(s[1..]);
      if Listed(s[0]) {
        forall y | y in ListedOnly(s[1..]) ensures y.id != s[0].id {
          var m :| 0 <= m < |s| - 1 && s[1..][m] == y;
          assert s[m + 1] == y;
        }
        ConsDistinct(s[0], ListedOnly(s[1..]));
      } else {
        assert ListedOnly(s) == ListedOnly(s[1..]);
      }
    }
  }

  /** The fetched history is newest first, holds only listed entries of the response,
    * and keeps every listed entry that is not a summary. */
  lemma {:induction false} FetchedHistoryFacts(entries: seq<Entry>)
    requires DistinctIds(entries)
    ensures Sorted(FetchedHistory(entries), true)
    ensures forall x | x in FetchedHistory(entries) :: x in entries && Listed(x)
    ensures forall x | x in entries && Listed(x) && !IsSummary(x) :: x in FetchedHistory(entries)
  {
    var listed := ListedOnly(entries);
    ListedOnlyMembers(entries);
    ListedOnlyDistinct(entries);
    DedupFacts(listed);
    var d := Dedup(listed);
    SortSortsAndPermutes(d, true);
    SortMembers(d, true);
  }

  // ------------------------------------------------------------- the method

  /** filterDuplicateSummaries as written: the forEach over the sorted entries and, for
    * a summary, the forEach over the map that deletes replaced summaries and flips
    * `isDuplicate`. */
  method FilterDuplicateSummaries(historyEntries: seq<Entry>) returns (result: seq<Entry>)
    ensures result == Dedup(historyEntries)
  {
    var sortedEntries := Sort(historyEntries, false);
    var sessionMap: seq<Entry> := [];
    var i := 0;
    while i < |sortedEntries|
      invariant 0 <= i <= |sortedEntries|
      invariant Fold(sessionMap, sortedEntries[i..]) == Dedup(historyEntries)
      decreases |sortedEntries| - i
    {
      var entry := sortedEntries[i];
      assert sortedEntries[i..][1..] == sortedEntries[i + 1..];
      if !IsSummary(entry) {
        sessionMap := MapSet(sessionMap, entry);
      } else {
        sessionMap := ScanSessionMap(sessionMap, entry);
      }
      i := i + 1;
    }
    result := sessionMap;
  }

  /** The inner forEach for a summary, followed by the conditional set. */
  method ScanSessionMap(sessionMap: seq<Entry>, entry: Entry) returns (updated: seq<Entry>)
    requires IsSummary(entry)
    ensures updated == Process(sessionMap, entry)
  {
    var isDuplicate := false;
    var kept: seq<Entry> := [];
    var j := 0;
    while j < |sessionMap|
      invariant 0 <= j <= |sessionMap|
      invariant var r := Scan(sessionMap[j..], entry, isDuplicate);
        kept + r.0 == Scan(sessionMap, entry, false).0 && r.1 == Scan(sessionMap, entry, false).1
      decreases |sessionMap| - j
    {
      var existingEntry := sessionMap[j];
      assert sessionMap[j..][1..] == sessionMap[j + 1..];
      if IsSummary(existingEntry) && Close(entry, existingEntry) {
        if Prefer(entry, existingEntry) {
          isDuplicate := false;
        } else {
          kept := kept + [existingEntry];
          isDuplicate := true;
        }
      } else {
        kept := kept + [existingEntry];
      }
      j := j + 1;
    }
    assert sessionMap[j..] == [];
    assert kept + [] == kept;
    updated := kept;
    if !isDuplicate {
      updated := MapSet(updated, entry);
    }
  }
}
