// The server-side rule for saving one chat-history entry (save_chat_history in
// backend/main.py).  Each user's stored history is a list that the endpoint appends
// to and pops from before writing it back; a summary closer than five minutes to a
// stored summary belongs to the same consultation.
module HistoryStore {
  import opened Wrappers
  import opened HistoryDedup

  /** How the endpoint answers. */
  datatype Outcome = Success | Http(status: int)

  const Forbidden := 403
  const InternalError := 500

  /** A stored summary in the window of the incoming one. */
  predicate InWindow(x: Entry, e: Entry)
  {
    IsSummary(x) && Close(e, x)
  }

  /** The ascending indices of the stored summaries within the window of `e`, as the
    * enumerate loop collects them. */
  function SummaryWindow(h: seq<Entry>, e: Entry): (r: seq<nat>)
    ensures forall k | k in r :: k < |h|
    decreases |h|
  {
    if h == [] then []
    else SummaryWindow(h[..|h| - 1], e) + (if InWindow(h[|h| - 1], e) then [|h| - 1] else [])
  }

  /** `any(... == "Doctor Summary" ...)` over the collected window. */
  function AnyDoctorSummary(h: seq<Entry>, w: seq<nat>): bool
    requires forall k | k in w :: k < |h|
  {
    exists k | k in w :: h[k].title == DoctorSummary
  }

  /** `list.pop(idx)` for each collected index in turn; the indices are not adjusted
    * after a pop, and a pop past the end raises (None). */
  function PopAll(h: seq<Entry>, w: seq<nat>): Option<seq<Entry>>
    decreases |w|
  {
    if w == [] then Some(h)
    else match PopAll(h, w[..|w| - 1])
      case None => None
      case Some(l) => if w[|w| - 1] < |l| then Some(RemoveAt(l, w[|w| - 1])) else None
  }

  /** The history written back for a user whose stored history is `h`, or None when a
    * pop fails and nothing is written. */
  function Saved(h: seq<Entry>, e: Entry): Option<seq<Entry>>
  {
    if !IsSummary(e) then Some(h + [e])
    else
      var w := SummaryWindow(h, e);
      if w == [] then Some(h + [e])
      else if e.title == DoctorSummary then
        match PopAll(h, w)
        case None => None
        case Some(l) => Some(l + [e])
      else if AnyDoctorSummary(h, w) then Some(h)
      else Some(h + [e])
  }

  class ChatHistoryStore {
    /** user id -> stored chat history (a user document without one reads as empty). */
    var histories: map<string, seq<Entry>>

    constructor (initial: map<string, seq<Entry>>)
      ensures histories == initial
    {
      histories := initial;
    }

    /** Saves `entry` for `userId` on behalf of the authenticated `currentUser`. */
    method SaveChatHistory(currentUser: string, userId: string, entry: Entry) returns (outcome: Outcome)
      modifies this
      ensures currentUser != userId ==> outcome == Http(Forbidden) && histories == old(histories)
      ensures currentUser == userId && userId !in old(histories) ==>
        outcome == Http(InternalError) && histories == old(histories)
      ensures currentUser == userId && userId in old(histories) ==>
        match Saved(old(histories)[userId], entry)
        case None => outcome == Http(InternalError) && histories == old(histories)
        case Some(h) => outcome == Success && histories == old(histories)[userId := h]
    {
      if currentUser != userId {
        return Http(Forbidden);
      }
      if userId !in histories {
        // the 404 raised inside the try block is turned into a 500
        return Http(InternalError);
      }
      var history := histories[userId];
      if !IsSummary(entry) {
        histories := histories[userId := history + [entry]];
        return Success;
      }
      var window := CollectWindow(history, entry);
      if window == [] {
        histories := histories[userId := history + [entry]];
        return Success;
      }
      if entry.title == DoctorSummary {
        var popped := PopWindow(history, window);
        if popped.None? {
          return Http(InternalError);
        }
        histories := histories[userId := popped.value + [entry]];
      } else if !AnyDoctorSummary(history, window) {
        histories := histories[userId := history + [entry]];
      } else {
        histories := histories[userId := history];
      }
      return Success;
    }
  }

  method CollectWindow(history: seq<Entry>, entry: Entry) returns (window: seq<nat>)
    ensures window == SummaryWindow(history, entry)
  {
    window := [];
    var i := 0;
    while i < |history|
      invariant 0 <= i <= |history|
      invariant window == SummaryWindow(history[..i], entry)
    {
      assert history[..i + 1][..i] == history[..i];
      if InWindow(history[i], entry) {
        window := window + [i];
      }
      i := i + 1;
    }
    assert history[..i] == history;
  }

  method PopWindow(history: seq<Entry>, window: seq<nat>) returns (popped: Option<seq<Entry>>)
    ensures popped == PopAll(history, window)
  {
    var list := history;
    var j := 0;
    while j < |window|
      invariant 0 <= j <= |window|
      invariant PopAll(history, window[..j]) == Some(list)
    {
      assert window[..j + 1][..j] == window[..j];
      if window[j] >= |list| {
        PopAllFailed(history, window, j + 1);
        return None;
      }
      list := list[..window[j]] + list[window[j] + 1..];
      j := j + 1;
    }
    assert window[..j] == window;
    return Some(list);
  }

  /** Once a pop fails, the whole sequence of pops fails. */
  lemma {:induction false} PopAllFailed(h: seq<Entry>, w: seq<nat>, n: nat)
    requires 0 < n <= |w| && PopAll(h, w[..n]) == None
    ensures PopAll(h, w) == None
    decreases |w| - n
  {
    if n < |w| {
      assert w[..n + 1][..n] == w[..n];
      PopAllFailed(h, w, n + 1);
    } else {
      assert w[..n] == w;
    }
  }

  // ------------------------------------------------------------- properties

  /** The window holds exactly the stored summaries within five minutes of `e`, in
    * ascending order. */
  lemma {:induction false} WindowMembers(h: seq<Entry>, e: Entry)
    ensures forall k :: k in SummaryWindow(h, e) <==> 0 <= k < |h| && InWindow(h[k], e)
    ensures forall a, b | 0 <= a < b < |SummaryWindow(h, e)| :: SummaryWindow(h, e)[a] < SummaryWindow(h, e)[b]
    decreases |h|
  {
    if h != [] {
      var init := h[..|h| - 1];
      var wi := SummaryWindow(init, e);
      var w := SummaryWindow(h, e);
      WindowMembers(init, e);
      forall k | 0 <= k < |init| ensures h[k] == init[k] {
      }
      forall a, b | 0 <= a < b < |w| ensures w[a] < w[b] {
        assert w[a] == wi[a];
        if b < |wi| {
          assert w[b] == wi[b];
        } else {
          assert wi[a] in wi;
        }
      }
    }
  }

  /** A regular entry, or a summary with no stored summary in its window, is appended. */
  lemma {:induction false} SaveAppendsOutsideWindow(h: seq<Entry>, e: Entry)
    requires !IsSummary(e) || forall k | 0 <= k < |h| :: !InWindow(h[k], e)
    ensures Saved(h, e) == Some(h + [e])
  {
    if IsSummary(e) {
      WindowMembers(h, e);
      if SummaryWindow(h, e) != [] {
        assert SummaryWindow(h, e)[0] in SummaryWindow(h, e);
      }
    }
  }

  /** A summary that is not a "Doctor Summary" is dropped when its window holds one,
    * and appended otherwise. */
  lemma {:induction false} SaveOtherSummary(h: seq<Entry>, e: Entry)
    requires IsSummary(e) && e.title != DoctorSummary
    ensures (exists k | 0 <= k < |h| :: InWindow(h[k], e) && h[k].title == DoctorSummary) ==>
      Saved(h, e) == Some(h)
    ensures (forall k | 0 <= k < |h| && InWindow(h[k], e) :: h[k].title != DoctorSummary) ==>
      Saved(h, e) == Some(h + [e])
  {
    WindowMembers(h, e);
    if exists k | 0 <= k < |h| :: InWindow(h[k], e) && h[k].title == DoctorSummary {
      var k :| 0 <= k < |h| && InWindow(h[k], e) && h[k].title == DoctorSummary;
      assert k in SummaryWindow(h, e);
    }
  }

  /** A "Doctor Summary" whose window holds a single stored summary replaces exactly
    * that one. */
  lemma {:induction false} SaveDoctorReplacesSingle(h: seq<Entry>, e: Entry, k: nat)
    requires IsSummary(e) && e.title == DoctorSummary
    requires k < |h| && InWindow(h[k], e)
    requires forall i | 0 <= i < |h| && i != k :: !InWindow(h[i], e)
    ensures Saved(h, e) == Some(RemoveAt(h, k) + [e])
  {
    WindowSingle(h, e, k);
    assert [k][..0] == [];
    assert PopAll(h, [k]) == Some(RemoveAt(h, k));
  }

  lemma {:induction false} WindowNone(h: seq<Entry>, e: Entry)
    requires forall i | 0 <= i < |h| :: !InWindow(h[i], e)
    ensures SummaryWindow(h, e) == []
    decreases |h|
  {
    if h != [] {
      var init := h[..|h| - 1];
      forall i | 0 <= i < |init| ensures !InWindow(init[i], e) {
        assert init[i] == h[i];
      }
      WindowNone(init, e);
    }
  }

  lemma {:induction false} WindowSingle(h: seq<Entry>, e: Entry, k: nat)
    requires k < |h| && InWindow(h[k], e)
    requires forall i | 0 <= i < |h| && i != k :: !InWindow(h[i], e)
    ensures SummaryWindow(h, e) == [k]
    decreases |h|
  {
    var init := h[..|h| - 1];
    if k == |h| - 1 {
      forall i | 0 <= i < |init| ensures !InWindow(init[i], e) {
        assert init[i] == h[i];
      }
      WindowNone(init, e);
    } else {
      forall i | 0 <= i < |init| && i != k ensures !InWindow(init[i], e) {
        assert init[i] == h[i];
      }
      assert init[k] == h[k];
      WindowSingle(init, e, k);
    }
  }

  /** With two stored summaries in the window the second pop uses a stale index: it
    * removes the entry after the second match (which may be any entry), and fails
    * when the second match is the last entry, so nothing is saved. */
  lemma {:induction false} SaveDoctorStalePop(h: seq<Entry>, e: Entry, i: nat, j: nat)
    requires IsSummary(e) && e.title == DoctorSummary
    requires i < j < |h| && InWindow(h[i], e) && InWindow(h[j], e)
    requires forall k | 0 <= k < |h| && k != i && k != j :: !InWindow(h[k], e)
    ensures Saved(h, e) == if j + 1 < |h| then Some(h[..i] + h[i + 1..j + 1] + h[j + 2..] + [e]) else None
  {
    WindowPair(h, e, i, j);
    var w := [i, j];
    assert w[..1] == [i] && w[..1][..0] == [];
    var l := RemoveAt(h, i);
    assert PopAll(h, w[..1]) == Some(l);
    if j + 1 < |h| {
      assert RemoveAt(l, j) == h[..i] + h[i + 1..j + 1] + h[j + 2..];
    }
  }

  lemma {:induction false} WindowPair(h: seq<Entry>, e: Entry, i: nat, j: nat)
    requires i < j < |h| && InWindow(h[i], e) && InWindow(h[j], e)
    requires forall k | 0 <= k < |h| && k != i && k != j :: !InWindow(h[k], e)
    ensures SummaryWindow(h, e) == [i, j]
    decreases |h|
  {
    var init := h[..|h| - 1];
    assert init[i] == h[i];
    if j == |h| - 1 {
      forall k | 0 <= k < |init| && k != i ensures !InWindow(init[k], e) {
        assert init[k] == h[k];
      }
      WindowSingle(init, e, i);
    } else {
      forall k | 0 <= k < |init| && k != i && k != j ensures !InWindow(init[k], e) {
        assert init[k] == h[k];
      }
      assert init[j] == h[j];
      WindowPair(init, e, i, j);
    }
  }
}
