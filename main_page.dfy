/**
 * The map page (components/custom/mainpage/mainpage.tsx): the route search
 * with its recent-search history (most recent first, no repeats, at most
 * five, persisted under "flightHistory") and the mobile bottom sheet whose
 * height follows a drag and snaps to 30, 75 or 100 percent on release.
 *
 * The page's React state and refs are the fields of `MainPageState`;
 * `localStorage["flightHistory"]` is the field `saved`, holding the parsed
 * list (None when the key is absent).
 */
module MainPage {
  import opened JsValues
  import Text
  import AdsbDb

  const HistoryLimit := 5

  /** `a` is `b` with some elements left out, order kept. */
  predicate IsSubsequence(a: seq<string>, b: seq<string>)
    decreases |b|
  {
    if a == [] then true
    else if b == [] then false
    else if a[0] == b[0] then IsSubsequence(a[1..], b[1..])
    else IsSubsequence(a, b[1..])
  }

  /** No entry occurs twice. */
  predicate NoRepeats(s: seq<string>)
  {
    forall i, j :: 0 <= i < j < |s| ==> s[i] != s[j]
  }

  /**
   * `history.filter((c) => c !== x)`: every entry but `x`, in the same order,
   * each as often as in `history`.
   */
  function Without(history: seq<string>, x: string): (r: seq<string>)
    ensures forall y :: y in r <==> y in history && y != x
    ensures multiset(r) == multiset(history)[x := 0]
    ensures |r| <= |history|
    ensures IsSubsequence(r, history)
    ensures NoRepeats(history) ==> NoRepeats(r)
    decreases |history|
  {
    if history == [] then []
    else
      var rest := Without(history[1..], x);
      NoRepeatsTail(history);
      Uncons(history);
      if history[0] == x then
        SkipFirstKeepsSubsequence(rest, history);
        rest
      else
        ConsKeepsNoRepeats(history[0], rest, history[1..]);
        assert ([history[0]] + rest)[1..] == rest;
        [history[0]] + rest
  }

  /** A non-empty sequence is its head followed by its tail, as a multiset too. */
  lemma Uncons(s: seq<string>)
    requires s != []
    ensures s == [s[0]] + s[1..]
    ensures multiset(s) == multiset{s[0]} + multiset(s[1..])
  {
    assert s == [s[0]] + s[1..];
  }

  /** Putting a value before a subsequence of `t` that lacks it keeps it without repeats. */
  lemma ConsKeepsNoRepeats(h: string, rest: seq<string>, t: seq<string>)
    requires forall y :: y in rest ==> y in t
    requires NoRepeats([h] + t) ==> NoRepeats(rest)
    ensures NoRepeats([h] + t) ==> NoRepeats([h] + rest)
  {
    if NoRepeats([h] + t) {
      assert forall k :: 0 <= k < |t| ==> t[k] == ([h] + t)[k + 1] != ([h] + t)[0];
      HeadBeforeDistinct(h, rest);
    }
  }

  /** A value followed by distinct entries that differ from it has no repeats. */
  lemma HeadBeforeDistinct(h: string, rest: seq<string>)
    requires h !in rest && NoRepeats(rest)
    ensures NoRepeats([h] + rest)
  {
    forall i, j | 0 <= i < j < |[h] + rest| ensures ([h] + rest)[i] != ([h] + rest)[j] {
      assert ([h] + rest)[j] == rest[j - 1];
      if i > 0 {
        assert ([h] + rest)[i] == rest[i - 1];
      }
    }
  }

  /** A tail of a sequence without repeats has none either. */
  lemma NoRepeatsTail(s: seq<string>)
    requires s != []
    ensures NoRepeats(s) ==> NoRepeats(s[1..])
  {
    if NoRepeats(s) {
      forall i, j | 0 <= i < j < |s[1..]| ensures s[1..][i] != s[1..][j] {
        assert s[1..][i] == s[i + 1] && s[1..][j] == s[j + 1];
      }
    }
  }

  /** Leaving out the first element of the longer sequence keeps a subsequence relation. */
  lemma {:induction false} SkipFirstKeepsSubsequence(a: seq<string>, b: seq<string>)
    requires b != [] && IsSubsequence(a, b[1..])
    ensures IsSubsequence(a, b)
    decreases |b|, 0
  {
    if a != [] && a[0] == b[0] {
      // IsSubsequence(a, b) reduces to IsSubsequence(a[1..], b[1..]), which follows
      // from a being a subsequence of b[1..] with one element fewer at the front.
      SubsequenceDropFirst(a, b[1..]);
    }
  }

  /** Dropping the first element of a subsequence keeps it a subsequence. */
  lemma {:induction false} SubsequenceDropFirst(a: seq<string>, b: seq<string>)
    requires a != [] && IsSubsequence(a, b)
    ensures IsSubsequence(a[1..], b)
    decreases |b|, 1
  {
    if a[0] == b[0] {
      if a[1..] != [] {
        SkipFirstKeepsSubsequence(a[1..], b);
      }
    } else {
      SubsequenceDropFirst(a, b[1..]);
      if a[1..] != [] {
        SkipFirstKeepsSubsequence(a[1..], b);
      }
    }
  }

  /** A prefix of a subsequence is a subsequence. */
  lemma {:induction false} PrefixKeepsSubsequence(a: seq<string>, b: seq<string>, k: nat)
    requires k <= |a| && IsSubsequence(a, b)
    ensures IsSubsequence(a[..k], b)
    decreases |b|
  {
    if k > 0 {
      if a[0] == b[0] {
        assert a[..k][1..] == a[1..][..k - 1];
        PrefixKeepsSubsequence(a[1..], b[1..], k - 1);
      } else {
        PrefixKeepsSubsequence(a, b[1..], k);
      }
    }
  }

  /**
   * The history after a successful search for `upper`:
   * `[upper, ...history.filter((c) => c !== upper)].slice(0, 5)`.
   * The head is `upper` and it occurs nowhere else; there are one to five
   * entries; the others are the history without `upper`, in its order, cut
   * to the first four (all of it when fewer than five entries result); and a
   * history without repeats stays without repeats.
   */
  function UpdatedHistory(history: seq<string>, upper: string): (r: seq<string>)
    ensures 1 <= |r| <= HistoryLimit
    ensures r[0] == upper
    ensures forall i :: 1 <= i < |r| ==> r[i] != upper
    ensures IsSubsequence(r[1..], history)
    ensures r[1..] <= Without(history, upper)
    ensures |r| < HistoryLimit ==> r[1..] == Without(history, upper)
    ensures NoRepeats(history) ==> NoRepeats(r)
  {
    var rest := Without(history, upper);
    var n := if |rest| < HistoryLimit then |rest| + 1 else HistoryLimit;
    HeadThenPrefix(upper, rest, history, n);
    ([upper] + rest)[..n]
  }

  /** `upper` followed by the first `n - 1` entries of `rest`, a subsequence of `history` without `upper`. */
  lemma HeadThenPrefix(upper: string, rest: seq<string>, history: seq<string>, n: nat)
    requires upper !in rest && IsSubsequence(rest, history)
    requires NoRepeats(history) ==> NoRepeats(rest)
    requires 1 <= n <= |rest| + 1
    ensures ([upper] + rest)[..n][1..] == rest[..n - 1]
    ensures IsSubsequence(rest[..n - 1], history)
    ensures NoRepeats(history) ==> NoRepeats(([upper] + rest)[..n])
  {
    var r := ([upper] + rest)[..n];
    assert r[1..] == rest[..n - 1];
    PrefixKeepsSubsequence(rest, history, n - 1);
    if NoRepeats(history) {
      assert r == [upper] + rest[..n - 1];
      assert upper !in rest[..n - 1];
      HeadBeforeDistinct(upper, rest[..n - 1]);
    }
  }

  /** Applying the same search twice in a row changes nothing the second time. */
  lemma UpdatedHistoryIdempotent(history: seq<string>, upper: string)
    ensures UpdatedHistory(UpdatedHistory(history, upper), upper) == UpdatedHistory(history, upper)
  {
    var once := UpdatedHistory(history, upper);
    var rest := Without(once, upper);
    assert once == [upper] + once[1..];
    WithoutAbsent(once[1..], upper);
    assert rest == once[1..] by {
      assert once[0] == upper;
      assert Without(once, upper) == Without(once[1..], upper);
    }
  }

  /** Filtering out a value that does not occur changes nothing. */
  lemma {:induction false} WithoutAbsent(s: seq<string>, x: string)
    requires x !in s
    ensures Without(s, x) == s
    decreases |s|
  {
    if s != [] {
      WithoutAbsent(s[1..], x);
      assert s == [s[0]] + s[1..];
    }
  }

  const MinHeight := 30.0
  const MidHeight := 75.0
  const MaxHeight := 100.0

  /**
   * The sheet height during a drag: the finger's upward travel since the
   * last event, divided by 5, is added to the height, and the result is
   * clamped to [30, 100].
   */
  function DraggedHeight(height: real, startY: real, y: real): (h: real)
    ensures MinHeight <= h <= MaxHeight
    ensures MinHeight <= height + (startY - y) / 5.0 <= MaxHeight ==> h == height + (startY - y) / 5.0
    ensures height + (startY - y) / 5.0 < MinHeight ==> h == MinHeight
    ensures height + (startY - y) / 5.0 > MaxHeight ==> h == MaxHeight
  {
    var raw := height + (startY - y) / 5.0;
    var atLeast := if raw > MinHeight then raw else MinHeight;
    if atLeast < MaxHeight then atLeast else MaxHeight
  }

  /** Moving the finger further up never makes the sheet lower. */
  lemma DraggedHeightMonotone(height: real, startY: real, y1: real, y2: real)
    requires y1 <= y2
    ensures DraggedHeight(height, startY, y1) >= DraggedHeight(height, startY, y2)
  {
  }

  /** The height after release: above 85 snaps to 100, above 50 to 75, else 30. */
  function SnappedHeight(height: real): (h: real)
    ensures h == MinHeight || h == MidHeight || h == MaxHeight
    ensures h == MaxHeight <==> height > 85.0
    ensures h == MidHeight <==> 50.0 < height <= 85.0
    ensures h == MinHeight <==> height <= 50.0
  {
    if height > 85.0 then MaxHeight
    else if height > 50.0 then MidHeight
    else MinHeight
  }

  /** Releasing twice is releasing once, and a higher sheet never snaps lower. */
  lemma SnapIdempotentAndMonotone(h1: real, h2: real)
    ensures SnappedHeight(SnappedHeight(h1)) == SnappedHeight(h1)
    ensures h1 <= h2 ==> SnappedHeight(h1) <= SnappedHeight(h2)
  {
  }

  /** The answer to the adsbdb lookup: a throw from `fetch`/`res.json()`, or the parsed body's `response.flightroute`. */
  datatype LookupOutcome = Threw | Answered(flightroute: Option<AdsbDb.FlightRoute>)

  class MainPageState {
    var callsign: string
    var route: Option<AdsbDb.FlightRoute>
    var loading: bool
    var history: seq<string>
    /** `localStorage["flightHistory"]`, parsed; None when the key is absent. */
    var saved: Option<seq<string>>
    var sheetHeight: real
    /** The ref `startY.current`: the finger's last y position during a drag. */
    var startY: Option<real>
    /** Every lookup URL requested, oldest first. */
    var queries: seq<string>

    ghost predicate Valid()
      reads this
    {
      MinHeight <= sheetHeight <= MaxHeight
    }

    /** The first render, with whatever `localStorage` already holds. */
    constructor (saved: Option<seq<string>>)
      ensures Valid()
      ensures this.saved == saved
      ensures callsign == "" && route == None && !loading && history == []
      ensures sheetHeight == MidHeight && startY == None && queries == []
    {
      this.saved := saved;
      callsign, route, loading, history := "", None, false, [];
      sheetHeight, startY, queries := MidHeight, None, [];
    }

    /** The mount effect: a stored history replaces the empty one. */
    method LoadSavedHistory()
      requires Valid()
      modifies this`history
      ensures Valid()
      ensures history == if saved.Some? then saved.value else old(history)
    {
      if saved.Some? {
        history := saved.value;
      }
    }

    /** The search input's `onChange`. */
    method SetCallsign(text: string)
      requires Valid()
      modifies this`callsign
      ensures Valid() && callsign == text
    {
      callsign := text;
    }

    method TouchStart(y: real)
      requires Valid()
      modifies this`startY
      ensures Valid() && startY == Some(y)
    {
      startY := Some(y);
    }

    /** `handleTouchMove`: without a recorded start point nothing changes. */
    method TouchMove(y: real)
      requires Valid()
      modifies this`sheetHeight, this`startY
      ensures Valid()
      ensures old(startY).None? ==> sheetHeight == old(sheetHeight) && startY == None
      ensures old(startY).Some? ==>
        sheetHeight == DraggedHeight(old(sheetHeight), old(startY).value, y) && startY == Some(y)
    {
      if startY.None? {
        return;
      }
      var diff := startY.value - y;
      var newHeight := if sheetHeight + diff / 5.0 > MinHeight then sheetHeight + diff / 5.0 else MinHeight;
      newHeight := if newHeight < MaxHeight then newHeight else MaxHeight;
      sheetHeight := newHeight;
      startY := Some(y);
    }

    /** `handleTouchEnd`: the height snaps and the start point is cleared. */
    method TouchEnd()
      requires Valid()
      modifies this`sheetHeight, this`startY
      ensures Valid()
      ensures sheetHeight == SnappedHeight(old(sheetHeight)) && startY == None
    {
      if sheetHeight > 85.0 {
        sheetHeight := MaxHeight;
      } else if sheetHeight > 50.0 {
        sheetHeight := MidHeight;
      } else {
        sheetHeight := MinHeight;
      }
      startY := None;
    }

    /**
     * `fetchFlight`. A callsign that trims to empty changes nothing.
     * Otherwise the route is cleared and the raw callsign, upper-cased (not
     * trimmed), is looked up; only an answer carrying `response.flightroute`
     * sets the route and moves the callsign to the front of the history and
     * of its persisted copy. There is no try/catch: when `fetch` or
     * `res.json()` throws, `loading` stays true.
     */
    method FetchFlight(outcome: LookupOutcome)
      requires Valid()
      modifies this`route, this`loading, this`history, this`saved, this`queries
      ensures Valid()
      ensures callsign == old(callsign) && sheetHeight == old(sheetHeight) && startY == old(startY)
      ensures Text.IsBlank(old(callsign)) ==>
        && route == old(route) && loading == old(loading) && history == old(history)
        && saved == old(saved) && queries == old(queries)
      ensures !Text.IsBlank(old(callsign)) ==>
        queries == old(queries) + [AdsbDb.LookupUrl(Text.Upper(old(callsign)))]
      ensures !Text.IsBlank(old(callsign)) && outcome.Threw? ==>
        route == None && loading && history == old(history) && saved == old(saved)
      ensures !Text.IsBlank(old(callsign)) && outcome.Answered? && outcome.flightroute.None? ==>
        route == None && !loading && history == old(history) && saved == old(saved)
      ensures !Text.IsBlank(old(callsign)) && outcome.Answered? && outcome.flightroute.Some? ==>
        && route == outcome.flightroute && !loading
        && history == UpdatedHistory(old(history), Text.Upper(old(callsign)))
        && saved == Some(history)
    {
      var started := StartLookup();
      if started {
        CompleteLookup(Text.Upper(callsign), outcome);
      }
    }

    /**
     * The synchronous prefix of `fetchFlight`: it starts exactly for a
     * callsign that does not trim to empty, and then sets loading, clears the
     * route and requests the upper-cased callsign.
     */
    method StartLookup() returns (started: bool)
      modifies this`route, this`loading, this`queries
      ensures started <==> !Text.IsBlank(callsign)
      ensures !started ==> route == old(route) && loading == old(loading) && queries == old(queries)
      ensures started ==> loading && route == None && queries == old(queries) + [AdsbDb.LookupUrl(Text.Upper(callsign))]
    {
      if Text.Trim(callsign) == "" {
        return false;
      }
      loading := true;
      route := None;
      queries := queries + [AdsbDb.LookupUrl(Text.Upper(callsign))];
      return true;
    }

    /**
     * The part of `fetchFlight` after the lookup was sent, for the
     * upper-cased callsign `upper`.
     */
    method CompleteLookup(upper: string, outcome: LookupOutcome)
      modifies this`route, this`loading, this`history, this`saved
      ensures outcome.Threw? ==>
        route == old(route) && loading == old(loading) && history == old(history) && saved == old(saved)
      ensures outcome.Answered? && outcome.flightroute.None? ==>
        route == old(route) && !loading && history == old(history) && saved == old(saved)
      ensures outcome.Answered? && outcome.flightroute.Some? ==>
        && route == outcome.flightroute && !loading
        && history == UpdatedHistory(old(history), upper) && saved == Some(history)
    {
      match outcome
      case Threw =>
        return;
      case Answered(flightroute) =>
        if flightroute.Some? {
          route := flightroute;
          var updated := UpdatedHistory(history, upper);
          history := updated;
          saved := Some(updated);
        }
        loading := false;
    }

    /** `clearHistory`: the history and its persisted copy are gone. */
    method ClearHistory()
      requires Valid()
      modifies this`history, this`saved
      ensures Valid()
      ensures history == [] && saved == None
    {
      history := [];
      saved := None;
    }
  }
}
