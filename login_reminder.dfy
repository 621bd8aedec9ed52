/**
 * The login reminder (components/custom/mainpage/loginalert.tsx): each
 * mount of the component while signed out counts one visit in
 * `localStorage["site-visit-count"]` and shows a toast on every fifth.
 *
 * The stored item is kept as what `Number(item || 0)` makes of it: absent
 * (a missing or empty item, read as 0), an integer, or NaN (any other text).
 * The count is written back with `toString()`, which `Number` reads back
 * as the same value, so the model stores the number itself.
 */
module LoginReminder {
  import opened JsValues

  const ShowEvery := 5

  datatype Stored = Absent | Numeric(n: int) | NotANumber

  /** `Number(localStorage.getItem(VISIT_KEY) || 0)`; None stands for NaN. */
  function CurrentCount(s: Stored): (c: Option<int>)
    ensures c.None? <==> s.NotANumber?
    ensures s.Absent? ==> c == Some(0)
    ensures s.Numeric? ==> c == Some(s.n)
  {
    match s
    case Absent => Some(0)
    case Numeric(n) => Some(n)
    case NotANumber => None
  }

  /**
   * JavaScript's `%` on integers: the remainder of division truncated toward
   * zero. It is smaller than `b` in size and takes the sign of the dividend;
   * by 5 it is zero exactly when the Euclidean remainder is.
   */
  function JsRemainder(a: int, b: int): (r: int)
    requires b > 0
    ensures -b < r < b
    ensures a >= 0 ==> r >= 0
    ensures a <= 0 ==> r <= 0
    ensures b == ShowEvery ==> (r == 0 <==> a % b == 0)
  {
    if a >= 0 then a % b
    else
      NegatedMultipleOfFive(a);
      -((-a) % b)
  }

  /** A negative number is a multiple of 5 exactly when its negation is. */
  lemma NegatedMultipleOfFive(a: int)
    requires a < 0
    ensures (-a) % 5 == 0 <==> a % 5 == 0
  {
    var n := -a;
    var q, r := n / 5, n % 5;
    assert n == 5 * q + r && 0 <= r < 5;
    if r == 0 {
      assert a == 5 * (-q) + 0;
      assert a % 5 == 0;
    } else {
      assert a == 5 * (-q - 1) + (5 - r);
      assert a % 5 == 5 - r;
    }
  }

  /** Counting up by one walks the remainders by 5 round in a cycle. */
  lemma NextRemainder(x: int)
    ensures (x + 1) % 5 == if x % 5 == 4 then 0 else x % 5 + 1
  {
    var q, r := x / 5, x % 5;
    assert x == 5 * q + r;
    if r == 4 {
      assert x + 1 == 5 * (q + 1);
    } else {
      assert x + 1 == 5 * q + (r + 1);
    }
  }

  /** The stored item after one signed-out visit: the old count plus one (NaN stays NaN). */
  function NextStored(s: Stored): (t: Stored)
    ensures CurrentCount(s).Some? ==> t == Numeric(CurrentCount(s).value + 1)
    ensures CurrentCount(s).None? ==> t == NotANumber
  {
    match CurrentCount(s)
    case Some(n) => Numeric(n + 1)
    case None => NotANumber
  }

  /** Whether a signed-out visit shows the toast: `newCount % SHOW_EVERY === 0`. */
  predicate ShowsToast(s: Stored)
    ensures ShowsToast(s) ==> !s.NotANumber?
  {
    NextStored(s).Numeric? && JsRemainder(NextStored(s).n, ShowEvery) == 0
  }

  /** The toast is shown exactly when the new count is a multiple of 5 (negative counts included). */
  lemma ShowsToastIffMultiple(s: Stored)
    ensures ShowsToast(s) <==> CurrentCount(s).Some? && (CurrentCount(s).value + 1) % ShowEvery == 0
  {
  }

  /** The stored item after `k` signed-out visits. */
  function After(s: Stored, k: nat): Stored
    decreases k
  {
    if k == 0 then s else After(NextStored(s), k - 1)
  }

  /** The number of toasts shown over `k` consecutive signed-out visits. */
  function ToastsOver(s: Stored, k: nat): nat
    decreases k
  {
    if k == 0 then 0 else (if ShowsToast(s) then 1 else 0) + ToastsOver(NextStored(s), k - 1)
  }

  /** `k` visits add `k` to a numeric count. */
  lemma {:induction false} AfterAddsVisits(s: Stored, k: nat)
    requires CurrentCount(s).Some?
    ensures After(s, k) == if k == 0 then s else Numeric(CurrentCount(s).value + k)
    decreases k
  {
    if k > 0 {
      AfterAddsVisits(NextStored(s), k - 1);
    }
  }

  /** Visits can be counted in two stretches. */
  lemma {:induction false} ToastsOverSplit(s: Stored, a: nat, b: nat)
    ensures ToastsOver(s, a + b) == ToastsOver(s, a) + ToastsOver(After(s, a), b)
    decreases a
  {
    if a > 0 {
      ToastsOverSplit(NextStored(s), a - 1, b);
    }
  }

  /** Over any five consecutive signed-out visits exactly one toast is shown. */
  lemma {:induction false} OneToastPerFiveVisits(s: Stored)
    requires CurrentCount(s).Some?
    ensures ToastsOver(s, 5) == 1
  {
    var n := CurrentCount(s).value;
    var s1 := NextStored(s);
    var s2 := NextStored(s1);
    var s3 := NextStored(s2);
    var s4 := NextStored(s3);
    ShowsToastIffMultiple(s);
    ShowsToastIffMultiple(s1);
    ShowsToastIffMultiple(s2);
    ShowsToastIffMultiple(s3);
    ShowsToastIffMultiple(s4);
    assert ToastsOver(s, 5) ==
      (if ShowsToast(s) then 1 else 0) + (if ShowsToast(s1) then 1 else 0) + (if ShowsToast(s2) then 1 else 0)
      + (if ShowsToast(s3) then 1 else 0) + (if ShowsToast(s4) then 1 else 0) + ToastsOver(NextStored(s4), 0);
    NextRemainder(n + 1);
    NextRemainder(n + 2);
    NextRemainder(n + 3);
    NextRemainder(n + 4);
  }

  /** Over `5 * m` consecutive signed-out visits exactly `m` toasts are shown. */
  lemma {:induction false} ToastsOverMultipleOfFive(s: Stored, m: nat)
    requires CurrentCount(s).Some?
    ensures ToastsOver(s, 5 * m) == m
    decreases m
  {
    if m > 0 {
      ToastsOverSplit(s, 5, 5 * (m - 1));
      OneToastPerFiveVisits(s);
      AfterAddsVisits(s, 5);
      ToastsOverMultipleOfFive(After(s, 5), m - 1);
    }
  }

  /** Once the stored item reads as NaN, no toast is ever shown again. */
  lemma {:induction false} NaNNeverToasts(k: nat)
    ensures ToastsOver(NotANumber, k) == 0
    decreases k
  {
    if k > 0 {
      NaNNeverToasts(k - 1);
    }
  }

  class VisitCounter {
    /** `localStorage["site-visit-count"]`. */
    var stored: Stored
    /** The number of toasts shown so far. */
    var toasts: nat

    constructor (stored: Stored)
      ensures this.stored == stored && toasts == 0
    {
      this.stored := stored;
      toasts := 0;
    }

    /**
     * The component's effect. Signed in: nothing is read, written or shown.
     * Signed out: the stored count becomes the old count plus one, and the
     * toast is shown iff the new count is a multiple of 5.
     */
    method Mount(isAuthenticated: bool) returns (shown: bool)
      modifies this
      ensures isAuthenticated ==> !shown && stored == old(stored) && toasts == old(toasts)
      ensures !isAuthenticated ==> stored == NextStored(old(stored)) && shown == ShowsToast(old(stored))
      ensures toasts == old(toasts) + (if shown then 1 else 0)
    {
      shown := false;
      if isAuthenticated {
        return;
      }
      var currentCount := CurrentCount(stored);
      var newCount := if currentCount.Some? then Some(currentCount.value + 1) else None;
      stored := if newCount.Some? then Numeric(newCount.value) else NotANumber;
      if newCount.Some? && JsRemainder(newCount.value, ShowEvery) == 0 {
        shown := true;
        toasts := toasts + 1;
      }
    }
  }
}
