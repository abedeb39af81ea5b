/** The instant a wall-clock time names in a zone, found by measuring the zone's offset twice. All times in milliseconds. */
module ZonedTime {

  /** A zone's offset from UTC at an instant. */
  type Zone = int -> int

  /** `zonedToUtcIso`: `naive` is the wall clock read as though it were UTC. */
  function ToUtc(naive: int, offset: Zone): int {
    var firstPass := naive - offset(naive);
    naive - offset(firstPass)
  }

  /** The zone's clock shows `naive` at the instant `u`. */
  predicate Shows(u: int, naive: int, offset: Zone) { u + offset(u) == naive }

  /** Some instant has that wall time. */
  ghost predicate Exists(naive: int, offset: Zone) { exists u :: Shows(u, naive, offset) }

  /** No offset is larger than `bound`, and within that of the wall time it changes once at most: from `a` to `b` at `change`. */
  ghost predicate ChangesOnce(naive: int, offset: Zone, bound: int, a: int, b: int, change: int) {
    && -bound <= a <= bound && -bound <= b <= bound
    && (forall u :: -bound <= offset(u) <= bound)
    && (forall u :: naive - bound <= u <= naive + bound ==> offset(u) == if u < change then a else b)
  }

  /** The instants with that wall time are at most two: one on each side of the change. */
  lemma ShowsExactly(u: int, naive: int, offset: Zone, bound: int, a: int, b: int, change: int)
    requires ChangesOnce(naive, offset, bound, a, b, change)
    ensures Shows(u, naive, offset) <==> (u == naive - a && u < change) || (u == naive - b && u >= change)
  {
    assert -bound <= offset(u) <= bound;
  }

  /** What the two passes come to. */
  lemma TwoPasses(naive: int, offset: Zone, bound: int, a: int, b: int, change: int)
    requires ChangesOnce(naive, offset, bound, a, b, change)
    ensures var first := naive - if naive < change then a else b;
            ToUtc(naive, offset) == naive - if first < change then a else b
  {
    assert -bound <= offset(naive) <= bound;
  }

  /** The result shows the wall time exactly when some instant does. */
  lemma FoundIfItExists(naive: int, offset: Zone, bound: int, a: int, b: int, change: int)
    requires ChangesOnce(naive, offset, bound, a, b, change)
    ensures Shows(ToUtc(naive, offset), naive, offset) <==> Exists(naive, offset)
  {
    var u := ToUtc(naive, offset);
    TwoPasses(naive, offset, bound, a, b, change);
    ShowsExactly(u, naive, offset, bound, a, b, change);
    if Exists(naive, offset) {
      var v :| Shows(v, naive, offset);
      ShowsExactly(v, naive, offset, bound, a, b, change);
    }
  }

  /** In an overlap, when two instants show the wall time, the result is the earlier one exactly if the naive time is before the change. */
  lemma OverlapPicksOne(naive: int, offset: Zone, bound: int, a: int, b: int, change: int, earlier: int, later: int)
    requires ChangesOnce(naive, offset, bound, a, b, change)
    requires earlier < later && Shows(earlier, naive, offset) && Shows(later, naive, offset)
    ensures ToUtc(naive, offset) == if naive < change then earlier else later
    ensures forall u :: Shows(u, naive, offset) ==> u == earlier || u == later
  {
    TwoPasses(naive, offset, bound, a, b, change);
    ShowsExactly(earlier, naive, offset, bound, a, b, change);
    ShowsExactly(later, naive, offset, bound, a, b, change);
    forall u | Shows(u, naive, offset) ensures u == earlier || u == later { ShowsExactly(u, naive, offset, bound, a, b, change); }
  }

  /** In a gap the result's clock is off by exactly the change: early by it for a naive time before the change, late by it after. */
  lemma GapIsOffByTheChange(naive: int, offset: Zone, bound: int, a: int, b: int, change: int)
    requires ChangesOnce(naive, offset, bound, a, b, change) && !Exists(naive, offset)
    ensures var shown := ToUtc(naive, offset) + offset(ToUtc(naive, offset));
            shown == if naive < change then naive - (b - a) else naive + (b - a)
  {
    var u := ToUtc(naive, offset);
    TwoPasses(naive, offset, bound, a, b, change);
    assert !Shows(naive - a, naive, offset) && !Shows(naive - b, naive, offset);
    ShowsExactly(naive - a, naive, offset, bound, a, b, change);
    ShowsExactly(naive - b, naive, offset, bound, a, b, change);
    assert naive - bound <= u <= naive + bound;
  }

  /** One pass would do exactly if the naive time and the instant it leads to lie on one side of the change, or nothing changes. */
  lemma OnePassExactly(naive: int, offset: Zone, bound: int, a: int, b: int, change: int)
    requires ChangesOnce(naive, offset, bound, a, b, change)
    ensures Shows(naive - offset(naive), naive, offset)
            <==> a == b || (naive < change <==> naive - (if naive < change then a else b) < change)
  {
    assert -bound <= offset(naive) <= bound;
    ShowsExactly(naive - offset(naive), naive, offset, bound, a, b, change);
  }

  const HOUR := 3600000

  /** An hour forward at instant zero, as in Paris in spring. */
  const SPRING: Zone := u => if u < 0 then HOUR else 2 * HOUR

  /** Half an hour before the change, by the clock: one pass is an hour out, two are right. */
  lemma OnePassIsNotEnough()
    ensures var naive := HOUR / 2;
            && ChangesOnce(naive, SPRING, 2 * HOUR, HOUR, 2 * HOUR, 0)
            && !Shows(naive - SPRING(naive), naive, SPRING) && Shows(ToUtc(naive, SPRING), naive, SPRING)
  {
  }

  /** Two changes of an hour, two hours apart, defeat two passes: the wall time exists and the result does not show it. */
  lemma TwoChangesAreTooMany()
    ensures var offset: Zone := u => if 2 * u < -5 * HOUR then HOUR else if 2 * u < -HOUR then 2 * HOUR else 3 * HOUR;
            Shows(-2 * HOUR, 0, offset) && !Shows(ToUtc(0, offset), 0, offset)
  {
  }
}
