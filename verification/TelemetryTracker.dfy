/** What a runtime does with a delivery of fixes: store the genuine ones under the open shift, then upload what is due. */
module TelemetryTracker {
  import opened Common
  import opened TelemetryQueue
  import opened TelemetryFlush

  datatype Fix = Fix(mocked: bool, at: int, position: Position)

  const FLUSH_AT_DEPTH := 50

  /** Each fix that is not mocked, in order, with its time and its position. */
  ghost predicate AreGenuine(fixes: seq<Fix>, genuine: seq<(int, Option<Position>)>, at: seq<nat>) {
    && Increasing(at) && |genuine| == |at|
    && (forall i :: 0 <= i < |at| ==>
          at[i] < |fixes| && !fixes[at[i]].mocked && genuine[i] == (fixes[at[i]].at, Some(fixes[at[i]].position)))
    && forall k: nat :: k < |fixes| && !fixes[k].mocked ==> k in at
  }

  lemma OneMoreFix(fixes: seq<Fix>, genuine: seq<(int, Option<Position>)>, at: seq<nat>, x: Fix)
    requires AreGenuine(fixes, genuine, at)
    ensures x.mocked ==> AreGenuine(fixes + [x], genuine, at)
    ensures !x.mocked ==> AreGenuine(fixes + [x], genuine + [(x.at, Some(x.position))], at + [|fixes|])
  {
    assert (fixes + [x])[|fixes|] == x;
    if !x.mocked { assert |fixes| in at + [|fixes|]; }
  }

  method Genuine(fixes: seq<Fix>) returns (genuine: seq<(int, Option<Position>)>, ghost at: seq<nat>)
    ensures AreGenuine(fixes, genuine, at) && |at| <= |fixes|
  {
    genuine, at := [], [];
    for i := 0 to |fixes|
      invariant |genuine| <= i && AreGenuine(fixes[..i], genuine, at)
    {
      assert fixes[..i + 1] == fixes[..i] + [fixes[i]];
      OneMoreFix(fixes[..i], genuine, at, fixes[i]);
      if !fixes[i].mocked {
        genuine := genuine + [(fixes[i].at, Some(fixes[i].position))];
        at := at + [i];
      }
    }
    assert fixes[..|fixes|] == fixes;
  }

  /** The queue after a delivery: behind the old rows one for each fix that is not mocked, in order. */
  ghost predicate Stores(before: seq<Row>, next: nat, shift: Uuid, fixes: seq<Fix>, after: seq<Row>, at: seq<nat>) {
    && Increasing(at) && before <= after && |after| == |before| + |at|
    && (forall i :: 0 <= i < |at| ==>
          at[i] < |fixes| && !fixes[at[i]].mocked
          && after[|before| + i] == Row(next + i, shift, fixes[at[i]].at, Some(fixes[at[i]].position), None))
    && forall k: nat :: k < |fixes| && !fixes[k].mocked ==> k in at
  }

  lemma StoresWhatItAppends(before: seq<Row>, next: nat, shift: Uuid, fixes: seq<Fix>, genuine: seq<(int, Option<Position>)>,
                            after: seq<Row>, at: seq<nat>)
    requires AreGenuine(fixes, genuine, at) && before <= after && |after| == |before| + |genuine|
    requires forall i :: 0 <= i < |genuine| ==> after[|before| + i] == Row(next + i, shift, genuine[i].0, genuine[i].1, None)
    ensures Stores(before, next, shift, fixes, after, at)
  {
  }

  predicate ShouldFlush(depth: nat, oldestAt: Option<int>, flushAfterMs: int, now: int) {
    depth != 0 && oldestAt.Some? && (depth >= FLUSH_AT_DEPTH || now - oldestAt.value >= flushAfterMs)
  }

  /** The earliest time of the queue. */
  function OldestAt(rows: seq<Row>): Option<int> {
    if rows == [] then None
    else
      var rest := OldestAt(rows[1..]);
      if rest.Some? && rest.value < rows[0].at then rest else Some(rows[0].at)
  }

  lemma {:induction false} OldestMeaning(rows: seq<Row>)
    ensures OldestAt(rows).None? <==> rows == []
    ensures rows != [] ==> (exists x :: x in rows && x.at == OldestAt(rows).value) && forall x :: x in rows ==> OldestAt(rows).value <= x.at
  {
    if rows != [] { OldestMeaning(rows[1..]); }
  }

  /** The durable keys that decide about uploads, and the queue beside them. */
  class Tracker {
    const queue: Queue
    var shift: Option<Uuid>
    var attempt: int
    var retryAt: int
    var mockedDropped: nat

    /** A runtime starts with the keys as it finds them. */
    constructor (queue: Queue, shift: Option<Uuid>, attempt: int, retryAt: int, mockedDropped: nat)
      ensures this.queue == queue && this.shift == shift && this.attempt == attempt
      ensures this.retryAt == retryAt && this.mockedDropped == mockedDropped
    {
      this.queue := queue;
      this.shift, this.attempt, this.retryAt, this.mockedDropped := shift, attempt, retryAt, mockedDropped;
    }

    /** Without an open shift nothing is stored; with one, every genuine fix is, in order, and the others are counted. */
    method Store(fixes: seq<Fix>) returns (ghost at: seq<nat>)
      requires queue.Valid()
      modifies this`mockedDropped, queue
      ensures queue.Valid()
      ensures shift.None? ==> queue.rows == old(queue.rows) && queue.next == old(queue.next) && mockedDropped == old(mockedDropped)
      ensures shift.Some? ==> Stores(old(queue.rows), old(queue.next), shift.value, fixes, queue.rows, at)
      ensures shift.Some? ==> mockedDropped - old(mockedDropped) == |fixes| - |at|
    {
      at := [];
      if shift.None? { return; }
      var genuine;
      genuine, at := Genuine(fixes);
      if |genuine| < |fixes| { mockedDropped := mockedDropped + |fixes| - |genuine|; }
      queue.Append(shift.value, genuine);
      StoresWhatItAppends(old(queue.rows), old(queue.next), shift.value, fixes, genuine, queue.rows, at);
    }

    /** `uploadIfDue`: `now` is read before the flush and `later` after it. */
    method UploadIfDue(force: bool, now: int, later: int, flushAfterMs: int, ids: seq<Uuid>, answers: seq<Outcome>, random: real)
      returns (report: Option<Report>)
      requires queue.Valid() && |ids| == |answers| == 10 && FreshIds(queue.rows, ids)
      modifies this, queue
      ensures queue.Valid()
      ensures report.Some? <==>
                force || (now >= old(retryAt) && old(queue.rows) != []
                          && (|old(queue.rows)| >= 50 || exists x :: x in old(queue.rows) && now - x.at >= flushAfterMs))
      ensures report.None? ==> queue.rows == old(queue.rows) && shift == old(shift) && attempt == old(attempt) && retryAt == old(retryAt)
      ensures report.Some? ==>
                && queue.rows == Rounds(old(queue.rows), ids, answers, |answers|).rows
                && report.value == ReportOf(Rounds(old(queue.rows), ids, answers, |answers|), BackoffMs(old(attempt), random))
                && attempt == (if report.value.retryInMs.Some? then old(attempt) + 1 else 0)
                && retryAt == (if report.value.retryInMs.Some? then later + report.value.retryInMs.value else 0)
                && shift == (if report.value.shiftClosed then None else old(shift))
    {
      report := None;
      OldestMeaning(queue.rows);
      if !force && now < retryAt { return; }
      if !force && !ShouldFlush(|queue.rows|, OldestAt(queue.rows), flushAfterMs, now) { return; }
      var r := Flush(queue, ids, answers, attempt, random);
      if r.retryInMs.None? {
        attempt, retryAt := 0, 0;
      } else {
        attempt, retryAt := attempt + 1, later + r.retryInMs.value;
      }
      if r.shiftClosed { shift := None; }
      report := Some(r);
    }
  }

  /**
   * A flush that nothing stopped counts as a failed attempt exactly when it sent its full ten batches: after a long time
   * offline the next real failure backs off longer for it.
   */
  lemma FullFlushCountsAsFailure(rows: seq<Row>, ids: seq<Uuid>, answers: seq<Outcome>, attempt: nat, backoff: int)
    requires |ids| == |answers| == 10 && Sound(rows) && FreshIds(rows, ids)
    requires forall i :: 0 <= i < |answers| ==> answers[i].Accepted?
    ensures var report := ReportOf(Rounds(rows, ids, answers, |answers|), backoff);
            (if report.retryInMs.Some? then attempt + 1 else 0) == if Batches(rows) >= 10 then attempt + 1 else 0
  {
    RetryIsNotWork(rows, ids, answers, backoff);
  }
}
