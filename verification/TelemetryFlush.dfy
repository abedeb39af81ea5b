/** `flush`: batch after batch, oldest first, until the queue is empty, an answer stops it, or ten have been sent. */
module TelemetryFlush {
  import opened Common
  import opened TelemetryQueue

  datatype Outcome =
    | Accepted | OutsideShift | Unauthenticated | Invalid
    | TransientFailure(retryAfterMs: Option<int>)

  datatype Report = Report(
    sentBatches: nat, sentPoints: nat, droppedBatches: nat, shiftClosed: bool, needsSignIn: bool, retryInMs: Option<int>)

  const MAX_BATCHES_PER_FLUSH := 10

  // ── backoffMs ──────────────────────────────────────────────────────────────

  function Power(base: nat, n: nat): nat { if n == 0 then 1 else base * Power(base, n - 1) }

  function Ceiling(attempt: int): int {
    var raised := 5000 * Power(2, if attempt > 0 then attempt else 0);
    if raised < 300000 then raised else 300000
  }

  /** `random` is uniform in [0, 1). */
  function BackoffMs(attempt: int, random: real): int { (random * Ceiling(attempt) as real).Floor }

  lemma {:induction false} PowerGrows(n: nat)
    requires n >= 6
    ensures Power(2, n) >= 64
  {
    if n > 6 { PowerGrows(n - 1); } else { assert Power(2, 3) == 8 && Power(2, 4) == 16 && Power(2, 5) == 32; }
  }

  /** 5, 10, 20, 40, 80, 160 seconds, then five minutes for good; the delay is anywhere below that. */
  lemma BackoffMeaning(attempt: int, random: real)
    requires 0.0 <= random < 1.0
    ensures Ceiling(attempt) == match attempt
                                case 1 => 10000 case 2 => 20000 case 3 => 40000 case 4 => 80000 case 5 => 160000
                                case _ => if attempt <= 0 then 5000 else 300000
    ensures 0 <= BackoffMs(attempt, random) < Ceiling(attempt)
    ensures BackoffMs(attempt, random) as real <= random * Ceiling(attempt) as real < (BackoffMs(attempt, random) + 1) as real
  {
    assert Power(2, 1) == 2 && Power(2, 2) == 4 && Power(2, 3) == 8 && Power(2, 4) == 16 && Power(2, 5) == 32;
    if attempt >= 6 { PowerGrows(attempt); }
    var c := Ceiling(attempt) as real;
    assert 0.0 <= random * c < c;
  }

  // ── The flush as a function ────────────────────────────────────────────────

  /** One upload: the rows of its batch and what the server said. */
  datatype Leg = Leg(rows: seq<Row>, outcome: Outcome)
  datatype Stop = Running | Emptied | Halted
  datatype Count = Count(sentBatches: nat, sentPoints: nat, droppedBatches: nat)
  datatype Progress = Progress(rows: seq<Row>, legs: seq<Leg>, stop: Stop, count: Count, last: Option<Outcome>)

  /** The batch leaves the queue. */
  predicate Settles(o: Outcome) { o.Accepted? || o.Invalid? || o.OutsideShift? }

  function Counting(c: Count, o: Outcome, points: nat): Count {
    if o.Accepted? then c.(sentBatches := c.sentBatches + 1, sentPoints := c.sentPoints + points)
    else if o.Invalid? || o.OutsideShift? then c.(droppedBatches := c.droppedBatches + 1)
    else c
  }

  function Round(p: Progress, id: Uuid, answer: Outcome): Progress {
    var (rows, batch) := Sealing(p.rows, id);
    if p.stop != Running then p
    else if batch.None? then p.(stop := Emptied)
    else
      var mine := InBatch(rows, batch.value);
      Progress(if Settles(answer) then Without(rows, batch.value) else rows, p.legs + [Leg(mine, answer)],
               if answer.Accepted? || answer.Invalid? then Running else Halted,
               Counting(p.count, answer, |Readable(mine)|), Some(answer))
  }

  function Rounds(rows: seq<Row>, ids: seq<Uuid>, answers: seq<Outcome>, n: nat): Progress
    requires n <= |ids| && n <= |answers|
  {
    if n == 0 then Progress(rows, [], Running, Count(0, 0, 0), None)
    else Round(Rounds(rows, ids, answers, n - 1), ids[n - 1], answers[n - 1])
  }

  function ReportOf(p: Progress, backoff: int): Report {
    var o := if p.stop.Halted? then p.last else None;
    Report(p.count.sentBatches, p.count.sentPoints, p.count.droppedBatches, o == Some(OutsideShift), o == Some(Unauthenticated),
           if p.stop.Running? then Some(1000)
           else if o.Some? && o.value.TransientFailure? then Some(Delay(o.value.retryAfterMs, backoff))
           else None)
  }

  function Delay(retryAfterMs: Option<int>, backoff: int): int { if retryAfterMs.Some? then retryAfterMs.value else backoff }

  /** Ids nobody has used yet, one for each round. */
  ghost predicate FreshIds(rows: seq<Row>, ids: seq<Uuid>) {
    Distinct(ids) && forall i :: 0 <= i < |ids| ==> NoBatch(rows, ids[i])
  }

  lemma RoundIsSound(p: Progress, id: Uuid, answer: Outcome)
    requires Sound(p.rows) && NoBatch(p.rows, id)
    ensures Sound(Round(p, id, answer).rows)
    ensures forall k :: k != id && NoBatch(p.rows, k) ==> NoBatch(Round(p, id, answer).rows, k)
  {
    SealingMeaning(p.rows, id);
    var (sealed, batch) := Sealing(p.rows, id);
    if batch.Some? { WithoutIsSound(sealed, batch.value); }
  }

  lemma {:induction false} RoundsAreSound(rows: seq<Row>, ids: seq<Uuid>, answers: seq<Outcome>, n: nat)
    requires n <= |ids| && n <= |answers| && Sound(rows) && FreshIds(rows, ids)
    ensures var p := Rounds(rows, ids, answers, n);
            Sound(p.rows) && forall j :: n <= j < |ids| ==> NoBatch(p.rows, ids[j])
  {
    if n > 0 {
      RoundsAreSound(rows, ids, answers, n - 1);
      RoundIsSound(Rounds(rows, ids, answers, n - 1), ids[n - 1], answers[n - 1]);
    }
  }

  lemma StillFresh(rows: seq<Row>, ids: seq<Uuid>, answers: seq<Outcome>, n: nat)
    requires n < |ids| && n <= |answers| && Sound(rows) && FreshIds(rows, ids)
    ensures NoBatch(Rounds(rows, ids, answers, n).rows, ids[n])
  {
    RoundsAreSound(rows, ids, answers, n);
  }

  /** The next batch, its upload, and its removal if the server has settled it. */
  method SendNext(q: Queue, newId: Uuid, answer: Outcome) returns (batch: Option<Batch>)
    requires q.Valid() && NoBatch(q.rows, newId)
    modifies q
    ensures q.Valid() && q.next == old(q.next) && (batch.None? <==> old(q.rows) == [])
    ensures var (sealed, id) := Sealing(old(q.rows), newId);
            && batch == ReadBatch(sealed, id)
            && q.rows == if batch.Some? && Settles(answer) then Without(sealed, batch.value.id) else sealed
  {
    batch := q.NextBatch(newId);
    if batch.Some? {
      match answer
      case Accepted => q.Remove(batch.value.id);
      case Invalid => q.Remove(batch.value.id);
      case OutsideShift => q.Remove(batch.value.id);
      case Unauthenticated =>
      case TransientFailure(_) =>
    }
  }

  /** One turn of the loop, which may end the flush. */
  method Turn(q: Queue, id: Uuid, answer: Outcome, count: Count, backoff: int, ghost p: Progress)
    returns (count': Count, report: Option<Report>)
    requires q.Valid() && NoBatch(q.rows, id) && q.rows == p.rows && p.stop.Running? && count == p.count
    modifies q
    ensures q.Valid() && q.next == old(q.next) && q.rows == Round(p, id, answer).rows
    ensures report.None? <==> Round(p, id, answer).stop.Running?
    ensures report.None? ==> count' == Round(p, id, answer).count
    ensures report.Some? ==> report.value == ReportOf(Round(p, id, answer), backoff)
  {
    count' := count;
    var batch := SendNext(q, id, answer);
    if batch.None? {
      return count, Some(Report(count.sentBatches, count.sentPoints, count.droppedBatches, false, false, None));
    }
    match answer {
      case Accepted =>
        count' := count.(sentBatches := count.sentBatches + 1, sentPoints := count.sentPoints + |batch.value.positions|);
        report := None;
      case Invalid =>
        count' := count.(droppedBatches := count.droppedBatches + 1);
        report := None;
      case OutsideShift =>
        report := Some(Report(count.sentBatches, count.sentPoints, count.droppedBatches + 1, true, false, None));
      case Unauthenticated =>
        report := Some(Report(count.sentBatches, count.sentPoints, count.droppedBatches, false, true, None));
      case TransientFailure(retryAfterMs) =>
        var delay := Some(if retryAfterMs.Some? then retryAfterMs.value else backoff);
        report := Some(Report(count.sentBatches, count.sentPoints, count.droppedBatches, false, false, delay));
    }
  }

  /** `flush`: `ids` are what `newId` returns, `answers` what the server does. */
  method Flush(q: Queue, ids: seq<Uuid>, answers: seq<Outcome>, attempt: int, random: real) returns (report: Report)
    requires q.Valid() && |ids| == |answers| == 10 && FreshIds(q.rows, ids)
    modifies q
    ensures q.Valid() && q.next == old(q.next)
    ensures q.rows == Rounds(old(q.rows), ids, answers, |answers|).rows
    ensures report == ReportOf(Rounds(old(q.rows), ids, answers, |answers|), BackoffMs(attempt, random))
  {
    var count, backoff := Count(0, 0, 0), BackoffMs(attempt, random);
    ghost var start := q.rows;
    for i := 0 to MAX_BATCHES_PER_FLUSH
      invariant q.Valid() && q.next == old(q.next)
      invariant Rounds(start, ids, answers, i).stop.Running? && q.rows == Rounds(start, ids, answers, i).rows
      invariant count == Rounds(start, ids, answers, i).count
    {
      StillFresh(start, ids, answers, i);
      StoppedStays(start, ids, answers, i + 1, |answers|);
      var ended;
      count, ended := Turn(q, ids[i], answers[i], count, backoff, Rounds(start, ids, answers, i));
      if ended.Some? { return ended.value; }
    }
    report := Report(count.sentBatches, count.sentPoints, count.droppedBatches, false, false, Some(1000));
  }

  lemma {:induction false} StoppedStays(rows: seq<Row>, ids: seq<Uuid>, answers: seq<Outcome>, i: nat, n: nat)
    requires i <= n <= |ids| && n <= |answers|
    ensures !Rounds(rows, ids, answers, i).stop.Running? ==> Rounds(rows, ids, answers, n) == Rounds(rows, ids, answers, i)
    decreases n - i
  {
    if i < n { StoppedStays(rows, ids, answers, i, n - 1); }
  }

  // ── Nothing is lost, nothing is reordered ──────────────────────────────────

  function SettledRows(legs: seq<Leg>): nat {
    if legs == [] then 0
    else SettledRows(legs[..|legs| - 1]) + if legs[|legs| - 1].outcome in {Accepted, Invalid, OutsideShift} then |legs[|legs| - 1].rows| else 0
  }

  ghost function SettledOrders(legs: seq<Leg>): set<nat> {
    set i, o | 0 <= i < |legs| && legs[i].outcome in {Accepted, Invalid, OutsideShift} && o in Orders(legs[i].rows) :: o
  }

  lemma SettledSnoc(legs: seq<Leg>, l: Leg)
    ensures SettledRows(legs + [l]) == SettledRows(legs) + if Settles(l.outcome) then |l.rows| else 0
    ensures SettledOrders(legs + [l]) == SettledOrders(legs) + if Settles(l.outcome) then Orders(l.rows) else {}
  {
    var all := legs + [l];
    assert all[..|all| - 1] == legs;
    forall o ensures o in SettledOrders(all) <==> o in SettledOrders(legs) || (Settles(l.outcome) && o in Orders(l.rows)) {
      if o in SettledOrders(legs) {
        var i :| 0 <= i < |legs| && legs[i].outcome in {Accepted, Invalid, OutsideShift} && o in Orders(legs[i].rows);
        assert all[i] == legs[i];
      }
      if Settles(l.outcome) && o in Orders(l.rows) { assert all[|legs|] == l; }
    }
  }

  /** What was queued is what is queued and what the settled legs took. */
  ghost predicate Conserved(rows: seq<Row>, p: Progress) {
    && |rows| == |p.rows| + SettledRows(p.legs)
    && Orders(rows) == Orders(p.rows) + SettledOrders(p.legs) && Orders(p.rows) !! SettledOrders(p.legs)
  }

  lemma RoundConserves(rows: seq<Row>, p: Progress, id: Uuid, answer: Outcome)
    requires Conserved(rows, p) && Sound(p.rows) && NoBatch(p.rows, id)
    ensures Conserved(rows, Round(p, id, answer))
  {
    var (sealed, batch) := Sealing(p.rows, id);
    if p.stop.Running? && batch.Some? {
      SealingMeaning(p.rows, id);
      Parted(sealed, batch.value);
      WithoutMeaning(sealed, batch.value);
      SettledSnoc(p.legs, Leg(InBatch(sealed, batch.value), answer));
    }
  }

  /** Every point queued before is queued still or went with a batch the server took or refused for good, never both. */
  lemma {:induction false} PointsAreConserved(rows: seq<Row>, ids: seq<Uuid>, answers: seq<Outcome>, n: nat)
    requires n <= |ids| && n <= |answers| && Sound(rows) && FreshIds(rows, ids)
    ensures Conserved(rows, Rounds(rows, ids, answers, n))
  {
    if n > 0 {
      PointsAreConserved(rows, ids, answers, n - 1);
      RoundsAreSound(rows, ids, answers, n - 1);
      RoundConserves(rows, Rounds(rows, ids, answers, n - 1), ids[n - 1], answers[n - 1]);
    }
  }

  /** A leg is one shift's rows, at least one and within the cap. */
  ghost predicate IsLeg(l: Leg) {
    l.rows != [] && |l.rows| <= MAX_BATCH && forall x :: x in l.rows ==> x.shift == l.rows[0].shift
  }

  ghost predicate Precedes(a: seq<Row>, b: seq<Row>) {
    forall x, y :: x in a && y in b && x.shift == y.shift ==> x.order < y.order
  }

  ghost predicate InCaptureOrder(p: Progress) {
    && (forall i :: 0 <= i < |p.legs| ==> IsLeg(p.legs[i]))
    && (forall i, j :: 0 <= i < j < |p.legs| ==> Precedes(p.legs[i].rows, p.legs[j].rows))
    && (p.stop.Running? ==> forall i :: 0 <= i < |p.legs| ==> Precedes(p.legs[i].rows, p.rows))
  }

  /** The batches of one shift leave in capture order. */
  lemma {:induction false} ShiftsLeaveInOrder(rows: seq<Row>, ids: seq<Uuid>, answers: seq<Outcome>, n: nat)
    requires n <= |ids| && n <= |answers| && Sound(rows) && FreshIds(rows, ids)
    ensures InCaptureOrder(Rounds(rows, ids, answers, n))
  {
    if n > 0 {
      ShiftsLeaveInOrder(rows, ids, answers, n - 1);
      RoundsAreSound(rows, ids, answers, n - 1);
      RoundKeepsOrder(Rounds(rows, ids, answers, n - 1), ids[n - 1], answers[n - 1]);
    }
  }

  lemma RoundKeepsOrder(p: Progress, id: Uuid, answer: Outcome)
    requires InCaptureOrder(p) && Sound(p.rows) && NoBatch(p.rows, id)
    ensures InCaptureOrder(Round(p, id, answer))
  {
    var (sealed, batch) := Sealing(p.rows, id);
    if p.stop.Running? && batch.Some? {
      SealingMeaning(p.rows, id);
      var taken, left := InBatch(sealed, batch.value), Without(sealed, batch.value);
      InBatchMeaning(sealed, batch.value);
      WithoutMeaning(sealed, batch.value);
      forall i | 0 <= i < |p.legs| ensures Precedes(p.legs[i].rows, taken) && Precedes(p.legs[i].rows, left) {
        RelabelledPrecedes(p.legs[i].rows, p.rows, sealed);
      }
      assert Precedes(taken, left);
      OneMoreLeg(p, Leg(taken, answer), left, Round(p, id, answer));
    }
  }

  lemma OneMoreLeg(p: Progress, l: Leg, left: seq<Row>, p': Progress)
    requires InCaptureOrder(p) && IsLeg(l) && Precedes(l.rows, left)
    requires forall i :: 0 <= i < |p.legs| ==> Precedes(p.legs[i].rows, l.rows) && Precedes(p.legs[i].rows, left)
    requires p'.legs == p.legs + [l] && (p'.stop.Running? ==> p'.rows == left)
    ensures InCaptureOrder(p')
  {
  }

  lemma RelabelledPrecedes(a: seq<Row>, b: seq<Row>, c: seq<Row>)
    requires Precedes(a, b) && |b| == |c| && forall i :: 0 <= i < |b| ==> SameFix(c[i], b[i])
    ensures Precedes(a, c)
  {
    forall x, y | x in a && y in c && x.shift == y.shift ensures x.order < y.order {
      var i :| 0 <= i < |c| && c[i] == y;
      assert b[i] in b;
    }
  }

  /** The report counts the legs: batches and points the server took, and batches given up. */
  lemma {:induction false} CountsAreLegs(rows: seq<Row>, ids: seq<Uuid>, answers: seq<Outcome>, n: nat)
    requires n <= |ids| && n <= |answers|
    ensures CountsLegs(Rounds(rows, ids, answers, n))
  {
    if n > 0 {
      CountsAreLegs(rows, ids, answers, n - 1);
      RoundCounts(Rounds(rows, ids, answers, n - 1), ids[n - 1], answers[n - 1]);
    }
  }

  ghost predicate CountsLegs(p: Progress) {
    && p.count == CountOf(p.legs)
    && p.last == if p.legs == [] then None else Some(p.legs[|p.legs| - 1].outcome)
  }

  /** Batches taken, their readable points, batches given up. */
  ghost function CountOf(legs: seq<Leg>): Count { Count(|Taken(legs)|, Points(Taken(legs)), |Refused(legs)|) }

  lemma RoundCounts(p: Progress, id: Uuid, answer: Outcome)
    requires CountsLegs(p)
    ensures CountsLegs(Round(p, id, answer))
  {
    var (sealed, batch) := Sealing(p.rows, id);
    if p.stop.Running? && batch.Some? {
      var l := Leg(InBatch(sealed, batch.value), answer);
      CountsSnoc(p.legs, l);
      assert Round(p, id, answer).legs == p.legs + [l];
    }
  }

  lemma CountsSnoc(legs: seq<Leg>, l: Leg)
    ensures CountOf(legs + [l]) == Counting(CountOf(legs), l.outcome, |Readable(l.rows)|)
  {
    assert (legs + [l])[..|legs|] == legs;
    assert (Taken(legs) + [l])[..|Taken(legs)|] == Taken(legs);
  }

  function Taken(legs: seq<Leg>): seq<Leg> {
    if legs == [] then []
    else
      var before, last := Taken(legs[..|legs| - 1]), legs[|legs| - 1];
      if last.outcome.Accepted? then before + [last] else before
  }

  function Refused(legs: seq<Leg>): seq<Leg> {
    if legs == [] then []
    else
      var before, last := Refused(legs[..|legs| - 1]), legs[|legs| - 1];
      if last.outcome.Invalid? || last.outcome.OutsideShift? then before + [last] else before
  }

  function Points(legs: seq<Leg>): nat {
    if legs == [] then 0 else Points(legs[..|legs| - 1]) + |Readable(legs[|legs| - 1].rows)|
  }

  // ── How a flush ends ───────────────────────────────────────────────────────

  /** The legs are the answers in order, and only the last may be one that ends the flush. */
  ghost predicate FollowsAnswers(p: Progress, answers: seq<Outcome>, n: nat)
    requires n <= |answers|
  {
    && |p.legs| <= n && (forall i :: 0 <= i < |p.legs| ==> p.legs[i].outcome == answers[i])
    && (forall i :: 0 <= i < |p.legs| - 1 ==> p.legs[i].outcome in {Accepted, Invalid})
    && match p.stop
       case Running => |p.legs| == n && (n > 0 ==> p.legs[n - 1].outcome in {Accepted, Invalid})
       case Emptied => |p.legs| < n && p.rows == [] && (p.legs != [] ==> p.legs[|p.legs| - 1].outcome in {Accepted, Invalid})
       case Halted => p.legs != [] && p.legs[|p.legs| - 1].outcome !in {Accepted, Invalid} && p.last == Some(p.legs[|p.legs| - 1].outcome)
  }

  lemma {:induction false} RoundsFollow(rows: seq<Row>, ids: seq<Uuid>, answers: seq<Outcome>, n: nat)
    requires n <= |ids| && n <= |answers|
    ensures FollowsAnswers(Rounds(rows, ids, answers, n), answers, n)
  {
    if n > 0 {
      RoundsFollow(rows, ids, answers, n - 1);
      RoundFollows(Rounds(rows, ids, answers, n - 1), ids[n - 1], answers, n - 1);
    }
  }

  lemma RoundFollows(p: Progress, id: Uuid, answers: seq<Outcome>, n: nat)
    requires n < |answers| && FollowsAnswers(p, answers, n)
    ensures FollowsAnswers(Round(p, id, answers[n]), answers, n + 1)
  {
    var (sealed, batch) := Sealing(p.rows, id);
    if p.stop.Running? && batch.Some? {
      var legs := p.legs + [Leg(InBatch(sealed, batch.value), answers[n])];
      assert Round(p, id, answers[n]).legs == legs;
      forall i | 0 <= i < |legs| ensures legs[i].outcome == answers[i] && (i < n ==> legs[i].outcome in {Accepted, Invalid}) {
        if i < n { assert legs[i] == p.legs[i]; }
      }
    }
  }

  /** What the report says of a flush that ended with this outcome, or with none. */
  ghost predicate EndsWith(last: Option<Outcome>, backoff: int, r: Report) {
    && (r.shiftClosed <==> last == Some(OutsideShift)) && (r.needsSignIn <==> last == Some(Unauthenticated))
    && match last
       case Some(TransientFailure(Some(ms))) => r.retryInMs == Some(ms)
       case Some(TransientFailure(None)) => r.retryInMs == Some(backoff)
       case Some(OutsideShift) => r.retryInMs == None
       case Some(Unauthenticated) => r.retryInMs == None
       case _ => true
  }

  /**
   * The flags and the delay follow from the last answer: a closed shift, a sign-in, the server's delay or the backoff.
   * Unstopped, ten batches ask for another call in a second, and fewer leave the queue empty and ask for none.
   */
  lemma ReportMeaning(rows: seq<Row>, ids: seq<Uuid>, answers: seq<Outcome>, backoff: int)
    requires |ids| == |answers| == 10
    ensures var p := Rounds(rows, ids, answers, 10);
            var r, last := ReportOf(p, backoff), if p.legs == [] then None else Some(p.legs[|p.legs| - 1].outcome);
            && FollowsAnswers(p, answers, 10) && EndsWith(last, backoff, r)
            && (last in {None, Some(Accepted), Some(Invalid)} ==>
                  if |p.legs| == 10 then r.retryInMs == Some(1000) else r.retryInMs == None && p.rows == [])
  {
    RoundsFollow(rows, ids, answers, 10);
  }

  lemma {:induction false} EmptiedIsEmpty(rows: seq<Row>, ids: seq<Uuid>, answers: seq<Outcome>, n: nat)
    requires n <= |ids| && n <= |answers|
    ensures var p := Rounds(rows, ids, answers, n);
            && (p.stop.Emptied? ==> p.rows == [])
            && (p.stop.Halted? ==> p.last.Some? && !p.last.value.Accepted? && !p.last.value.Invalid?)
  {
    if n > 0 { EmptiedIsEmpty(rows, ids, answers, n - 1); }
  }

  /** No delay to wait and neither flag: the queue is empty. */
  lemma DoneMeansEmpty(rows: seq<Row>, ids: seq<Uuid>, answers: seq<Outcome>, backoff: int)
    requires |ids| == |answers| == 10 && Sound(rows) && FreshIds(rows, ids)
    ensures var p := Rounds(rows, ids, answers, |answers|);
            var r := ReportOf(p, backoff);
            r.retryInMs.None? && !r.shiftClosed && !r.needsSignIn ==> p.rows == []
  {
    EmptiedIsEmpty(rows, ids, answers, |answers|);
  }

  /** The rows behind the oldest `max` of a shift. */
  function DropOldest(rows: seq<Row>, shift: Uuid, max: nat): (r: seq<Row>)
    ensures |r| <= |rows| && (max > 0 && rows != [] && rows[0].shift == shift ==> |r| < |rows|)
  {
    if rows == [] then []
    else if max > 0 && rows[0].shift == shift then DropOldest(rows[1..], shift, max - 1)
    else [rows[0]] + DropOldest(rows[1..], shift, max)
  }

  /** The queue without its next batch. */
  function AfterBatch(rows: seq<Row>): seq<Row> {
    var sealed := FirstSealed(rows);
    if sealed.Some? then Without(rows, sealed.value)
    else if rows == [] then []
    else DropOldest(rows, rows[0].shift, MAX_BATCH)
  }

  lemma AfterBatchShrinks(rows: seq<Row>)
    requires rows != []
    ensures |AfterBatch(rows)| < |rows|
  {
    FirstSealedMeaning(rows);
    if FirstSealed(rows).Some? {
      var id := FirstSealed(rows).value;
      var i :| 0 <= i < |rows| && rows[i].batch == Some(id);
      InBatchMeaning(rows, id);
      WithoutMeaning(rows, id);
      assert rows[i] in InBatch(rows, id);
    }
  }

  /** How many batches the queue holds. */
  function Batches(rows: seq<Row>): nat
    decreases |rows|
  {
    if rows == [] then 0 else AfterBatchShrinks(rows); 1 + Batches(AfterBatch(rows))
  }

  lemma {:induction false} SealThenDrop(rows: seq<Row>, shift: Uuid, id: Uuid, max: nat)
    requires forall i :: 0 <= i < |rows| ==> rows[i].batch.None?
    ensures Without(Seal(rows, shift, id, max), id) == DropOldest(rows, shift, max)
  {
    if rows != [] {
      SealThenDrop(rows[1..], shift, id, if max > 0 && rows[0].shift == shift then max - 1 else max);
    }
  }

  lemma TakenIsAfterBatch(rows: seq<Row>, id: Uuid)
    requires rows != [] && NoBatch(rows, id)
    ensures var (sealed, batch) := Sealing(rows, id); batch.Some? && Without(sealed, batch.value) == AfterBatch(rows)
  {
    FirstSealedMeaning(rows);
    if FirstSealed(rows).None? { SealThenDrop(rows, rows[0].shift, id, MAX_BATCH); }
  }

  lemma {:induction false} RoundsTakeBatches(rows: seq<Row>, ids: seq<Uuid>, answers: seq<Outcome>, n: nat)
    requires n <= |ids| && n <= |answers| && Sound(rows) && FreshIds(rows, ids)
    requires forall i :: 0 <= i < n ==> answers[i].Accepted? || answers[i].Invalid?
    ensures var p := Rounds(rows, ids, answers, n);
            && (p.stop.Running? <==> n <= Batches(rows)) && !p.stop.Halted?
            && Batches(p.rows) == if n <= Batches(rows) then Batches(rows) - n else 0
  {
    if n > 0 {
      RoundsTakeBatches(rows, ids, answers, n - 1);
      StillFresh(rows, ids, answers, n - 1);
      var p := Rounds(rows, ids, answers, n - 1);
      if p.rows != [] { TakenIsAfterBatch(p.rows, ids[n - 1]); }
    }
  }

  /**
   * A flush the server never stops asks to be called again exactly when it sent ten batches, which is not the same as
   * work being left: a queue of exactly ten is empty by then.
   */
  lemma RetryIsNotWork(rows: seq<Row>, ids: seq<Uuid>, answers: seq<Outcome>, backoff: int)
    requires |ids| == |answers| == 10 && Sound(rows) && FreshIds(rows, ids)
    requires forall i :: 0 <= i < |answers| ==> answers[i].Accepted? || answers[i].Invalid?
    ensures var p := Rounds(rows, ids, answers, |answers|);
            && (ReportOf(p, backoff).retryInMs.Some? <==> Batches(rows) >= 10)
            && (p.rows != [] <==> Batches(rows) > 10)
  {
    RoundsTakeBatches(rows, ids, answers, |answers|);
  }

  /** One readable point in each of ten shifts. */
  const TEN_SHIFTS: seq<Row> := seq(10, i requires 0 <= i < 10 => Row(i, i, 0, Some(Position("2026-01-05T08:00:00Z", 36.8, 10.2)), None))

  lemma {:induction false} OnePerShift(rows: seq<Row>)
    requires forall i :: 0 <= i < |rows| ==> rows[i].batch.None?
    requires forall i, j :: 0 <= i < j < |rows| ==> rows[i].shift != rows[j].shift
    ensures Batches(rows) == |rows|
  {
    if rows != [] {
      FirstSealedMeaning(rows);
      DropOthers(rows[1..], rows[0].shift, MAX_BATCH - 1);
      assert AfterBatch(rows) == rows[1..];
      OnePerShift(rows[1..]);
    }
  }

  lemma {:induction false} DropOthers(rows: seq<Row>, shift: Uuid, max: nat)
    requires forall i :: 0 <= i < |rows| ==> rows[i].shift != shift
    ensures DropOldest(rows, shift, max) == rows
  {
    if rows != [] { DropOthers(rows[1..], shift, max); }
  }

  /** Ten accepted batches empty the queue, and the flush still asks to be called again in a second. */
  lemma EmptyYetRetried(ids: seq<Uuid>, backoff: int)
    requires |ids| == 10 && Distinct(ids)
    ensures var answers := seq(|ids|, i => Accepted);
            var p := Rounds(TEN_SHIFTS, ids, answers, |answers|);
            p.rows == [] && ReportOf(p, backoff).retryInMs == Some(1000)
  {
    OnePerShift(TEN_SHIFTS);
    forall id ensures InBatch(TEN_SHIFTS, id) == [] { EmptyBatch(TEN_SHIFTS, id); }
    var answers := seq(|ids|, i => Accepted);
    RetryIsNotWork(TEN_SHIFTS, ids, answers, backoff);
    RoundsTakeBatches(TEN_SHIFTS, ids, answers, |answers|);
  }
}
