/**
 * Any number of runtimes on one telemetry queue. Each runs the steps of `flush` in its own time, any of them may die at
 * any moment, answers may be lost, and the server keeps the first batch it gets under an id.
 */
module TelemetryRuns {
  import opened Common
  import opened TelemetryQueue
  import opened TelemetryFlush

  /** Where a runtime is in its flush. */
  datatype Phase = Idle | Chosen(id: Uuid) | Holding(batch: Batch) | Answered(id: Uuid, outcome: Outcome)

  /**
   * Written, never read to decide anything but that an id is new. `labels` are the rows sealed under each id, `sealed` the
   * ids in that order, and `captured` the body of every fix by its number.
   */
  datatype History = History(
    minted: set<Uuid>, labels: map<Uuid, seq<Row>>, sealed: seq<Uuid>, uploads: seq<Batch>, settled: map<Uuid, Outcome>,
    captured: seq<Option<Position>>)

  datatype World = World(rows: seq<Row>, next: nat, phases: map<int, Phase>, stored: seq<Batch>, history: History)

  datatype Step =
    | Append(shift: Uuid, fixes: seq<(int, Option<Position>)>)
    | SealNext(runtime: int, newId: Uuid)
    | ReadBack(runtime: int)
    | Upload(runtime: int, stores: bool, outcome: Outcome)
    | Finish(runtime: int)
    | Die(runtime: int)

  function PhaseOf(w: World, r: int): Phase { if r in w.phases then w.phases[r] else Idle }

  predicate IsStored(stored: seq<Batch>, id: Uuid) { exists b :: b in stored && b.id == id }

  predicate Enabled(w: World, s: Step) {
    match s
    case Append(_, _) => true
    case SealNext(r, newId) => PhaseOf(w, r).Idle? && newId !in w.history.minted
    case ReadBack(r) => PhaseOf(w, r).Chosen?
    case Upload(r, stores, outcome) =>
      PhaseOf(w, r).Holding? && (outcome.Accepted? ==> stores || IsStored(w.stored, PhaseOf(w, r).batch.id))
    case Finish(r) => PhaseOf(w, r).Answered?
    case Die(_) => true
  }

  /** The transaction of `nextBatch`. */
  function AfterSeal(w: World, r: int, newId: Uuid): World {
    var (after, batch) := Sealing(w.rows, newId);
    var isNew := FirstSealed(w.rows).None? && batch.Some?;
    w.(rows := after,
       phases := w.phases[r := if batch.Some? then Chosen(batch.value) else Idle],
       history := w.history.(
         minted := w.history.minted + {newId},
         labels := if isNew then w.history.labels[newId := InBatch(after, newId)] else w.history.labels,
         sealed := if isNew then w.history.sealed + [newId] else w.history.sealed))
  }

  function Apply(w: World, s: Step): World
    requires Enabled(w, s)
  {
    match s
    case Append(shift, fixes) =>
      w.(rows := Appended(w.rows, w.next, shift, fixes), next := w.next + |fixes|,
         history := w.history.(captured := w.history.captured + seq(|fixes|, i requires 0 <= i < |fixes| => fixes[i].1)))
    case SealNext(r, newId) => AfterSeal(w, r, newId)
    case ReadBack(r) =>
      var batch := ReadBatch(w.rows, Some(PhaseOf(w, r).id));
      w.(phases := w.phases[r := if batch.Some? then Holding(batch.value) else Idle])
    case Upload(r, stores, outcome) =>
      var batch := PhaseOf(w, r).batch;
      w.(phases := w.phases[r := Answered(batch.id, outcome)],
         stored := if stores && !IsStored(w.stored, batch.id) then w.stored + [batch] else w.stored,
         history := w.history.(uploads := w.history.uploads + [batch]))
    case Finish(r) =>
      var id, outcome := PhaseOf(w, r).id, PhaseOf(w, r).outcome;
      w.(phases := w.phases[r := Idle],
         rows := if Settles(outcome) then Without(w.rows, id) else w.rows,
         history := if Settles(outcome) && id !in w.history.settled
                    then w.history.(settled := w.history.settled[id := outcome]) else w.history)
    case Die(r) => w.(phases := w.phases[r := Idle])
  }

  predicate Initial(w: World) {
    w == World([], 0, map[], [], History({}, map[], [], [], map[], []))
  }

  ghost predicate Legal(w: World, run: seq<Step>)
    decreases |run|, 0
  {
    run == [] || LastIsLegal(w, run)
  }

  ghost predicate LastIsLegal(w: World, run: seq<Step>)
    requires run != []
    decreases |run| - 1, 2
  {
    Legal(w, run[..|run| - 1]) && Enabled(After(w, run[..|run| - 1]), run[|run| - 1])
  }

  ghost function After(w: World, run: seq<Step>): World
    requires Legal(w, run)
    decreases |run|, 1
  {
    if run == [] then w else AfterLast(w, run)
  }

  ghost function AfterLast(w: World, run: seq<Step>): World
    requires run != [] && LastIsLegal(w, run)
    decreases |run| - 1, 3
  {
    Apply(After(w, run[..|run| - 1]), run[|run| - 1])
  }

  // ── The invariant ──────────────────────────────────────────────────────────

  /** What is in the table under an id is all that was sealed under it, or gone. */
  ghost predicate TableIsLabelled(w: World) {
    && Sound(w.rows) && AllBefore(w.rows, w.next)
    && forall id :: NoBatch(w.rows, id) || (id in w.history.labels && InBatch(w.rows, id) == w.history.labels[id])
  }

  ghost predicate IsLabel(rows: seq<Row>, id: Uuid, next: nat) {
    && rows != [] && |rows| <= 1000 && Ascending(rows)
    && forall x :: x in rows ==> x.batch == Some(id) && x.shift == rows[0].shift && x.order < next
  }

  ghost predicate Apart(a: seq<Row>, b: seq<Row>) { forall x, y :: x in a && y in b ==> x.order != y.order }

  /** No point is sealed under two ids, and an id is used once. */
  ghost predicate LabelsAreApart(w: World) {
    var h := w.history;
    && h.labels.Keys <= h.minted && Distinct(h.sealed) && (forall id :: id in h.sealed <==> id in h.labels)
    && (forall id :: id in h.labels ==> IsLabel(h.labels[id], id, w.next))
    && (forall a, b :: a in h.labels && b in h.labels && a != b ==> Apart(h.labels[a], h.labels[b]))
    && (forall id, x :: id in h.labels && x in w.rows && x.batch.None? ==> Apart(h.labels[id], [x]))
  }

  /** Batches of one shift are sealed in capture order, and before everything still unsealed. */
  ghost predicate SealedInOrder(w: World) {
    var h := w.history;
    && (forall i, j :: 0 <= i < j < |h.sealed| && h.sealed[i] in h.labels && h.sealed[j] in h.labels
          ==> Precedes(h.labels[h.sealed[i]], h.labels[h.sealed[j]]))
    && (forall id, x :: id in h.labels && x in w.rows && x.batch.None? ==> Precedes(h.labels[id], [x]))
  }

  /** The batch is what was sealed under its id. */
  ghost predicate IsBatchOf(h: History, b: Batch) {
    b.id in h.labels && b.positions == Readable(h.labels[b.id]) && h.labels[b.id] != [] && b.shift == h.labels[b.id][0].shift
  }

  ghost predicate HandsAreLabels(w: World) {
    && (forall r :: r in w.phases ==>
          match w.phases[r]
          case Idle => true
          case Chosen(id) => id in w.history.labels
          case Holding(batch) => IsBatchOf(w.history, batch)
          case Answered(id, outcome) => id in w.history.labels && (outcome.Accepted? ==> IsStored(w.stored, id)))
    && (forall b :: b in w.history.uploads ==> IsBatchOf(w.history, b))
    && (forall b :: b in w.stored ==> b in w.history.uploads)
    && (forall i, j :: 0 <= i < j < |w.stored| ==> w.stored[i].id != w.stored[j].id)
    && (forall id :: id in w.history.settled ==>
          id in w.history.labels && Settles(w.history.settled[id])
          && (w.history.settled[id].Accepted? ==> IsStored(w.stored, id)))
  }

  ghost predicate Queued(rows: seq<Row>, o: nat) { exists x :: x in rows && x.order == o }

  /** Every point ever captured is queued, or was in a batch the server settled. */
  ghost predicate NothingIsLost(w: World) {
    forall o: nat :: o < w.next ==>
      Queued(w.rows, o) || exists id :: id in w.history.settled && id in w.history.labels && Queued(w.history.labels[id], o)
  }

  ghost predicate AreCaptured(captured: seq<Option<Position>>, rows: seq<Row>) {
    forall x :: x in rows ==> x.order < |captured| && x.body == captured[x.order]
  }

  /** Every row, queued or sealed, has the body it was captured with. */
  ghost predicate BodiesAreKept(w: World) {
    && |w.history.captured| == w.next && AreCaptured(w.history.captured, w.rows)
    && forall id :: id in w.history.labels ==> AreCaptured(w.history.captured, w.history.labels[id])
  }

  ghost predicate Inv(w: World) {
    && TableIsLabelled(w) && LabelsAreApart(w) && SealedInOrder(w) && HandsAreLabels(w) && NothingIsLost(w) && BodiesAreKept(w)
  }

  // ── Appending ──────────────────────────────────────────────────────────────

  lemma {:induction false} AppendedIsSound(rows: seq<Row>, next: nat, shift: Uuid, fixes: seq<(int, Option<Position>)>)
    requires Sound(rows) && AllBefore(rows, next)
    ensures var after := Appended(rows, next, shift, fixes);
            && Sound(after) && AllBefore(after, next + |fixes|) && forall id :: InBatch(after, id) == InBatch(rows, id)
  {
    if fixes == [] {
      assert Appended(rows, next, shift, fixes) == rows;
    } else {
      var n := |fixes| - 1;
      var before, x := Appended(rows, next, shift, fixes[..n]), Row(next + n, shift, fixes[n].0, fixes[n].1, None);
      AppendedIsSound(rows, next, shift, fixes[..n]);
      assert Appended(rows, next, shift, fixes) == before + [x];
      OneMoreRow(before, x);
      forall id ensures InBatch(before + [x], id) == InBatch(before, id) { InBatchAppend(before, [x], id); }
    }
  }

  lemma AppendedRows(rows: seq<Row>, next: nat, shift: Uuid, fixes: seq<(int, Option<Position>)>)
    ensures var after := Appended(rows, next, shift, fixes);
            && (forall x :: x in after ==> x in rows || (x.order >= next && x.batch.None?))
            && (forall x :: x in after && x !in rows ==> x.order - next < |fixes| && x.body == fixes[x.order - next].1)
            && (forall x :: x in rows ==> x in after)
            && (forall o: nat :: next <= o < next + |fixes| ==> Queued(after, o))
  {
    var after := Appended(rows, next, shift, fixes);
    forall o: nat | next <= o < next + |fixes| ensures Queued(after, o) {
      assert after[|rows| + (o - next)] in after;
    }
  }

  lemma AppendKeeps(w: World, s: Step)
    requires Inv(w) && s.Append?
    ensures Inv(Apply(w, s))
  {
    var w' := Apply(w, s);
    AppendedIsSound(w.rows, w.next, s.shift, s.fixes);
    AppendedRows(w.rows, w.next, s.shift, s.fixes);
    forall id ensures NoBatch(w.rows, id) ==> NoBatch(w'.rows, id) {}
    AppendKeepsLabels(w, w');
    AppendKeepsBodies(w, s);
    forall o: nat | o < w'.next
      ensures Queued(w'.rows, o) || exists id :: id in w.history.settled && id in w.history.labels && Queued(w.history.labels[id], o)
    {
      if Queued(w.rows, o) { QueuedIn(w.rows, w'.rows, o); }
    }
  }

  lemma AppendKeepsBodies(w: World, s: Step)
    requires BodiesAreKept(w) && s.Append?
    ensures BodiesAreKept(Apply(w, s))
  {
    AppendedRows(w.rows, w.next, s.shift, s.fixes);
  }

  lemma QueuedIn(a: seq<Row>, b: seq<Row>, o: nat)
    requires Queued(a, o) && forall x :: x in a ==> x in b
    ensures Queued(b, o)
  {
  }

  lemma AppendKeepsLabels(w: World, w': World)
    requires LabelsAreApart(w) && SealedInOrder(w) && w'.history.(captured := []) == w.history.(captured := []) && w.next <= w'.next
    requires forall x :: x in w'.rows ==> x in w.rows || (x.order >= w.next && x.batch.None?)
    ensures LabelsAreApart(w') && SealedInOrder(w')
  {
    var h := w.history;
    forall id, x | id in h.labels && x in w'.rows && x.batch.None? ensures Apart(h.labels[id], [x]) && Precedes(h.labels[id], [x]) {
      if x !in w.rows { assert IsLabel(h.labels[id], id, w.next); }
    }
  }

  // ── Sealing ────────────────────────────────────────────────────────────────

  /** A sealed row is a queued row with a label. */
  lemma Underlying(rows: seq<Row>, after: seq<Row>, x: Row) returns (y: Row)
    requires |after| == |rows| && (forall i :: 0 <= i < |rows| ==> SameFix(after[i], rows[i])) && x in after
    requires forall i :: 0 <= i < |rows| ==> rows[i].batch.None?
    ensures y in rows && SameFix(x, y) && y.batch.None? && (x.batch.None? ==> x == y)
  {
    var i :| 0 <= i < |after| && after[i] == x;
    y := rows[i];
  }

  lemma SealKeepsTable(w: World, s: Step)
    requires TableIsLabelled(w) && LabelsAreApart(w) && s.SealNext? && Enabled(w, s)
    ensures TableIsLabelled(Apply(w, s))
  {
    var w' := Apply(w, s);
    FirstSealedMeaning(w.rows);
    if FirstSealed(w.rows).None? && w.rows != [] {
      assert NoBatch(w.rows, s.newId);
      SealingMeaning(w.rows, s.newId);
      SealKeepsOrders(w.rows, s.newId, w.next);
      forall id ensures NoBatch(w'.rows, id) || (id in w'.history.labels && InBatch(w'.rows, id) == w'.history.labels[id]) {
        if id != s.newId { assert NoBatch(w.rows, id); }
      }
    }
  }

  lemma SealKeepsLabels(w: World, s: Step)
    requires TableIsLabelled(w) && LabelsAreApart(w) && SealedInOrder(w) && s.SealNext? && Enabled(w, s)
    ensures LabelsAreApart(Apply(w, s)) && SealedInOrder(Apply(w, s))
  {
    FirstSealedMeaning(w.rows);
    if FirstSealed(w.rows).None? && w.rows != [] {
      assert NoBatch(w.rows, s.newId);
      SealingMeaning(w.rows, s.newId);
      SealKeepsOrders(w.rows, s.newId, w.next);
      var after := Sealing(w.rows, s.newId).0;
      InBatchMeaning(after, s.newId);
      NewLabel(w, after, InBatch(after, s.newId), s.newId, Apply(w, s));
    } else {
      assert Apply(w, s).rows == w.rows;
    }
  }

  lemma NewLabel(w: World, after: seq<Row>, batch: seq<Row>, id: Uuid, w': World)
    requires LabelsAreApart(w) && SealedInOrder(w) && id !in w.history.minted
    requires Ascending(after) && AllBefore(after, w.next) && |after| == |w.rows|
    requires forall i :: 0 <= i < |w.rows| ==> SameFix(after[i], w.rows[i]) && w.rows[i].batch.None?
    requires IsOldest(after, batch) && Ascending(batch) && forall x :: x in batch <==> x in after && x.batch == Some(id)
    requires w'.rows == after && w'.next == w.next
    requires w'.history == w.history.(minted := w.history.minted + {id}, labels := w.history.labels[id := batch],
                                      sealed := w.history.sealed + [id])
    ensures LabelsAreApart(w') && SealedInOrder(w')
  {
    var h := w.history;
    forall x | x in batch ensures x.order < w.next { assert x in after; }
    forall other | other in h.labels ensures Behind(h.labels[other], after) { StillBehind(w, after, other); }
    forall other | other in h.labels ensures Behind(h.labels[other], batch) && Apart(batch, h.labels[other]) {
      assert forall x :: x in batch ==> x in after;
    }
    forall x | x in after && x.batch.None? ensures Behind(batch, [x]) { Later(after, batch, x); }
    AddedApart(h, batch, id, w');
    AddedInOrder(h, batch, id, w');
  }

  /** Another, older and later part of the queue. */
  ghost predicate Behind(a: seq<Row>, b: seq<Row>) { Apart(a, b) && Precedes(a, b) }

  lemma StillBehind(w: World, after: seq<Row>, other: Uuid)
    requires LabelsAreApart(w) && SealedInOrder(w) && other in w.history.labels && |after| == |w.rows|
    requires forall i :: 0 <= i < |w.rows| ==> SameFix(after[i], w.rows[i]) && w.rows[i].batch.None?
    ensures Behind(w.history.labels[other], after)
  {
    var batch := w.history.labels[other];
    forall x, y | x in batch && y in after ensures x.order != y.order && (x.shift == y.shift ==> x.order < y.order) {
      var z := Underlying(w.rows, after, y);
      assert Apart(batch, [z]) && Precedes(batch, [z]) && z in [z];
    }
  }

  lemma AddedApart(h: History, batch: seq<Row>, id: Uuid, w': World)
    requires h.labels.Keys <= h.minted && Distinct(h.sealed) && (forall k :: k in h.sealed <==> k in h.labels) && id !in h.minted
    requires forall k :: k in h.labels ==> IsLabel(h.labels[k], k, w'.next)
    requires forall a, b :: a in h.labels && b in h.labels && a != b ==> Apart(h.labels[a], h.labels[b])
    requires IsLabel(batch, id, w'.next)
    requires forall k :: k in h.labels ==> Apart(h.labels[k], batch) && Apart(batch, h.labels[k])
    requires forall k, x :: k in h.labels && x in w'.rows && x.batch.None? ==> Apart(h.labels[k], [x])
    requires forall x :: x in w'.rows && x.batch.None? ==> Apart(batch, [x])
    requires w'.history.minted == h.minted + {id} && w'.history.labels == h.labels[id := batch] && w'.history.sealed == h.sealed + [id]
    ensures LabelsAreApart(w')
  {
  }

  lemma AddedInOrder(h: History, batch: seq<Row>, id: Uuid, w': World)
    requires id !in h.labels && (forall k :: k in h.sealed ==> k in h.labels)
    requires forall i, j :: 0 <= i < j < |h.sealed| && h.sealed[i] in h.labels && h.sealed[j] in h.labels
               ==> Precedes(h.labels[h.sealed[i]], h.labels[h.sealed[j]])
    requires forall k :: k in h.labels ==> Precedes(h.labels[k], batch)
    requires forall k, x :: k in h.labels && x in w'.rows && x.batch.None? ==> Precedes(h.labels[k], [x])
    requires forall x :: x in w'.rows && x.batch.None? ==> Precedes(batch, [x])
    requires w'.history.labels == h.labels[id := batch] && w'.history.sealed == h.sealed + [id]
    ensures SealedInOrder(w')
  {
    var all, labels := h.sealed + [id], h.labels[id := batch];
    forall i, j | 0 <= i < j < |all| && all[i] in labels && all[j] in labels ensures Precedes(labels[all[i]], labels[all[j]]) {
      assert all[i] == h.sealed[i] && h.sealed[i] in h.labels;
      if j < |h.sealed| { assert all[j] == h.sealed[j] && h.sealed[j] in h.labels; }
    }
  }

  lemma Later(after: seq<Row>, batch: seq<Row>, x: Row)
    requires Ascending(after) && IsOldest(after, batch) && x in after && x !in batch
    ensures Behind(batch, [x])
  {
    forall y | y in batch ensures y.order != x.order {
      if y.order == x.order { SameRow(after, y, x); }
    }
  }

  lemma SealKeeps(w: World, s: Step)
    requires Inv(w) && s.SealNext? && Enabled(w, s)
    ensures Inv(Apply(w, s))
  {
    SealKeepsTable(w, s);
    SealKeepsLabels(w, s);
    SealKeepsHands(w, s);
    SealLosesNothing(w, s);
    SealKeepsBodies(w, s);
  }

  lemma SealKeepsBodies(w: World, s: Step)
    requires TableIsLabelled(w) && LabelsAreApart(w) && BodiesAreKept(w) && s.SealNext? && Enabled(w, s)
    ensures BodiesAreKept(Apply(w, s))
  {
    assert NoBatch(w.rows, s.newId);
    SealingMeaning(w.rows, s.newId);
    var after := Sealing(w.rows, s.newId).0;
    RelabelledAreCaptured(w.history.captured, w.rows, after);
    InBatchMeaning(after, s.newId);
  }

  lemma RelabelledAreCaptured(captured: seq<Option<Position>>, a: seq<Row>, b: seq<Row>)
    requires AreCaptured(captured, a) && |a| == |b| && forall i :: 0 <= i < |a| ==> SameFix(b[i], a[i])
    ensures AreCaptured(captured, b)
  {
    forall x | x in b ensures x.order < |captured| && x.body == captured[x.order] {
      var i :| 0 <= i < |b| && b[i] == x;
      assert a[i] in a;
    }
  }

  lemma SealKeepsHands(w: World, s: Step)
    requires TableIsLabelled(w) && LabelsAreApart(w) && HandsAreLabels(w) && s.SealNext? && Enabled(w, s)
    ensures HandsAreLabels(Apply(w, s))
  {
    FirstSealedMeaning(w.rows);
    var h, h' := w.history, Apply(w, s).history;
    assert forall id :: id in h.labels ==> id in h'.labels && h'.labels[id] == h.labels[id];
    forall b | IsBatchOf(h, b) ensures IsBatchOf(h', b) {}
    if FirstSealed(w.rows).Some? {
      var id := FirstSealed(w.rows).value;
      assert !NoBatch(w.rows, id);
    }
  }

  lemma SealLosesNothing(w: World, s: Step)
    requires TableIsLabelled(w) && LabelsAreApart(w) && NothingIsLost(w) && s.SealNext? && Enabled(w, s)
    ensures NothingIsLost(Apply(w, s))
  {
    var w' := Apply(w, s);
    assert NoBatch(w.rows, s.newId);
    SealingMeaning(w.rows, s.newId);
    var after := Sealing(w.rows, s.newId).0;
    forall o: nat | o < w'.next
      ensures Queued(w'.rows, o)
              || exists id :: id in w'.history.settled && id in w'.history.labels && Queued(w'.history.labels[id], o)
    {
      if Queued(w.rows, o) {
        RelabelledIsQueued(w.rows, after, o);
      } else {
        var id :| id in w.history.settled && id in w.history.labels && Queued(w.history.labels[id], o);
        assert w'.history.labels[id] == w.history.labels[id];
      }
    }
  }

  lemma RelabelledIsQueued(a: seq<Row>, b: seq<Row>, o: nat)
    requires Queued(a, o) && |a| == |b| && forall i :: 0 <= i < |a| ==> SameFix(b[i], a[i])
    ensures Queued(b, o)
  {
    var x :| x in a && x.order == o;
    var i :| 0 <= i < |a| && a[i] == x;
    assert b[i] in b;
  }

  // ── The other steps ────────────────────────────────────────────────────────

  lemma {:induction false} InBatchWithout(rows: seq<Row>, id: Uuid, other: Uuid)
    ensures InBatch(Without(rows, id), other) == if other == id then [] else InBatch(rows, other)
  {
    if rows != [] {
      InBatchWithout(rows[1..], id, other);
      if rows[0].batch != Some(id) {
        assert Without(rows, id)[0] == rows[0] && Without(rows, id)[1..] == Without(rows[1..], id);
      } else {
        assert Without(rows, id) == Without(rows[1..], id);
      }
    }
  }

  lemma FinishKeeps(w: World, s: Step)
    requires Inv(w) && s.Finish? && Enabled(w, s)
    ensures Inv(Apply(w, s))
  {
    FinishKeepsHands(w, s);
    FinishKeepsRows(w, s);
    var p := PhaseOf(w, s.runtime);
    WithoutMeaning(w.rows, p.id);
  }

  lemma FinishKeepsHands(w: World, s: Step)
    requires HandsAreLabels(w) && s.Finish? && Enabled(w, s)
    ensures HandsAreLabels(Apply(w, s))
  {
  }

  lemma FinishKeepsRows(w: World, s: Step)
    requires TableIsLabelled(w) && LabelsAreApart(w) && SealedInOrder(w) && HandsAreLabels(w) && NothingIsLost(w)
    requires s.Finish? && Enabled(w, s)
    ensures var v := Apply(w, s); TableIsLabelled(v) && LabelsAreApart(v) && SealedInOrder(v) && NothingIsLost(v)
  {
    var p, w' := PhaseOf(w, s.runtime), Apply(w, s);
    if Settles(p.outcome) {
      RemovalKeepsTable(w, p.id, w');
      RemovalLosesNothing(w, p.id, w');
      RemovalKeepsLabels(w, p.id, w');
    } else {
      assert w'.rows == w.rows && w'.history == w.history && w'.next == w.next;
    }
  }

  lemma RemovalKeepsLabels(w: World, id: Uuid, w': World)
    requires LabelsAreApart(w) && SealedInOrder(w) && w'.rows == Without(w.rows, id) && w'.next == w.next
    requires w'.history.labels == w.history.labels && w'.history.sealed == w.history.sealed && w'.history.minted == w.history.minted
    ensures LabelsAreApart(w') && SealedInOrder(w')
  {
    WithoutMeaning(w.rows, id);
    assert forall x :: x in w'.rows ==> x in w.rows;
  }

  lemma RemovalKeepsTable(w: World, id: Uuid, w': World)
    requires TableIsLabelled(w) && w'.rows == Without(w.rows, id) && w'.next == w.next && w'.history.labels == w.history.labels
    ensures TableIsLabelled(w')
  {
    WithoutIsSound(w.rows, id);
    WithoutMeaning(w.rows, id);
    forall i | 0 <= i < |w'.rows| ensures w'.rows[i].order < w.next { assert w'.rows[i] in w.rows; }
    forall k ensures NoBatch(w'.rows, k) || (k in w.history.labels && InBatch(w'.rows, k) == w.history.labels[k]) {
      if k != id { InBatchWithout(w.rows, id, k); }
    }
  }

  lemma RemovalLosesNothing(w: World, id: Uuid, w': World)
    requires TableIsLabelled(w) && NothingIsLost(w) && w'.rows == Without(w.rows, id) && w'.next == w.next
    requires w'.history.labels == w.history.labels && id in w.history.labels && id in w'.history.settled
    requires forall k :: k in w.history.settled ==> k in w'.history.settled
    ensures NothingIsLost(w')
  {
    WithoutMeaning(w.rows, id);
    InBatchMeaning(w.rows, id);
    forall o: nat | o < w'.next
      ensures Queued(w'.rows, o)
              || exists k :: k in w'.history.settled && k in w'.history.labels && Queued(w'.history.labels[k], o)
    {
      if Queued(w.rows, o) {
        var x :| x in w.rows && x.order == o;
        if x.batch == Some(id) {
          assert x in InBatch(w.rows, id) && !NoBatch(w.rows, id);
          assert Queued(w'.history.labels[id], o);
        } else {
          assert x in w'.rows;
        }
      }
    }
  }

  lemma ReadBackKeeps(w: World, s: Step)
    requires Inv(w) && s.ReadBack? && Enabled(w, s)
    ensures Inv(Apply(w, s))
  {
    var id := PhaseOf(w, s.runtime).id;
    EmptyBatchOr(w.rows, id);
  }

  lemma EmptyBatchOr(rows: seq<Row>, id: Uuid)
    ensures NoBatch(rows, id) ==> InBatch(rows, id) == []
  {
    if NoBatch(rows, id) { EmptyBatch(rows, id); }
  }

  lemma UploadKeeps(w: World, s: Step)
    requires Inv(w) && s.Upload? && Enabled(w, s)
    ensures Inv(Apply(w, s))
  {
    var batch, w' := PhaseOf(w, s.runtime).batch, Apply(w, s);
    assert w'.rows == w.rows && w'.next == w.next && w'.history.labels == w.history.labels
           && w'.history.sealed == w.history.sealed && w'.history.settled == w.history.settled;
    StoredOnceMore(w.stored, batch, s.stores);
    UploadKeepsHands(w, s, w'.stored);
  }

  /** The server's store after an upload. */
  function Storing(stored: seq<Batch>, b: Batch, stores: bool): seq<Batch> {
    if stores && !IsStored(stored, b.id) then stored + [b] else stored
  }

  lemma StoredOnceMore(stored: seq<Batch>, b: Batch, stores: bool)
    requires forall i, j :: 0 <= i < j < |stored| ==> stored[i].id != stored[j].id
    ensures var after := Storing(stored, b, stores);
            && (forall i, j :: 0 <= i < j < |after| ==> after[i].id != after[j].id)
            && (forall id :: IsStored(stored, id) ==> IsStored(after, id)) && (stores ==> IsStored(after, b.id))
            && (forall x :: x in after ==> x in stored || x == b)
  {
    var after := Storing(stored, b, stores);
    forall id | IsStored(stored, id) ensures IsStored(after, id) { StillStored(stored, b, id); }
    if stores && !IsStored(stored, b.id) {
      assert after[|stored|] in after;
      forall i, j | 0 <= i < j < |after| ensures after[i].id != after[j].id {
        if j == |stored| { assert stored[i] in stored; }
      }
    }
  }

  lemma UploadKeepsHands(w: World, s: Step, after: seq<Batch>)
    requires HandsAreLabels(w) && s.Upload? && Enabled(w, s) && after == Apply(w, s).stored
    requires forall i, j :: 0 <= i < j < |after| ==> after[i].id != after[j].id
    requires forall id :: IsStored(w.stored, id) ==> IsStored(after, id)
    requires s.stores ==> IsStored(after, PhaseOf(w, s.runtime).batch.id)
    requires forall x :: x in after ==> x in w.stored || x == PhaseOf(w, s.runtime).batch
    ensures HandsAreLabels(Apply(w, s))
  {
  }

  lemma StillStored(stored: seq<Batch>, b: Batch, id: Uuid)
    requires IsStored(stored, id)
    ensures IsStored(stored + [b], id)
  {
    var x :| x in stored && x.id == id;
    assert x in stored + [b];
  }

  lemma KeepsInv(w: World, s: Step)
    requires Inv(w) && Enabled(w, s)
    ensures Inv(Apply(w, s))
  {
    match s
    case Append(_, _) => AppendKeeps(w, s);
    case SealNext(_, _) => SealKeeps(w, s);
    case ReadBack(_) => ReadBackKeeps(w, s);
    case Upload(_, _, _) => UploadKeeps(w, s);
    case Finish(_) => FinishKeeps(w, s);
    case Die(_) =>
  }

  lemma StartIsSound(w: World)
    requires Initial(w)
    ensures Inv(w)
  {
    assert forall id :: InBatch([], id) == [];
  }

  lemma {:induction false} RunsKeepInv(start: World, run: seq<Step>)
    requires Initial(start) && Legal(start, run)
    ensures Inv(After(start, run))
  {
    if run == [] {
      StartIsSound(start);
    } else {
      assert LastIsLegal(start, run);
      assert After(start, run) == AfterLast(start, run);
      RunsKeepInv(start, run[..|run| - 1]);
      KeepsInv(After(start, run[..|run| - 1]), run[|run| - 1]);
    }
  }

  // ── The theorems ───────────────────────────────────────────────────────────

  /** The batch is made of captured points, in capture order: those with these numbers. */
  ghost predicate IsMadeOf(captured: seq<Option<Position>>, b: Batch, numbers: seq<nat>) {
    && Increasing(numbers) && |numbers| == |b.positions|
    && forall i :: 0 <= i < |numbers| ==> numbers[i] < |captured| && captured[numbers[i]] == Some(b.positions[i])
  }

  /** Number `o` was sealed under the id, and it can be read. */
  ghost predicate WentWith(w: World, id: Uuid, o: nat) {
    id in w.history.labels && Queued(w.history.labels[id], o) && o < |w.history.captured| && w.history.captured[o] != None
  }

  lemma {:induction false} AllInBatch(rows: seq<Row>, id: Uuid)
    requires forall i :: 0 <= i < |rows| ==> rows[i].batch == Some(id)
    ensures InBatch(rows, id) == rows
  {
    if rows != [] {
      AllInBatch(rows[1..], id);
      assert rows == [rows[0]] + rows[1..];
    }
  }

  /** The rows at these places, by number. */
  function NumbersAt(rows: seq<Row>, at: seq<nat>): (r: seq<nat>)
    requires forall i :: 0 <= i < |at| ==> at[i] < |rows|
    ensures |r| == |at| && forall i :: 0 <= i < |r| ==> r[i] == rows[at[i]].order
  {
    seq(|at|, i requires 0 <= i < |at| => rows[at[i]].order)
  }

  /** Every batch sent or stored carries exactly the readable points sealed under its id. */
  lemma MadeOf(w: World, b: Batch) returns (numbers: seq<nat>)
    requires Inv(w) && IsBatchOf(w.history, b)
    ensures IsMadeOf(w.history.captured, b, numbers) && forall o: nat :: o in numbers <==> WentWith(w, b.id, o)
  {
    var rows := w.history.labels[b.id];
    assert forall i :: 0 <= i < |rows| ==> rows[i] in rows;
    AllInBatch(rows, b.id);
    var at := BatchAt(rows, b.id);
    numbers := NumbersAt(rows, at);
    BodiesAt(w.history.captured, rows, b, at);
    forall o: nat ensures o in numbers <==> WentWith(w, b.id, o) { NumberIsThere(w.history.captured, rows, b, at, o); }
  }

  lemma BodiesAt(captured: seq<Option<Position>>, rows: seq<Row>, b: Batch, at: seq<nat>)
    requires Ascending(rows) && AreCaptured(captured, rows) && IsBatch(rows, b.id, b.positions, at)
    ensures IsMadeOf(captured, b, NumbersAt(rows, at))
  {
    forall i | 0 <= i < |at| ensures rows[at[i]].order < |captured| && captured[rows[at[i]].order] == Some(b.positions[i]) {
      assert rows[at[i]] in rows;
    }
  }

  lemma NumberIsThere(captured: seq<Option<Position>>, rows: seq<Row>, b: Batch, at: seq<nat>, o: nat)
    requires AreCaptured(captured, rows) && IsBatch(rows, b.id, b.positions, at)
    requires forall i :: 0 <= i < |rows| ==> rows[i].batch == Some(b.id)
    ensures o in NumbersAt(rows, at) <==> Queued(rows, o) && o < |captured| && captured[o] != None
  {
    var numbers := NumbersAt(rows, at);
    if o in numbers {
      var i :| 0 <= i < |numbers| && numbers[i] == o;
      assert rows[at[i]] in rows;
    }
    if Queued(rows, o) && o < |captured| && captured[o] != None {
      var x :| x in rows && x.order == o;
      var k: nat :| k < |rows| && rows[k] == x;
      assert k in at;
      var i :| 0 <= i < |at| && at[i] == k;
      assert numbers[i] == o;
    }
  }

  /** However the runtimes interleave, what is sent under one id is always the same captured points. */
  lemma SameIdSamePoints(start: World, run: seq<Step>, a: Batch, b: Batch) returns (numbers: seq<nat>)
    requires Initial(start) && Legal(start, run)
    requires a in After(start, run).history.uploads && b in After(start, run).history.uploads && a.id == b.id
    ensures a == b && IsMadeOf(After(start, run).history.captured, a, numbers)
    ensures forall o: nat :: o in numbers <==> WentWith(After(start, run), a.id, o)
  {
    RunsKeepInv(start, run);
    numbers := MadeOf(After(start, run), a);
  }

  ghost predicate AreMadeOf(w: World, n: nat, numbers: seq<seq<nat>>)
    requires n <= |w.stored|
  {
    && |numbers| == n
    && forall i :: 0 <= i < n ==>
         IsMadeOf(w.history.captured, w.stored[i], numbers[i]) && forall o: nat :: o in numbers[i] <==> WentWith(w, w.stored[i].id, o)
  }

  lemma {:induction false} StoredAreMadeOf(w: World, n: nat) returns (numbers: seq<seq<nat>>)
    requires Inv(w) && n <= |w.stored|
    ensures AreMadeOf(w, n, numbers)
  {
    if n == 0 {
      numbers := [];
    } else {
      var before := StoredAreMadeOf(w, n - 1);
      assert w.stored[n - 1] in w.stored;
      var last := MadeOf(w, w.stored[n - 1]);
      numbers := before + [last];
    }
  }

  lemma SealedOnce(w: World, a: Uuid, b: Uuid, o: nat)
    requires LabelsAreApart(w) && a != b
    ensures !(WentWith(w, a, o) && WentWith(w, b, o))
  {
  }

  /**
   * The stored batches are made of captured points, in capture order. No point is in two of them, and each readable point
   * sealed under an id that was settled as accepted is in the one stored under that id.
   */
  lemma StoredOnce(start: World, run: seq<Step>) returns (numbers: seq<seq<nat>>)
    requires Initial(start) && Legal(start, run)
    ensures var w := After(start, run);
            && |numbers| == |w.stored| && (forall i :: 0 <= i < |numbers| ==> IsMadeOf(w.history.captured, w.stored[i], numbers[i]))
            && (forall i, j, o :: 0 <= i < j < |numbers| && o in numbers[i] ==> o !in numbers[j])
            && (forall id, o :: id in w.history.settled && w.history.settled[id] == Accepted && WentWith(w, id, o)
                  ==> exists i :: 0 <= i < |numbers| && w.stored[i].id == id && o in numbers[i])
  {
    RunsKeepInv(start, run);
    var w := After(start, run);
    numbers := StoredAreMadeOf(w, |w.stored|);
    forall i, j, o | 0 <= i < j < |numbers| && o in numbers[i] ensures o !in numbers[j] {
      SealedOnce(w, w.stored[i].id, w.stored[j].id, o);
    }
    forall id, o | id in w.history.settled && w.history.settled[id] == Accepted && WentWith(w, id, o)
      ensures exists i :: 0 <= i < |numbers| && w.stored[i].id == id && o in numbers[i]
    {
      var b :| b in w.stored && b.id == id;
      var i :| 0 <= i < |w.stored| && w.stored[i] == b;
      assert o in numbers[i];
    }
  }

  /** What became of a point that is no longer queued: the server stored it with its batch, or gave the batch up. */
  ghost predicate WasSettled(w: World, o: nat, id: Uuid)
    requires o < |w.history.captured|
  {
    && id in w.history.settled
    && match w.history.settled[id]
       case Accepted => w.history.captured[o] != None ==> exists b :: b in w.stored && b.id == id && w.history.captured[o].value in b.positions
       case Invalid => true
       case OutsideShift => true
       case _ => false
  }

  /**
   * Every captured point is queued as it was captured, until a batch with it is accepted, and then it is among the points
   * stored under the batch's id, or refused as malformed or out of its shift.
   */
  lemma CapturedIsKept(start: World, run: seq<Step>, o: nat)
    requires Initial(start) && Legal(start, run) && o < After(start, run).next
    ensures var w := After(start, run);
            && o < |w.history.captured|
            && ((exists x :: x in w.rows && x.order == o && x.body == w.history.captured[o]) || exists id :: WasSettled(w, o, id))
  {
    RunsKeepInv(start, run);
    var w := After(start, run);
    if !Queued(w.rows, o) {
      var id :| id in w.history.settled && id in w.history.labels && Queued(w.history.labels[id], o);
      if w.history.settled[id].Accepted? && w.history.captured[o].Some? { IsAmongStored(w, id, o); }
      assert WasSettled(w, o, id);
    }
  }

  lemma IsAmongStored(w: World, id: Uuid, o: nat)
    requires Inv(w) && WentWith(w, id, o) && IsStored(w.stored, id)
    ensures exists b :: b in w.stored && b.id == id && w.history.captured[o].value in b.positions
  {
    var b :| b in w.stored && b.id == id;
    var numbers := MadeOf(w, b);
    assert o in numbers;
    var i :| 0 <= i < |numbers| && numbers[i] == o;
    assert b.positions[i] in b.positions;
  }

  /** A shift's batches are sealed in capture order, each of at most a thousand of its points, and at most one waits at a time. */
  lemma ShiftsAreSealedInOrder(start: World, run: seq<Step>, i: nat, j: nat)
    requires Initial(start) && Legal(start, run) && i < j < |After(start, run).history.sealed|
    ensures var w := After(start, run);
            var a, b := w.history.sealed[i], w.history.sealed[j];
            && a != b && a in w.history.labels && b in w.history.labels
            && IsLabel(w.history.labels[a], a, w.next) && IsLabel(w.history.labels[b], b, w.next)
            && Precedes(w.history.labels[a], w.history.labels[b]) && (NoBatch(w.rows, a) || NoBatch(w.rows, b))
  {
    RunsKeepInv(start, run);
    var w := After(start, run);
    var a, b := w.history.sealed[i], w.history.sealed[j];
    assert a in w.history.sealed && b in w.history.sealed;
    OneWaits(w.rows, a, b);
  }

  lemma OneWaits(rows: seq<Row>, a: Uuid, b: Uuid)
    requires Sound(rows) && a != b
    ensures NoBatch(rows, a) || NoBatch(rows, b)
  {
    if !NoBatch(rows, a) {
      var i :| 0 <= i < |rows| && rows[i].batch == Some(a);
      forall j | 0 <= j < |rows| ensures rows[j].batch != Some(b) { assert rows[i] in rows && rows[j] in rows; }
    }
  }
}
