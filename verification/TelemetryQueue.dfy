/** The telemetry queue: fixes in capture order, sealed into batches that keep their id until the server answers. */
module TelemetryQueue {
  import opened Common

  /** One point on the wire. */
  datatype Position = Position(t: string, lat: real, lon: real)

  /** A queued fix. A body that does not read back as a position is `None`. */
  datatype Row = Row(order: nat, shift: Uuid, at: int, body: Option<Position>, batch: Option<Uuid>)

  datatype Batch = Batch(id: Uuid, shift: Uuid, positions: seq<Position>)

  const MAX_BATCH := 1000

  // ── The table ──────────────────────────────────────────────────────────────

  /** The batch of the oldest sealed row. */
  function FirstSealed(rows: seq<Row>): Option<Uuid> {
    if rows == [] then None else if rows[0].batch.Some? then rows[0].batch else FirstSealed(rows[1..])
  }

  /** Seals the oldest `max` unsealed rows of a shift under one id. */
  function Seal(rows: seq<Row>, shift: Uuid, id: Uuid, max: nat): seq<Row> {
    if rows == [] then []
    else if max > 0 && rows[0].shift == shift && rows[0].batch.None?
      then [rows[0].(batch := Some(id))] + Seal(rows[1..], shift, id, max - 1)
    else [rows[0]] + Seal(rows[1..], shift, id, max)
  }

  function InBatch(rows: seq<Row>, id: Uuid): seq<Row> {
    if rows == [] then []
    else (if rows[0].batch == Some(id) then [rows[0]] else []) + InBatch(rows[1..], id)
  }

  function Without(rows: seq<Row>, id: Uuid): seq<Row> {
    if rows == [] then []
    else (if rows[0].batch == Some(id) then [] else [rows[0]]) + Without(rows[1..], id)
  }

  /** The points that read back. */
  function Readable(rows: seq<Row>): seq<Position> {
    if rows == [] then []
    else (if rows[0].body.Some? then [rows[0].body.value] else []) + Readable(rows[1..])
  }

  /** The transaction of `nextBatch`: the table after it, and the batch to send. */
  function Sealing(rows: seq<Row>, id: Uuid): (seq<Row>, Option<Uuid>) {
    if FirstSealed(rows).Some? then (rows, FirstSealed(rows))
    else if rows == [] then (rows, None)
    else (Seal(rows, rows[0].shift, id, MAX_BATCH), Some(id))
  }

  /** The query after the transaction: the batch as it is sent, unless its rows are gone. */
  function ReadBatch(rows: seq<Row>, id: Option<Uuid>): Option<Batch> {
    if id.None? then None
    else
      var mine := InBatch(rows, id.value);
      if mine == [] then None else Some(Batch(id.value, mine[0].shift, Readable(mine)))
  }

  function Appended(rows: seq<Row>, next: nat, shift: Uuid, fixes: seq<(int, Option<Position>)>): seq<Row> {
    rows + seq(|fixes|, i requires 0 <= i < |fixes| => Row(next + i, shift, fixes[i].0, fixes[i].1, None))
  }

  // ── What holds of the table ────────────────────────────────────────────────

  ghost predicate Ascending(rows: seq<Row>) {
    forall i, j :: 0 <= i < j < |rows| ==> rows[i].order < rows[j].order
  }

  /** The sealed rows are one batch: of one shift, its oldest, and within the server's cap. */
  ghost predicate Sound(rows: seq<Row>) {
    && Ascending(rows)
    && (forall x, y :: x in rows && y in rows && x.batch.Some? && y.batch.Some? ==> x.batch == y.batch && x.shift == y.shift)
    && (forall x, y :: x in rows && y in rows && x.shift == y.shift && x.order < y.order && y.batch.Some? ==> x.batch.Some?)
    && (forall id :: |InBatch(rows, id)| <= MAX_BATCH)
  }

  ghost predicate NoBatch(rows: seq<Row>, id: Uuid) { forall i :: 0 <= i < |rows| ==> rows[i].batch != Some(id) }

  ghost predicate AllBefore(rows: seq<Row>, next: nat) { forall i :: 0 <= i < |rows| ==> rows[i].order < next }

  ghost function Orders(rows: seq<Row>): set<nat> { set i | 0 <= i < |rows| :: rows[i].order }

  // ── Filters ────────────────────────────────────────────────────────────────

  lemma {:induction false} InBatchMeaning(rows: seq<Row>, id: Uuid)
    ensures forall x :: x in InBatch(rows, id) <==> x in rows && x.batch == Some(id)
    ensures Ascending(rows) ==> Ascending(InBatch(rows, id))
  {
    if rows != [] { InBatchMeaning(rows[1..], id); AscendingTail(rows); }
  }

  lemma {:induction false} EmptyBatch(rows: seq<Row>, id: Uuid)
    requires NoBatch(rows, id)
    ensures InBatch(rows, id) == []
  {
    if rows != [] { EmptyBatch(rows[1..], id); }
  }

  lemma {:induction false} WithoutMeaning(rows: seq<Row>, id: Uuid)
    ensures forall x :: x in Without(rows, id) <==> x in rows && x.batch != Some(id)
    ensures |InBatch(rows, id)| + |Without(rows, id)| == |rows|
    ensures Ascending(rows) ==> Ascending(Without(rows, id))
  {
    if rows != [] { WithoutMeaning(rows[1..], id); AscendingTail(rows); }
  }

  lemma AscendingTail(rows: seq<Row>)
    requires rows != []
    ensures Ascending(rows) ==> forall x :: x in rows[1..] ==> rows[0].order < x.order
    ensures Ascending(rows) ==> Ascending(rows[1..])
  {
  }

  lemma {:induction false} FirstSealedMeaning(rows: seq<Row>)
    ensures FirstSealed(rows).None? <==> forall i :: 0 <= i < |rows| ==> rows[i].batch.None?
    ensures FirstSealed(rows).Some? ==> exists i :: 0 <= i < |rows| && rows[i].batch == FirstSealed(rows)
  {
    if rows != [] {
      FirstSealedMeaning(rows[1..]);
      if rows[0].batch.None? && FirstSealed(rows).Some? {
        var i :| 0 <= i < |rows[1..]| && rows[1..][i].batch == FirstSealed(rows[1..]);
        assert rows[i + 1].batch == FirstSealed(rows);
      }
    }
  }

  /** It is the batch of the oldest row that has one. */
  lemma {:induction false} FirstSealedIsOldest(rows: seq<Row>) returns (i: nat)
    requires FirstSealed(rows).Some?
    ensures i < |rows| && rows[i].batch == FirstSealed(rows)
    ensures forall j :: 0 <= j < i ==> rows[j].batch.None?
  {
    i := 0;
    if rows[0].batch.None? {
      var k := FirstSealedIsOldest(rows[1..]);
      i := k + 1;
    }
  }

  predicate SameFix(a: Row, b: Row) { a.order == b.order && a.shift == b.shift && a.at == b.at && a.body == b.body }

  /** `Seal` labels the oldest rows of the shift and nothing else: all of them, or `max`. */
  lemma {:induction false} SealMeaning(rows: seq<Row>, shift: Uuid, id: Uuid, max: nat)
    requires NoBatch(rows, id)
    ensures var s := Seal(rows, shift, id, max);
            && |s| == |rows| && |InBatch(s, id)| <= max
            && (forall i :: 0 <= i < |s| ==>
                  SameFix(s[i], rows[i])
                  && (s[i].batch == rows[i].batch || (s[i].batch == Some(id) && rows[i].batch.None? && rows[i].shift == shift)))
            && (forall i, j :: 0 <= i < j < |s| && rows[i].shift == shift && s[j].batch == Some(id) ==> s[i].batch.Some?)
            && (|InBatch(s, id)| < max ==> forall i :: 0 <= i < |s| && rows[i].shift == shift ==> s[i].batch.Some?)
  {
    if rows != [] {
      var takes := max > 0 && rows[0].shift == shift && rows[0].batch.None?;
      SealMeaning(rows[1..], shift, id, if takes then max - 1 else max);
      if max == 0 { SealNothing(rows, shift, id); }
    }
  }

  lemma {:induction false} SealNothing(rows: seq<Row>, shift: Uuid, id: Uuid)
    ensures Seal(rows, shift, id, 0) == rows
  {
    if rows != [] { SealNothing(rows[1..], shift, id); }
  }

  // ── The points of a batch ──────────────────────────────────────────────────

  /** A batch as it is sent: the points of the rows under its id, in order, every one that has a body. */
  ghost predicate IsBatch(rows: seq<Row>, id: Uuid, points: seq<Position>, at: seq<nat>) {
    Increasing(at) && AreFrom(rows, id, points, at) && AllAt(rows, id, at)
  }

  ghost predicate AreFrom(rows: seq<Row>, id: Uuid, points: seq<Position>, at: seq<nat>) {
    && |points| == |at|
    && forall i :: 0 <= i < |at| ==> at[i] < |rows| && rows[at[i]].batch == Some(id) && rows[at[i]].body == Some(points[i])
  }

  ghost predicate AllAt(rows: seq<Row>, id: Uuid, at: seq<nat>) {
    forall k: nat :: k < |rows| && rows[k].batch == Some(id) && rows[k].body != None ==> k in at
  }

  lemma RowSkipped(x: Row, rows: seq<Row>, id: Uuid, points: seq<Position>, at: seq<nat>)
    requires IsBatch(rows, id, points, at) && (x.batch != Some(id) || x.body.None?)
    ensures IsBatch([x] + rows, id, points, Later(at))
  {
    PlaceSkipped(x, rows, id, at);
    assert AreFrom([x] + rows, id, points, Later(at));
  }

  lemma PlaceSkipped(x: Row, rows: seq<Row>, id: Uuid, at: seq<nat>)
    requires AllAt(rows, id, at) && (x.batch != Some(id) || x.body.None?)
    ensures AllAt([x] + rows, id, Later(at))
  {
    forall k: nat | k < |rows| && rows[k].batch == Some(id) && rows[k].body != None ensures k + 1 in Later(at) { assert k in at; }
  }

  lemma RowIncluded(x: Row, rows: seq<Row>, id: Uuid, points: seq<Position>, at: seq<nat>)
    requires IsBatch(rows, id, points, at) && x.batch == Some(id) && x.body.Some?
    ensures IsBatch([x] + rows, id, [x.body.value] + points, [0] + Later(at))
  {
    FirstPlace(at);
    PointIncluded(x, rows, id, points, at);
    PlaceIncluded(x, rows, id, at);
  }

  lemma PointIncluded(x: Row, rows: seq<Row>, id: Uuid, points: seq<Position>, at: seq<nat>)
    requires AreFrom(rows, id, points, at) && x.batch == Some(id) && x.body.Some?
    ensures AreFrom([x] + rows, id, [x.body.value] + points, [0] + Later(at))
  {
  }

  lemma PlaceIncluded(x: Row, rows: seq<Row>, id: Uuid, at: seq<nat>)
    requires AllAt(rows, id, at)
    ensures AllAt([x] + rows, id, [0] + Later(at))
  {
    FirstPlace(at);
    var all := [x] + rows;
    forall k: nat | k < |all| && all[k].batch == Some(id) && all[k].body != None ensures k in [0] + Later(at) {
      assert k > 0 ==> k - 1 in at;
    }
  }

  lemma {:induction false} BatchAt(rows: seq<Row>, id: Uuid) returns (at: seq<nat>)
    ensures IsBatch(rows, id, Readable(InBatch(rows, id)), at)
  {
    if rows == [] {
      at := [];
    } else {
      var rest := BatchAt(rows[1..], id);
      var mine := InBatch(rows[1..], id);
      assert rows == [rows[0]] + rows[1..] && [] + mine == mine && [] + Readable(mine) == Readable(mine);
      assert ([rows[0]] + mine)[1..] == mine;
      if rows[0].batch == Some(id) && rows[0].body.Some? {
        RowIncluded(rows[0], rows[1..], id, Readable(mine), rest);
        at := [0] + Later(rest);
      } else {
        RowSkipped(rows[0], rows[1..], id, Readable(mine), rest);
        at := Later(rest);
      }
    }
  }

  // ── One batch ──────────────────────────────────────────────────────────────

  /** The batch is one shift's oldest rows. */
  ghost predicate IsOldest(rows: seq<Row>, batch: seq<Row>) {
    && batch != [] && |batch| <= 1000
    && (forall x :: x in batch ==> x in rows && x.shift == batch[0].shift)
    && (forall x, y :: x in batch && y in rows && y.shift == x.shift && y !in batch ==> x.order < y.order)
  }

  /** A new batch starts with the oldest row of all, and takes its whole shift or a thousand rows of it. */
  ghost predicate IsNewBatch(rows: seq<Row>, after: seq<Row>, id: Uuid)
    requires |after| == |rows| > 0
  {
    && after[0].batch == Some(id)
    && (|InBatch(after, id)| == 1000 || forall i :: 0 <= i < |after| && rows[i].shift == rows[0].shift ==> after[i].batch == Some(id))
  }

  /** An open batch is kept as it is; without one the shift of the oldest row is sealed, up to the cap. */
  lemma SealingChoice(rows: seq<Row>, id: Uuid)
    requires NoBatch(rows, id)
    ensures var (after, b) := Sealing(rows, id);
            && ((exists i :: 0 <= i < |rows| && rows[i].batch != None) ==> after == rows && exists i :: 0 <= i < |rows| && rows[i].batch == b)
            && (rows != [] && (forall i :: 0 <= i < |rows| ==> rows[i].batch == None) ==>
                  b == Some(id) && |after| == |rows| && IsNewBatch(rows, after, id))
  {
    FirstSealedMeaning(rows);
    if FirstSealed(rows).None? && rows != [] { SealsNewBatch(rows, id); }
  }

  /** The batch to send is one shift's oldest rows, and nothing but labels changes. */
  lemma SealingMeaning(rows: seq<Row>, id: Uuid)
    requires Sound(rows) && NoBatch(rows, id)
    ensures var (after, b) := Sealing(rows, id);
            && Sound(after) && Orders(after) == Orders(rows) && |after| == |rows|
            && (forall i :: 0 <= i < |rows| ==> SameFix(after[i], rows[i]))
            && (b.None? <==> rows == [])
            && (b.Some? ==> IsOldest(after, InBatch(after, b.value)))
            && (forall other :: other != id && NoBatch(rows, other) ==> NoBatch(after, other))
  {
    FirstSealedMeaning(rows);
    var (after, b) := Sealing(rows, id);
    if FirstSealed(rows).None? && rows != [] {
      SealIsSound(rows, id);
    }
    if b.Some? { SealedIsOldest(after, b.value); }
  }

  lemma SealIsSound(rows: seq<Row>, id: Uuid)
    requires Sound(rows) && rows != [] && (forall i :: 0 <= i < |rows| ==> rows[i].batch.None?)
    ensures var after := Seal(rows, rows[0].shift, id, MAX_BATCH);
            && Sound(after) && Orders(after) == Orders(rows) && |after| == |rows|
            && (forall i :: 0 <= i < |rows| ==> SameFix(after[i], rows[i]))
            && (forall i :: 0 <= i < |after| && after[i].batch.Some? ==> after[i].batch == Some(id))
            && after[0].batch == Some(id)
  {
    var shift, after := rows[0].shift, Seal(rows, rows[0].shift, id, MAX_BATCH);
    SealMeaning(rows, shift, id, MAX_BATCH);
    SameOrders(rows, after);
    Labelled(rows, after, shift, id);
    forall other ensures |InBatch(after, other)| <= MAX_BATCH {
      if other != id { EmptyBatch(after, other); }
    }
  }

  lemma SealsNewBatch(rows: seq<Row>, id: Uuid)
    requires rows != [] && (forall i :: 0 <= i < |rows| ==> rows[i].batch.None?)
    ensures var after := Seal(rows, rows[0].shift, id, MAX_BATCH); |after| == |rows| && IsNewBatch(rows, after, id)
  {
    SealMeaning(rows, rows[0].shift, id, MAX_BATCH);
  }

  lemma Labelled(rows: seq<Row>, after: seq<Row>, shift: Uuid, id: Uuid)
    requires Ascending(rows) && |after| == |rows|
    requires forall k :: 0 <= k < |rows| ==> SameFix(after[k], rows[k])
    requires forall k :: 0 <= k < |rows| ==> after[k].batch.None? || (after[k].batch == Some(id) && after[k].shift == shift)
    requires forall i, j :: 0 <= i < j < |after| && rows[i].shift == shift && after[j].batch == Some(id) ==> after[i].batch.Some?
    ensures Ascending(after)
    ensures forall x, y :: x in after && y in after && x.batch.Some? && y.batch.Some? ==> x.batch == y.batch && x.shift == y.shift
    ensures forall x, y :: x in after && y in after && x.shift == y.shift && x.order < y.order && y.batch.Some? ==> x.batch.Some?
  {
    forall x, y | x in after && y in after && x.shift == y.shift && x.order < y.order && y.batch.Some? ensures x.batch.Some? {
      var i :| 0 <= i < |after| && after[i] == x;
      var j :| 0 <= j < |after| && after[j] == y;
      EarlierRow(after, i, j);
    }
  }

  lemma EarlierRow(rows: seq<Row>, i: nat, j: nat)
    requires Ascending(rows) && i < |rows| && j < |rows| && rows[i].order < rows[j].order
    ensures i < j
  {
  }

  lemma SameOrders(a: seq<Row>, b: seq<Row>)
    requires |a| == |b| && forall i :: 0 <= i < |a| ==> b[i].order == a[i].order
    ensures Orders(a) == Orders(b)
  {
    forall o ensures o in Orders(a) <==> o in Orders(b) {
      if o in Orders(a) {
        var i :| 0 <= i < |a| && a[i].order == o;
        assert b[i].order == o;
      }
    }
  }

  lemma SealedIsOldest(rows: seq<Row>, id: Uuid)
    requires Sound(rows) && exists i :: 0 <= i < |rows| && rows[i].batch == Some(id)
    ensures IsOldest(rows, InBatch(rows, id))
  {
    InBatchMeaning(rows, id);
    var batch := InBatch(rows, id);
    var k :| 0 <= k < |rows| && rows[k].batch == Some(id);
    assert rows[k] in batch && batch[0] in batch;
    forall x, y | x in batch && y in rows && y.shift == x.shift && y !in batch ensures x.order < y.order {
      if x.order == y.order { SameRow(rows, x, y); }
    }
  }

  lemma WithoutIsSound(rows: seq<Row>, id: Uuid)
    requires Sound(rows)
    ensures Sound(Without(rows, id)) && NoBatch(Without(rows, id), id)
    ensures forall other :: NoBatch(rows, other) ==> NoBatch(Without(rows, id), other)
  {
    WithoutMeaning(rows, id);
    var left := Without(rows, id);
    forall i | 0 <= i < |left| ensures left[i] in rows && left[i].batch != Some(id) { assert left[i] in left; }
    forall other ensures |InBatch(left, other)| <= |InBatch(rows, other)| { FewerInBatch(rows, id, other); }
  }

  /** A batch and what is left without it are the whole table. */
  lemma Parted(rows: seq<Row>, id: Uuid)
    requires Ascending(rows)
    ensures Orders(rows) == Orders(InBatch(rows, id)) + Orders(Without(rows, id))
    ensures Orders(InBatch(rows, id)) !! Orders(Without(rows, id))
  {
    var left, taken := Without(rows, id), InBatch(rows, id);
    InBatchMeaning(rows, id);
    WithoutMeaning(rows, id);
    OrdersMember(rows);
    OrdersMember(left);
    OrdersMember(taken);
    forall o | o in Orders(taken) ensures o !in Orders(left) {
      var x :| x in taken && x.order == o;
      if o in Orders(left) {
        var y :| y in left && y.order == o;
        SameRow(rows, x, y);
      }
    }
    forall o | o in Orders(rows) ensures o in Orders(taken) || o in Orders(left) {
      var x :| x in rows && x.order == o;
      assert x in taken || x in left;
    }
  }

  lemma SameRow(rows: seq<Row>, x: Row, y: Row)
    requires Ascending(rows) && x in rows && y in rows && x.order == y.order
    ensures x == y
  {
    var i :| 0 <= i < |rows| && rows[i] == x;
    var j :| 0 <= j < |rows| && rows[j] == y;
    assert i == j;
  }

  lemma OrdersMember(rows: seq<Row>)
    ensures forall o :: o in Orders(rows) <==> exists x :: x in rows && x.order == o
  {
    forall o | o in Orders(rows) ensures exists x :: x in rows && x.order == o {
      var i :| 0 <= i < |rows| && rows[i].order == o;
      assert rows[i] in rows;
    }
  }

  lemma {:induction false} FewerInBatch(rows: seq<Row>, id: Uuid, other: Uuid)
    ensures |InBatch(Without(rows, id), other)| <= |InBatch(rows, other)|
  {
    if rows != [] {
      FewerInBatch(rows[1..], id, other);
      var left := Without(rows, id);
      if rows[0].batch != Some(id) {
        assert left[0] == rows[0] && left[1..] == Without(rows[1..], id);
      } else {
        assert left == Without(rows[1..], id);
      }
    }
  }

  // ── The store ──────────────────────────────────────────────────────────────

  lemma AppendedSnoc(rows: seq<Row>, next: nat, shift: Uuid, fixes: seq<(int, Option<Position>)>, i: nat)
    requires i < |fixes|
    ensures Appended(rows, next, shift, fixes[..i + 1])
            == Appended(rows, next, shift, fixes[..i]) + [Row(next + i, shift, fixes[i].0, fixes[i].1, None)]
  {
    assert fixes[..i + 1][..i] == fixes[..i];
  }

  class Queue {
    var rows: seq<Row>
    /** The AUTOINCREMENT counter: an order is never given out twice. */
    var next: nat

    ghost predicate Valid()
      reads this
    {
      Sound(rows) && AllBefore(rows, next)
    }

    constructor ()
      ensures Valid() && rows == [] && next == 0
    {
      rows, next := [], 0;
      new;
      assert forall id :: InBatch([], id) == [];
    }

    /** One transaction: a row for each fix. */
    method Append(shift: Uuid, fixes: seq<(int, Option<Position>)>)
      requires Valid()
      modifies this
      ensures Valid() && rows == Appended(old(rows), old(next), shift, fixes) && next == old(next) + |fixes|
      ensures old(rows) <= rows && |rows| == |old(rows)| + |fixes|
      ensures forall i :: 0 <= i < |fixes| ==> rows[|old(rows)| + i] == Row(old(next) + i, shift, fixes[i].0, fixes[i].1, None)
    {
      var start := next;
      for i := 0 to |fixes|
        invariant Valid()
        invariant rows == Appended(old(rows), start, shift, fixes[..i]) && next == start + i
      {
        OneMoreRow(rows, Row(next, shift, fixes[i].0, fixes[i].1, None));
        AppendedSnoc(old(rows), start, shift, fixes, i);
        rows := rows + [Row(next, shift, fixes[i].0, fixes[i].1, None)];
        next := next + 1;
      }
      assert fixes[..|fixes|] == fixes;
    }

    /** Seals in one transaction, then reads the batch back. */
    method NextBatch(newId: Uuid) returns (batch: Option<Batch>)
      requires Valid() && NoBatch(rows, newId)
      modifies this
      ensures Valid() && next == old(next) && rows == Sealing(old(rows), newId).0
      ensures batch == ReadBatch(rows, Sealing(old(rows), newId).1)
      ensures batch.None? <==> old(rows) == []
      ensures batch.Some? ==>
                && (exists at :: IsBatch(rows, batch.value.id, batch.value.positions, at))
                && (forall x :: x in rows && x.batch == Some(batch.value.id) ==> x.shift == batch.value.shift)
                && exists x :: x in rows && x.batch == Some(batch.value.id)
    {
      SealingMeaning(rows, newId);
      SealKeepsOrders(rows, newId, next);
      var sealed := FirstSealed(rows);
      if sealed.None? && rows != [] {
        rows := Seal(rows, rows[0].shift, newId, MAX_BATCH);
        sealed := Some(newId);
      }
      if sealed.None? { return None; }
      batch := ReadBatch(rows, sealed);
      InBatchMeaning(rows, sealed.value);
      ghost var at := BatchAt(rows, sealed.value);
      assert InBatch(rows, sealed.value)[0] in rows;
    }

    method Remove(id: Uuid)
      requires Valid()
      modifies this
      ensures Valid() && next == old(next) && rows == Without(old(rows), id)
      ensures forall x :: x in rows <==> x in old(rows) && x.batch != Some(id)
    {
      WithoutIsSound(rows, id);
      WithoutMeaning(rows, id);
      rows := Without(rows, id);
      assert forall i :: 0 <= i < |rows| ==> rows[i] in old(rows);
    }
  }

  lemma SealKeepsOrders(rows: seq<Row>, id: Uuid, next: nat)
    requires Sound(rows) && NoBatch(rows, id) && AllBefore(rows, next)
    ensures AllBefore(Sealing(rows, id).0, next)
  {
    SealingMeaning(rows, id);
    var after := Sealing(rows, id).0;
    forall i | 0 <= i < |after| ensures after[i].order < next {
      assert after[i].order in Orders(after);
    }
  }

  lemma OneMoreRow(rows: seq<Row>, x: Row)
    requires Sound(rows) && AllBefore(rows, x.order) && x.batch.None?
    ensures Sound(rows + [x]) && AllBefore(rows + [x], x.order + 1)
  {
    forall id ensures InBatch(rows + [x], id) == InBatch(rows, id) { InBatchAppend(rows, [x], id); }
  }

  lemma {:induction false} InBatchAppend(a: seq<Row>, b: seq<Row>, id: Uuid)
    requires NoBatch(b, id)
    ensures InBatch(a + b, id) == InBatch(a, id)
  {
    if a != [] {
      assert (a + b)[1..] == a[1..] + b;
      InBatchAppend(a[1..], b, id);
    } else {
      assert a + b == b;
      EmptyBatch(b, id);
    }
  }
}
