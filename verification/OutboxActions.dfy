/** The action loop of `flushOutbox`: batches off the head of the queue until it is empty, and what each answer asks for. */
module OutboxActions {
  import opened Common
  import opened OutboxModel
  import opened OutboxSteps
  import opened OutboxRuns
  import opened OutboxMeanwhile
  import opened OutboxCalls
  import opened OutboxDevice
  import M = Manifests

  datatype Tally = Tally(sent: nat, refused: nat, escalated: nat)

  /** How the action loop goes on after one batch. */
  datatype Next = GoOn | Stop | Offline

  // ── What a flush keeps track of ────────────────────────────────────────────

  /** From `a` to `b` the tally went up by the number of actions moved. */
  ghost predicate Counts(t: Tally, a: History, t': Tally, b: History) {
    && |b.accepted| - |a.accepted| == t'.sent - t.sent
    && |b.refused| - |a.refused| == t'.refused - t.refused
    && |b.escalated| - |a.escalated| == t'.escalated - t.escalated
  }

  /** No action was moved. */
  ghost predicate SameOutcomes(a: History, b: History) {
    a.accepted == b.accepted && a.refused == b.refused && a.escalated == b.escalated
  }

  /** What a flush found when it began: how many calls had been made, and what sign-outs had lost. */
  datatype Since = Since(calls: nat, lost: set<Uuid>)

  ghost predicate Witness(w: World, k: Uuid, subject: Uuid) { Awaits(w, k) && RowOf(w, k).subject == subject }

  /** Why the flush left the action: an answer left it open, it has a file without a slot, or a sign-out took its row. */
  ghost predicate Evident(w: World, calls: seq<Call>, since: Since, k: Uuid) {
    || SomeLeavesOpen(calls, since.calls, k)
    || (if k in w.db.rows then !Slottable(w.db, w.db.rows[k]) else k !in since.lost)
  }

  ghost predicate Holding(w: World, calls: seq<Call>, since: Since, k: Uuid, subject: Uuid) {
    Witness(w, k, subject) && Evident(w, calls, since, k)
  }

  /** Each deferred subject has an action that the flush had to leave, and that is not about to be settled. */
  ghost predicate Witnessed(w: World, calls: seq<Call>, since: Since, deferred: set<Uuid>, except: seq<Queued>) {
    && since.calls <= |calls| && since.lost <= w.history.lost.Keys
    && forall s :: s in deferred ==> exists k :: Holding(w, calls, since, k, s) && !Has(except, k)
  }

  /** No action starts waiting except newly recorded ones, and nothing is cleaned up. */
  ghost predicate Shrinks(a: World, b: World) {
    && a.db.nextOrder <= b.db.nextOrder && a.history.minted.Keys <= b.history.minted.Keys
    && a.history.lost.Keys <= b.history.lost.Keys && a.history.prunes == b.history.prunes
    && forall k :: Awaits(b, k) ==> WaitedAlready(a, b, k) || IsNew(a, b, k)
  }

  ghost predicate WaitedAlready(a: World, b: World, k: Uuid)
    requires Awaits(b, k)
  {
    && Awaits(a, k) && RowOf(a, k).order == RowOf(b, k).order && RowOf(a, k).subject == RowOf(b, k).subject
    && (k in b.db.rows ==> k in a.db.rows)
  }

  /** `x` will not be sent again by this flush. */
  ghost predicate Gone(w: World, x: Queued, deferred: set<Uuid>) {
    !Awaits(w, x.id) || x.row.subject in deferred
  }

  /** A file without a slot stays without one. */
  ghost predicate SlotsStay(a: World, b: World, k: Uuid) {
    k in a.db.rows && k in b.db.rows && !Slottable(a.db, a.db.rows[k]) ==> !Slottable(b.db, a.db.rows[k])
  }

  /** The actions without an outcome other than `id` are as they were. */
  ghost predicate OthersKept(a: World, b: World, id: Uuid) {
    forall k :: Awaits(a, k) && k != id ==> Stays(a, b, k) && SlotsStay(a, b, k)
  }

  /** No action was written; only later recordings, sign-outs, files and routes change. */
  ghost predicate ActionsWait(a: World, b: World) {
    && Shrinks(a, b) && (forall k :: Awaits(a, k) ==> Stays(a, b, k))
    && SameOutcomes(a.history, b.history) && a.history.writes == b.history.writes
  }

  ghost predicate SlotsWait(a: World, b: World) { forall k :: Awaits(a, k) ==> SlotsStay(a, b, k) }

  ghost predicate Undisturbed(a: World, b: World) { ActionsWait(a, b) && SlotsWait(a, b) }

  lemma WaitingIsUndisturbed(a: World, b: World)
    requires Waiting(a, b)
    ensures Undisturbed(a, b)
  {
    forall k | Awaits(a, k) ensures SlotsStay(a, b, k) {
      assert Stays(a, b, k);
      if k in b.db.rows { FilesSurvive(a, b, k); }
    }
    forall k | Awaits(b, k) ensures WaitedAlready(a, b, k) || IsNew(a, b, k) {
      if Awaits(a, k) { assert Stays(a, b, k); }
    }
  }

  lemma GoneStays(a: World, b: World, x: Queued, deferred: set<Uuid>)
    requires Shrinks(a, b) && x.id in a.history.minted && Gone(a, x, deferred)
    ensures Gone(b, x, deferred)
  {
  }

  lemma ShrinksTransitive(a: World, b: World, c: World)
    requires Shrinks(a, b) && Shrinks(b, c)
    ensures Shrinks(a, c)
  {
    forall k | Awaits(c, k) ensures WaitedAlready(a, c, k) || IsNew(a, c, k) {
      assert WaitedAlready(b, c, k) || IsNew(b, c, k);
      if WaitedAlready(b, c, k) { assert WaitedAlready(a, b, k) || IsNew(a, b, k); }
    }
  }

  lemma UndisturbedTransitive(a: World, b: World, c: World)
    requires Undisturbed(a, b) && Undisturbed(b, c)
    ensures Undisturbed(a, c)
  {
    ShrinksTransitive(a, b, c);
    forall k | Awaits(a, k) ensures Stays(a, c, k) && SlotsStay(a, c, k) {
      assert Stays(a, b, k) && Stays(b, c, k) && SlotsStay(a, b, k) && SlotsStay(b, c, k);
    }
  }

  /** In an ordered queue, an earlier action is further ahead. */
  lemma EarlierIsAhead(q: seq<Queued>, i: nat, j: nat)
    requires forall i, j :: 0 <= i < j < |q| ==> q[i].row.order < q[j].row.order
    requires i < |q| && j < |q| && q[j].row.order < q[i].row.order
    ensures j < i
  {
  }

  /** The items of the first rows of the queue. */
  ghost predicate Prepared(w: World, q: seq<Queued>, items: seq<Item>) {
    |items| <= |q| && forall i :: 0 <= i < |items| ==> IsPrepared(w, q[i], items[i])
  }

  ghost predicate IsPrepared(w: World, x: Queued, item: Item) { IsWaiting(w, x) && item.key == x.id && MayItem(w, item) }

  lemma PreparedWaits(a: World, b: World, q: seq<Queued>, items: seq<Item>)
    requires Waiting(a, b) && Prepared(a, q, items)
    ensures Prepared(b, q, items)
  {
    forall i | 0 <= i < |items| ensures IsPrepared(b, q[i], items[i]) {
      assert IsPrepared(a, q[i], items[i]) && Stays(a, b, q[i].id);
      ItemSurvives(a, b, q[i].id, items[i]);
    }
  }

  /** A prefix of the queue overtakes nothing. */
  lemma PrefixOvertakesNothing(w: World, deferred: set<Uuid>, horizon: nat, q: seq<Queued>, items: seq<Item>)
    requires IsQueue(w, deferred, horizon, q) && Prepared(w, q, items)
    ensures Distinct(KeysOf(items)) && NothingOvertaken(w.db, items)
  {
    forall i | 0 <= i < |items| ensures items[i].key == q[i].id && IsWaiting(w, q[i]) {
      assert IsPrepared(w, q[i], items[i]);
    }
    forall i, j | 0 <= i < j < |items| ensures items[i].key != items[j].key {
      assert q[i].row.order < q[j].row.order;
    }
    forall i, k | 0 <= i < |items| && k in w.db.rows && items[i].key in w.db.rows && w.db.rows[k].state.Pending?
                  && w.db.rows[k].subject == w.db.rows[items[i].key].subject
                  && w.db.rows[k].order < w.db.rows[items[i].key].order
      ensures exists j :: 0 <= j < i && items[j].key == k
    {
      assert Has(q, k);
      var j :| 0 <= j < |q| && q[j].id == k;
      assert IsWaiting(w, q[j]);
      EarlierIsAhead(q, i, j);
      assert items[j].key == k;
    }
  }

  /** What held a subject back still does. */
  lemma HoldingStays(a: World, b: World, calls: seq<Call>, calls': seq<Call>, since: Since, k: Uuid, subject: Uuid)
    requires Holding(a, calls, since, k, subject) && Stays(a, b, k) && SlotsStay(a, b, k)
    requires calls <= calls' && since.calls <= |calls| && since.lost <= a.history.lost.Keys
    ensures Holding(b, calls', since, k, subject)
  {
    Earlier(calls, calls', since.calls);
  }

  lemma WitnessWaits(a: World, b: World, calls: seq<Call>, since: Since, id: Uuid, deferred: set<Uuid>,
                     except: seq<Queued>, rest: seq<Queued>)
    requires OthersKept(a, b, id) && Witnessed(a, calls, since, deferred, except) && Has(except, id)
    requires a.history.lost.Keys <= b.history.lost.Keys
    requires forall k :: Has(rest, k) ==> Has(except, k)
    ensures Witnessed(b, calls, since, deferred, rest)
  {
    forall s | s in deferred ensures exists k :: Holding(b, calls, since, k, s) && !Has(rest, k) {
      var k :| Holding(a, calls, since, k, s) && !Has(except, k);
      HoldingStays(a, b, calls, calls, since, k, s);
    }
  }

  lemma WitnessStays(a: World, b: World, calls: seq<Call>, calls': seq<Call>, since: Since, deferred: set<Uuid>, except: seq<Queued>)
    requires Undisturbed(a, b) && Witnessed(a, calls, since, deferred, except) && calls <= calls'
    ensures Witnessed(b, calls', since, deferred, except)
  {
    forall s | s in deferred ensures exists k :: Holding(b, calls', since, k, s) && !Has(except, k) {
      var k :| Holding(a, calls, since, k, s) && !Has(except, k);
      HoldingStays(a, b, calls, calls', since, k, s);
    }
  }

  /** The longest prefix that satisfies the test, up to the maximum. */
  method TakeWhile(items: seq<Queued>, keep: Queued -> bool, max: nat) returns (out: seq<Queued>)
    ensures out <= items && |out| <= max && forall i :: 0 <= i < |out| ==> keep(out[i])
    ensures |out| < |items| && |out| < max ==> !keep(items[|out|])
  {
    out := [];
    for i := 0 to |items|
      invariant out == items[..i] && i <= max && forall j :: 0 <= j < i ==> keep(items[j])
    {
      if |out| >= max || !keep(items[i]) { break; }
      out := out + [items[i]];
    }
  }

  // ── The wire item ──────────────────────────────────────────────────────────

  ghost predicate AreFiles(db: Db, ids: seq<Uuid>, files: seq<File>) {
    && (forall i :: 0 <= i < |files| ==> files[i].id in ids && files[i].id in db.media && db.media[files[i].id] == files[i].row)
    && (forall i, j :: 0 <= i < j < |files| ==> files[i].id != files[j].id)
    && (forall m :: m in ids && m in db.media ==> exists i :: 0 <= i < |files| && files[i].id == m)
  }

  /** The rows there are for the ids, in no order the query names. */
  method SelectMedia(media: map<Uuid, Media>, ids: seq<Uuid>, ghost db: Db) returns (files: seq<File>)
    requires db.media == media
    ensures AreFiles(db, ids, files)
  {
    files := [];
    var left := set m | m in ids && m in media;
    while left != {}
      invariant forall m :: m in left ==> m in ids && m in media
      invariant forall i :: 0 <= i < |files| ==>
                  files[i].id in ids && files[i].id in media && media[files[i].id] == files[i].row && files[i].id !in left
      invariant forall i, j :: 0 <= i < j < |files| ==> files[i].id != files[j].id
      invariant forall m :: m in ids && m in media && m !in left ==> exists i :: 0 <= i < |files| && files[i].id == m
      decreases left
    {
      EmptyOrNot(left);
      var m :| m in left;
      var before := files;
      files := files + [File(m, media[m])];
      left := left - {m};
      forall n | n in ids && n in media && n !in left ensures exists i :: 0 <= i < |files| && files[i].id == n {
        if n == m {
          assert files[|before|].id == m;
        } else {
          var i :| 0 <= i < |before| && before[i].id == n;
          assert files[i].id == n;
        }
      }
    }
  }

  predicate Citing(f: File, purpose: MediaPurpose) {
    f.row.purpose == purpose && f.row.objectKey.Some? && !f.row.state.Lost?
  }

  /** The object keys an item may cite for one purpose. */
  method KeysFor(files: seq<File>, purpose: MediaPurpose, ghost db: Db, ghost a: Action) returns (keys: seq<string>, ghost order: seq<Uuid>)
    requires AreFiles(db, a.media, files)
    ensures ListsKeysAs(db, Citable(db, a, purpose), keys, order) && ListsKeys(db, Citable(db, a, purpose), keys)
    ensures forall m :: m in order <==> IsCitable(db, a, purpose, m)
  {
    keys, order := [], [];
    for i := 0 to |files|
      invariant |order| == |keys| && Distinct(order)
      invariant forall m :: m in order ==> exists j :: 0 <= j < i && files[j].id == m && Citing(files[j], purpose)
      invariant forall j :: 0 <= j < i && Citing(files[j], purpose) ==> files[j].id in order
      invariant forall j :: 0 <= j < |order| ==> order[j] in db.media && db.media[order[j]].objectKey == Some(keys[j])
    {
      if Citing(files[i], purpose) {
        assert files[i].id !in order;
        keys := keys + [files[i].row.objectKey.value];
        order := order + [files[i].id];
      }
    }
    forall m ensures m in order <==> m in Citable(db, a, purpose) {
      if m in Citable(db, a, purpose) {
        var i :| 0 <= i < |files| && files[i].id == m;
      }
    }
    assert ListsKeysAs(db, Citable(db, a, purpose), keys, order);
  }

  /** The files of a waiting action as the table has them, and what the screens do until the query returns. */
  method MediaByIds(d: Device, x: Queued) returns (files: seq<File>, ghost read: Db)
    requires d.Valid() && IsWaiting(d.Now(), x)
    modifies d
    ensures d.Valid() && d.Budget() == old(d.Budget()) && d.calls == old(d.calls) && old(d.run) <= d.run
    ensures Meanwhile(old(d.Now()), d.Now()) && IsWaiting(d.Now(), x)
    ensures AreFiles(read, x.row.media, files) && (x.id in d.rows ==> SameFiles(read, d.Now().db, x.row))
  {
    ghost var before := d.Now();
    read := before.db;
    files := SelectMedia(d.media, x.row.media, read);
    d.Elapse();
    assert Stays(before, d.Now(), x.id);
    if x.id in d.rows { FilesSurvive(before, d.Now(), x.id); }
  }

  /** The signature and photo keys of a delivery. */
  method Proof(files: seq<File>, x: Queued, text: string, ghost db: Db) returns (pod: Pod)
    requires AreFiles(db, x.row.media, files)
    ensures CitesProof(db, x.row, pod) && pod.text == text
  {
    var signatures, byWhom := KeysFor(files, Signature, db, x.row);
    var photos, order := KeysFor(files, Photo, db, x.row);
    pod := Pod(text, if signatures == [] then None else Some(signatures[0]), photos);
    if signatures == [] {
      assert Citable(db, x.row, Signature) == {} by { EmptyOrNot(Citable(db, x.row, Signature)); }
    } else {
      assert byWhom[0] in byWhom;
      assert IsKeyOf(db, x.row, byWhom[0], pod.signature.value);
    }
    assert ListsKeysAs(db, Citable(db, x.row, Photo), pod.photos, order);
    assert ListsKeys(db, Citable(db, x.row, Photo), pod.photos);
  }

  /** A file whose key an item cites: of this purpose, with a key, and not given up. */
  ghost predicate IsCitable(db: Db, a: Action, purpose: MediaPurpose, m: Uuid) {
    m in a.media && m in db.media && db.media[m].purpose == purpose && db.media[m].objectKey != None && db.media[m].state != Lost
  }

  /** The item under the action's key: a delivery's proof cites one signature, if there is any, and every photo once. */
  ghost predicate IsWireItem(db: Db, x: Queued, item: Item) {
    && item.key == x.id && item.kind == x.row.kind && item.subject == x.row.subject && item.body == x.row.payload.body
    && match x.row.payload.pod
       case None => item.pod == None
       case Some(text) =>
         if x.row.kind != Delivered then item.pod == Some(Pod(text, None, []))
         else
           && item.pod.Some? && item.pod.value.text == text
           && (item.pod.value.signature == None <==> forall m :: !IsCitable(db, x.row, Signature, m))
           && (item.pod.value.signature.Some? ==> exists m ::
                 IsCitable(db, x.row, Signature, m) && db.media[m].objectKey == item.pod.value.signature)
           && exists order :: CitesInOrder(db, x.row, item.pod.value.photos, order)
  }

  ghost predicate CitesInOrder(db: Db, a: Action, photos: seq<string>, order: seq<Uuid>) {
    && Distinct(order) && |order| == |photos| && (forall m :: m in order <==> IsCitable(db, a, Photo, m))
    && forall i :: 0 <= i < |order| ==> order[i] in db.media && db.media[order[i]].objectKey == Some(photos[i])
  }

  lemma ProofIsWired(db: Db, x: Queued, item: Item)
    requires SaysWhat(x.row, x.id, item) && Cites(db, x.row, item)
    ensures IsWireItem(db, x, item)
  {
    if x.row.kind.Delivered? && item.pod.Some? {
      var pod := item.pod.value;
      var order :| ListsKeysAs(db, Citable(db, x.row, Photo), pod.photos, order);
      forall m ensures m in order <==> IsCitable(db, x.row, Photo, m) { assert m in Citable(db, x.row, Photo) <==> IsCitable(db, x.row, Photo, m); }
      assert CitesInOrder(db, x.row, pod.photos, order);
      forall m ensures m in Citable(db, x.row, Signature) <==> IsCitable(db, x.row, Signature, m) {}
      EmptyOrNot(Citable(db, x.row, Signature));
    }
  }

  /** The sync item, given the rows of its files. */
  method MakeItem(files: seq<File>, x: Queued, ghost db: Db) returns (r: Option<Item>)
    requires AreFiles(db, x.row.media, files)
    ensures r.Some? ==> SaysWhat(x.row, x.id, r.value) && Cites(db, x.row, r.value)
    ensures r.Some? ==> IsWireItem(db, x, r.value)
    ensures r.None? <==> !Slottable(db, x.row)
    ensures r.None? <==> exists m :: m in x.row.media && m in db.media && db.media[m].state == Captured
  {
    if exists f :: f in files && f.row.state.Captured? {
      ghost var f :| f in files && f.row.state.Captured?;
      assert f.id in x.row.media && db.media[f.id].state.Captured?;
      return None;
    }
    assert Slottable(db, x.row) by {
      forall m | m in x.row.media && m in db.media ensures !db.media[m].state.Captured? {
        var i :| 0 <= i < |files| && files[i].id == m;
        assert files[i] in files;
      }
    }
    var pod: Option<Pod> := None;
    if x.row.payload.pod.Some? {
      pod := Some(Pod(x.row.payload.pod.value, None, []));
      if x.row.kind.Delivered? {
        var proof := Proof(files, x, x.row.payload.pod.value, db);
        pod := Some(proof);
      }
    }
    r := Some(Item(x.id, x.row.kind, x.row.subject, x.row.payload.body, pod));
    ProofIsWired(db, x, r.value);
  }

  lemma ItemFits(w: World, read: Db, x: Queued, item: Item)
    requires IsWaiting(w, x) && SaysWhat(x.row, x.id, item) && Cites(read, x.row, item) && Slottable(read, x.row)
    requires x.id in w.db.rows ==> SameFiles(read, w.db, x.row)
    ensures IsPrepared(w, x, item)
  {
    if x.id in w.db.rows {
      CitationSurvives(read, w.db, x.row, item);
      SameSlots(read, w.db, x.row);
    }
  }

  lemma SameSlots(a: Db, b: Db, row: Action)
    requires SameFiles(a, b, row)
    ensures Slottable(a, row) <==> Slottable(b, row)
  {
    forall m | m in row.media ensures SameFile(a, b, m) {}
  }

  /** The sync item of an action, or nothing while one of its photos has no slot yet. */
  method ToSyncItem(d: Device, x: Queued) returns (r: Option<Item>)
    requires d.Valid() && IsWaiting(d.Now(), x)
    modifies d
    ensures d.Valid() && d.Budget() == old(d.Budget()) && d.calls == old(d.calls) && old(d.run) <= d.run
    ensures Meanwhile(old(d.Now()), d.Now()) && IsWaiting(d.Now(), x)
    ensures r.Some? ==> IsPrepared(d.Now(), x, r.value) && r.value.kind == x.row.kind
    ensures x.id in d.rows ==> (r.None? <==> !Slottable(d.Now().db, x.row))
  {
    var files := [];
    ghost var read := d.Now().db;
    if x.row.media != [] { files, read := MediaByIds(d, x); } else { d.Sound(); }
    assert AreFiles(read, x.row.media, files);
    r := MakeItem(files, x, read);
    if r.Some? { ItemFits(d.Now(), read, x, r.value); }
    if x.id in d.rows { SameSlots(read, d.Now().db, x.row); }
  }

  ghost predicate AreWaiting(w: World, batch: seq<Queued>) {
    forall i :: 0 <= i < |batch| ==> IsWaiting(w, batch[i])
  }

  lemma StillWaiting(a: World, b: World, batch: seq<Queued>)
    requires RowsWait(a, b) && AreWaiting(a, batch)
    ensures AreWaiting(b, batch)
  {
    forall i | 0 <= i < |batch| ensures IsWaiting(b, batch[i]) { assert Stays(a, b, batch[i].id); }
  }

  /** The item of the next action, behind the ones already made. */
  method NextItem(d: Device, batch: seq<Queued>, items: seq<Item>) returns (items': seq<Item>)
    requires d.Valid() && AreWaiting(d.Now(), batch) && |items| < |batch| && Prepared(d.Now(), batch, items)
    modifies d
    ensures d.Valid() && d.Budget() == old(d.Budget()) && d.calls == old(d.calls) && old(d.run) <= d.run
    ensures Meanwhile(old(d.Now()), d.Now()) && AreWaiting(d.Now(), batch) && Prepared(d.Now(), batch, items')
    ensures items' == items || |items'| == |items| + 1
    ensures items' == items ==> WithoutSlot(d.Now(), batch[|items|])
  {
    ghost var before := d.Now();
    var item := ToSyncItem(d, batch[|items|]);
    StillWaiting(before, d.Now(), batch);
    PreparedWaits(before, d.Now(), batch, items);
    items' := if item.Some? then items + [item.value] else items;
  }

  /** A file of the action has no slot yet, unless a sign-out took them. */
  ghost predicate WithoutSlot(w: World, x: Queued) { x.id in w.db.rows ==> !Slottable(w.db, x.row) }

  /** The items of a batch, up to the first action that must wait for a slot; its subject is deferred. */
  method CollectItems(d: Device, batch: seq<Queued>, deferred: set<Uuid>) returns (items: seq<Item>, deferred': set<Uuid>)
    requires d.Valid() && AreWaiting(d.Now(), batch)
    modifies d
    ensures d.Valid() && d.Budget() == old(d.Budget()) && d.calls == old(d.calls) && old(d.run) <= d.run
    ensures Meanwhile(old(d.Now()), d.Now()) && AreWaiting(d.Now(), batch) && Prepared(d.Now(), batch, items)
    ensures deferred' == deferred + if |items| < |batch| then {batch[|items|].row.subject} else {}
    ensures |items| < |batch| ==> WithoutSlot(d.Now(), batch[|items|])
  {
    items, deferred' := [], deferred;
    d.Sound();
    while |items| < |batch|
      invariant d.Valid() && d.Budget() == old(d.Budget()) && d.calls == old(d.calls) && old(d.run) <= d.run
      invariant Meanwhile(old(d.Now()), d.Now()) && AreWaiting(d.Now(), batch) && Prepared(d.Now(), batch, items)
    {
      ghost var before := d.Now();
      var next := NextItem(d, batch, items);
      WaitingTransitive(old(d.Now()), before, d.Now());
      if next == items {
        deferred' := deferred + {batch[|items|].row.subject};
        break;
      }
      items := next;
    }
  }

  // ── One action's ruling ────────────────────────────────────────────────────

  /** The write a verdict comes to: refused unless it happened in the street, which a person must look at. */
  function SettlePatch(row: Action, verdict: Verdict, code: string, detail: string): ActionPatch {
    match verdict
    case RetryLater => ActionPatch(None, Some(row.attempts + 1), Some(Some(code)), Some(Some(detail)))
    case DiscardAndRefresh =>
      ActionPatch(Some(if IsPhysical(row.kind) then Escalated else Refused), None, Some(Some(code)), Some(Some(detail)))
    case EscalateToDispatcher => ActionPatch(Some(Escalated), None, Some(Some(code)), Some(Some(detail)))
  }

  /** What a verdict writes, for each kind of action: what happened in the street goes to a person instead of being refused. */
  ghost predicate IsSettlement(row: Action, verdict: Verdict, code: string, detail: string, p: ActionPatch) {
    && p.code == Some(Some(code)) && p.detail == Some(Some(detail))
    && match verdict
       case RetryLater => p.state == None && p.attempts == Some(row.attempts + 1)
       case EscalateToDispatcher => p.state == Some(Escalated) && p.attempts == None
       case DiscardAndRefresh =>
         p.attempts == None
         && match row.kind
            case Delivered => p.state == Some(Escalated)
            case ReturnCompleted => p.state == Some(Escalated)
            case Failed => p.state == Some(Refused)
            case AddressCorrected => p.state == Some(Refused)
            case PickupScan => p.state == Some(Refused)
            case PickupCollect => p.state == Some(Refused)
            case PickupComplete => p.state == Some(Refused)
  }

  /** The outcome goes into the record, and is counted. */
  ghost predicate IsRecorded(a: History, b: History, id: Uuid, p: ActionPatch, t: Tally, t': Tally) {
    && b.writes == a.writes + [Write(id, p)]
    && b.accepted == a.accepted + (if p.state == Some(Done) then [id] else [])
    && b.refused == a.refused + (if p.state == Some(Refused) then [id] else [])
    && b.escalated == a.escalated + (if p.state == Some(Escalated) then [id] else [])
    && t'.sent == t.sent + (if p.state == Some(Done) then 1 else 0)
    && t'.refused == t.refused + (if p.state == Some(Refused) then 1 else 0)
    && t'.escalated == t.escalated + (if p.state == Some(Escalated) then 1 else 0)
  }

  function WriteOf(x: Queued, ruling: Ruling): seq<Write> {
    match ruling
    case Missing => []
    case Took(patch) => [Write(x.id, patch)]
    case Ruled(verdict, code, detail) => [Write(x.id, SettlePatch(x.row, verdict, code, detail))]
  }

  /** All a batch's rulings write, in order. */
  function WritesOf(batch: seq<Queued>, rulings: seq<Ruling>): seq<Write>
    requires |batch| == |rulings|
  {
    if batch == [] then []
    else
      var n := |batch| - 1;
      WritesOf(batch[..n], rulings[..n]) + WriteOf(batch[n], rulings[n])
  }

  function Held(batch: seq<Queued>, rulings: seq<Ruling>): set<Uuid>
    requires |batch| == |rulings|
  {
    set i | 0 <= i < |batch| && Holds(rulings[i]) :: batch[i].row.subject
  }

  /** The writes are those of the rulings, and the subjects that must wait are deferred. */
  ghost predicate CarriedOut(a: History, b: History, batch: seq<Queued>, rulings: seq<Ruling>, deferred: set<Uuid>, deferred': set<Uuid>)
    requires |batch| == |rulings|
  {
    b.writes == a.writes + WritesOf(batch, rulings) && deferred' == deferred + Held(batch, rulings)
  }

  /** The answer in hand asks for the verdict. */
  predicate IsVerdict(w: World, key: Uuid, verdict: Verdict) {
    match verdict
    case RetryLater => true
    case DiscardAndRefresh => MaySettle(w) && key in w.reply.value.discards
    case EscalateToDispatcher => MaySettle(w) && key in w.reply.value.escalates
  }

  /** Writes what a verdict comes to, and counts it. */
  method Settle(d: Device, x: Queued, verdict: Verdict, code: string, detail: string, tally: Tally) returns (tally': Tally)
    requires d.Valid() && IsWaiting(d.Now(), x) && x.id in d.history.sends && IsVerdict(d.Now(), x.id, verdict)
    modifies d
    ensures d.Valid() && d.Budget() == old(d.Budget()) && d.calls == old(d.calls) && old(d.run) <= d.run
    ensures MayWrite(old(d.Now()), x.id, SettlePatch(x.row, verdict, code, detail))
    ensures Meanwhile(Apply(old(d.Now()), WriteAction(x.id, SettlePatch(x.row, verdict, code, detail))), d.Now())
    ensures tally' == Counted(tally, SettlePatch(x.row, verdict, code, detail))
    ensures var patch := SettlePatch(x.row, verdict, code, detail);
            IsSettlement(x.row, verdict, code, detail, patch) && IsRecorded(old(d.history), d.history, x.id, patch, tally, tally')
  {
    var patch: ActionPatch;
    if verdict.RetryLater? {
      patch := ActionPatch(None, Some(x.row.attempts + 1), Some(Some(code)), Some(Some(detail)));
      tally' := tally;
    } else if verdict.DiscardAndRefresh? && !IsPhysical(x.row.kind) {
      patch := ActionPatch(Some(Refused), None, Some(Some(code)), Some(Some(detail)));
      tally' := tally.(refused := tally.refused + 1);
    } else {
      patch := ActionPatch(Some(Escalated), None, Some(Some(code)), Some(Some(detail)));
      tally' := tally.(escalated := tally.escalated + 1);
    }
    ghost var before := d.Now();
    d.UpdateAction(x.id, patch);
    AsRecorded(before, d.Now(), x.id, patch, tally);
  }

  lemma AsRecorded(a: World, b: World, id: Uuid, p: ActionPatch, tally: Tally)
    requires MayWrite(a, id, p) && Meanwhile(Apply(a, WriteAction(id, p)), b)
    ensures IsRecorded(a.history, b.history, id, p, tally, Counted(tally, p))
  {
  }

  function Counted(t: Tally, patch: ActionPatch): Tally {
    match patch.state
    case Some(Done) => t.(sent := t.sent + 1)
    case Some(Refused) => t.(refused := t.refused + 1)
    case Some(Escalated) => t.(escalated := t.escalated + 1)
    case _ => t
  }

  /** What one write changes. */
  ghost predicate WrittenAs(a: World, b: World, x: Queued, patch: ActionPatch) {
    && OthersKept(a, b, x.id) && Shrinks(a, b) && x.id in b.history.minted
    && (if patch.state.Some? then !Awaits(b, x.id) else Awaits(b, x.id) && RowOf(b, x.id).subject == x.row.subject)
    && b.reply == a.reply && b.history.sends == a.history.sends
    && b.history.writes == a.history.writes + [Write(x.id, patch)]
  }

  lemma WriteApplied(w: World, x: Queued, patch: ActionPatch)
    requires LostIsSound(w) && IsWaiting(w, x) && MayWrite(w, x.id, patch) && x.id in w.history.minted
    ensures WrittenAs(w, Apply(w, WriteAction(x.id, patch)), x, patch)
  {
    var v := Apply(w, WriteAction(x.id, patch));
    assert v.history.minted == w.history.minted && v.db.media == w.db.media;
    forall k | k != x.id ensures (Awaits(v, k) <==> Awaits(w, k)) && (Awaits(w, k) ==> Stays(w, v, k) && SlotsStay(w, v, k)) {}
    forall k | Awaits(v, k) ensures WaitedAlready(w, v, k) {}
  }

  lemma ThenUndisturbed(a: World, b: World, c: World, x: Queued, patch: ActionPatch)
    requires WrittenAs(a, b, x, patch) && Meanwhile(b, c)
    ensures WrittenAs(a, c, x, patch)
  {
    WaitingIsUndisturbed(b, c);
    ShrinksTransitive(a, b, c);
    forall k | Awaits(a, k) && k != x.id ensures Stays(a, c, k) && SlotsStay(a, c, k) {
      assert Stays(a, b, k) && Stays(b, c, k) && SlotsStay(a, b, k) && SlotsStay(b, c, k);
    }
    if patch.state.Some? {
      GoneStays(b, c, x, {});
    } else {
      assert Stays(b, c, x.id);
    }
  }

  lemma WriteEffect(a: World, b: World, x: Queued, patch: ActionPatch, tally: Tally)
    requires LostIsSound(a) && IsWaiting(a, x) && MayWrite(a, x.id, patch) && x.id in a.history.minted
    requires Meanwhile(Apply(a, WriteAction(x.id, patch)), b)
    ensures WrittenAs(a, b, x, patch) && Counts(tally, a.history, Counted(tally, patch), b.history)
  {
    WriteApplied(a, x, patch);
    ThenUndisturbed(a, Apply(a, WriteAction(x.id, patch)), b, x, patch);
  }

  /** The answer in hand says what the ruling says, and what it takes ahead of the action is settled. */
  ghost predicate MayRule(w: World, x: Queued, ruling: Ruling) {
    && MaySettle(w) && IsRuling(w.reply.value, x.id, ruling)
    && (ruling.Took? ==> ruling.patch.state == Some(Done) && TakenInTurn(w, x.id))
  }

  /** What one ruling leaves behind. */
  ghost predicate Follows(a: World, b: World, x: Queued, ruling: Ruling, tally: Tally, tally': Tally) {
    && OthersKept(a, b, x.id) && Shrinks(a, b) && b.reply == a.reply && b.history.sends == a.history.sends
    && b.history.writes == a.history.writes + WriteOf(x, ruling)
    && Counts(tally, a.history, tally', b.history) && x.id in b.history.minted
    && (if Holds(ruling) then Witness(b, x.id, x.row.subject) else !Awaits(b, x.id))
  }

  /** Carries one ruling out. */
  method CarryOut(d: Device, x: Queued, ruling: Ruling, tally: Tally) returns (tally': Tally)
    requires d.Valid() && IsWaiting(d.Now(), x) && x.id in d.history.sends && MayRule(d.Now(), x, ruling)
    modifies d
    ensures d.Valid() && d.Budget() == old(d.Budget()) && d.calls == old(d.calls) && old(d.run) <= d.run
    ensures Follows(old(d.Now()), d.Now(), x, ruling, tally, tally')
  {
    ghost var before := d.Now();
    tally' := tally;
    d.Sound();
    match ruling {
      case Missing =>
        NothingWritten(before, x, tally);
      case Took(patch) =>
        d.UpdateAction(x.id, patch);
        tally' := tally.(sent := tally.sent + 1);
        WriteEffect(before, d.Now(), x, patch, tally);
      case Ruled(verdict, code, detail) =>
        tally' := Settle(d, x, verdict, code, detail, tally);
        WriteEffect(before, d.Now(), x, SettlePatch(x.row, verdict, code, detail), tally);
    }
  }

  lemma NothingWritten(w: World, x: Queued, tally: Tally)
    requires RowsAreIntents(w) && LostIsSound(w) && IsWaiting(w, x)
    ensures Follows(w, w, x, Missing, tally, tally)
  {
    forall k | Awaits(w, k) ensures Stays(w, w, k) && SlotsStay(w, w, k) {}
  }

  /** Carries one ruling out and defers the subject if it must wait. `rest` are the actions of the batch still to come. */
  method Rule(d: Device, x: Queued, ruling: Ruling, deferred: set<Uuid>, tally: Tally, ghost rest: seq<Queued>, ghost since: Since)
    returns (deferred': set<Uuid>, tally': Tally)
    requires d.Valid() && IsWaiting(d.Now(), x) && x.id in d.history.sends && !Has(rest, x.id) && MayRule(d.Now(), x, ruling)
    requires Holds(ruling) ==> SomeLeavesOpen(d.calls, since.calls, x.id)
    requires Witnessed(d.Now(), d.calls, since, deferred, [x] + rest)
    modifies d
    ensures d.Valid() && d.Budget() == old(d.Budget()) && d.calls == old(d.calls) && old(d.run) <= d.run
    ensures Follows(old(d.Now()), d.Now(), x, ruling, tally, tally')
    ensures deferred' == if Holds(ruling) then deferred + {x.row.subject} else deferred
    ensures Gone(d.Now(), x, deferred') && Witnessed(d.Now(), d.calls, since, deferred', rest)
  {
    ghost var before := d.Now();
    tally' := CarryOut(d, x, ruling, tally);
    deferred' := if Holds(ruling) then deferred + {x.row.subject} else deferred;
    StillWitnessed(before, d.Now(), d.calls, since, x, deferred, deferred', rest);
  }

  lemma StillWitnessed(a: World, b: World, calls: seq<Call>, since: Since, x: Queued, deferred: set<Uuid>, deferred': set<Uuid>,
                       rest: seq<Queued>)
    requires OthersKept(a, b, x.id) && Witnessed(a, calls, since, deferred, [x] + rest) && !Has(rest, x.id)
    requires a.history.lost.Keys <= b.history.lost.Keys
    requires deferred' == deferred
             || (deferred' == deferred + {x.row.subject} && Witness(b, x.id, x.row.subject) && SomeLeavesOpen(calls, since.calls, x.id))
    ensures Witnessed(b, calls, since, deferred', rest)
  {
    HasCons(x, rest);
    WitnessWaits(a, b, calls, since, x.id, deferred, [x] + rest, rest);
    if deferred' != deferred { assert Holding(b, calls, since, x.id, x.row.subject); }
  }

  lemma HasCons(x: Queued, rest: seq<Queued>)
    ensures Has([x] + rest, x.id) && forall k :: Has(rest, k) ==> Has([x] + rest, k)
  {
    assert ([x] + rest)[0] == x;
    forall k | Has(rest, k) ensures Has([x] + rest, k) {
      var i :| 0 <= i < |rest| && rest[i].id == k;
      assert ([x] + rest)[i + 1].id == k;
    }
  }

  ghost predicate DistinctIds(q: seq<Queued>) {
    forall i, j :: 0 <= i < j < |q| ==> q[i].id != q[j].id
  }

  lemma SplitHead(batch: seq<Queued>, i: nat)
    requires i < |batch| && DistinctIds(batch)
    ensures batch[i..] == [batch[i]] + batch[i + 1..] && !Has(batch[i + 1..], batch[i].id)
  {
  }

  /** What an answer takes of the first `i` actions is settled. */
  ghost predicate TakenUpTo(w: World, batch: seq<Queued>, rulings: seq<Ruling>, i: nat)
    requires i <= |batch| == |rulings|
  {
    forall j :: 0 <= j < i && rulings[j].Took? ==> !Awaits(w, batch[j].id) && batch[j].id in w.history.minted
  }

  lemma InTurn(w: World, batch: seq<Queued>, rulings: seq<Ruling>, i: nat)
    requires i < |batch| == |rulings| && DistinctIds(batch) && TakenUpTo(w, batch, rulings, i)
    requires w.reply.Some? && Says(w.reply.value, Keys(batch), rulings)
    ensures IsRuling(w.reply.value, batch[i].id, rulings[i]) && TakenInTurn(w, batch[i].id)
  {
    var r := w.reply.value;
    forall j, k | 0 <= j < k < |r.batch| && r.batch[k] == batch[i].id && r.batch[j] in r.acks ensures !Awaits(w, r.batch[j]) {
      assert r.batch[k] == batch[k].id && r.batch[j] == batch[j].id;
      assert k == i;
      assert IsRuling(r, Keys(batch)[j], rulings[j]);
    }
    assert IsRuling(r, Keys(batch)[i], rulings[i]);
  }

  /** The first `i` rulings of the batch have been carried out. */
  ghost predicate Settled(a: World, b: World, batch: seq<Queued>, rulings: seq<Ruling>, i: nat,
                          deferred: set<Uuid>, deferred': set<Uuid>, tally: Tally, tally': Tally)
    requires i <= |batch| == |rulings|
  {
    && Shrinks(a, b) && b.reply == a.reply && b.history.sends == a.history.sends
    && Counts(tally, a.history, tally', b.history) && AreWaiting(b, batch[i..])
    && b.history.writes == a.history.writes + WritesOf(batch[..i], rulings[..i])
    && deferred' == deferred + Held(batch[..i], rulings[..i]) && TakenUpTo(b, batch, rulings, i)
    && (i > 0 ==> Gone(b, batch[0], deferred') && batch[0].id in b.history.minted)
  }

  lemma OneMoreSettled(a: World, b: World, c: World, batch: seq<Queued>, rulings: seq<Ruling>, i: nat,
                       deferred: set<Uuid>, before: set<Uuid>, after: set<Uuid>, t: Tally, t1: Tally, t2: Tally)
    requires i < |batch| == |rulings| && DistinctIds(batch)
    requires Settled(a, b, batch, rulings, i, deferred, before, t, t1) && Follows(b, c, batch[i], rulings[i], t1, t2)
    requires after == if Holds(rulings[i]) then before + {batch[i].row.subject} else before
    requires Gone(c, batch[i], after)
    ensures Settled(a, c, batch, rulings, i + 1, deferred, after, t, t2)
  {
    WritesSnoc(batch, rulings, i);
    RestWaits(b, c, batch, i);
    ShrinksTransitive(a, b, c);
    if i > 0 { GoneStays(b, c, batch[0], after); }
    forall j | 0 <= j < i + 1 && rulings[j].Took? ensures !Awaits(c, batch[j].id) && batch[j].id in c.history.minted {
      if j < i { GoneStays(b, c, batch[j], {}); }
    }
  }

  /** The actions of the batch whose rulings hold them were left open by a call of this flush. */
  ghost predicate HeldByCalls(calls: seq<Call>, since: Since, batch: seq<Queued>, rulings: seq<Ruling>)
    requires |batch| == |rulings|
  {
    forall i :: 0 <= i < |batch| && Holds(rulings[i]) ==> SomeLeavesOpen(calls, since.calls, batch[i].id)
  }

  /** The rulings are the answer's, on actions that wait and were sent. */
  ghost predicate MaySettleBatch(w: World, batch: seq<Queued>, rulings: seq<Ruling>) {
    && |rulings| == |batch| && DistinctIds(batch)
    && (forall i :: 0 <= i < |batch| ==> batch[i].id in w.history.sends)
    && MaySettle(w) && Says(w.reply.value, Keys(batch), rulings)
    && forall i :: 0 <= i < |batch| && rulings[i].Took? ==> rulings[i].patch.state == Some(Done)
  }

  /** Carries the next ruling of a batch out. */
  method SettleNext(d: Device, batch: seq<Queued>, rulings: seq<Ruling>, i: nat, deferred: set<Uuid>, tally: Tally,
                    ghost start: World, ghost before: set<Uuid>, ghost counted: Tally, ghost since: Since)
    returns (deferred': set<Uuid>, tally': Tally)
    requires d.Valid() && i < |batch| && MaySettleBatch(start, batch, rulings)
    requires Settled(start, d.Now(), batch, rulings, i, before, deferred, counted, tally)
    requires Witnessed(d.Now(), d.calls, since, deferred, batch[i..]) && HeldByCalls(d.calls, since, batch, rulings)
    modifies d
    ensures d.Valid() && d.Budget() == old(d.Budget()) && d.calls == old(d.calls) && old(d.run) <= d.run
    ensures Settled(start, d.Now(), batch, rulings, i + 1, before, deferred', counted, tally')
    ensures Witnessed(d.Now(), d.calls, since, deferred', batch[i + 1..])
  {
    SplitHead(batch, i);
    ghost var now := d.Now();
    InTurn(now, batch, rulings, i);
    assert IsWaiting(now, batch[i..][0]);
    deferred', tally' := Rule(d, batch[i], rulings[i], deferred, tally, batch[i + 1..], since);
    OneMoreSettled(start, now, d.Now(), batch, rulings, i, before, deferred, deferred', counted, tally, tally');
  }

  /** Carries the rulings of a whole batch out, in order. */
  method SettleBatch(d: Device, batch: seq<Queued>, rulings: seq<Ruling>, deferred: set<Uuid>, tally: Tally, ghost since: Since)
    returns (deferred': set<Uuid>, tally': Tally)
    requires d.Valid() && MaySettleBatch(d.Now(), batch, rulings) && AreWaiting(d.Now(), batch)
    requires Witnessed(d.Now(), d.calls, since, deferred, batch) && HeldByCalls(d.calls, since, batch, rulings)
    modifies d
    ensures d.Valid() && d.Budget() == old(d.Budget()) && d.calls == old(d.calls) && old(d.run) <= d.run
    ensures Shrinks(old(d.Now()), d.Now()) && Counts(tally, old(d.history), tally', d.history)
    ensures CarriedOut(old(d.history), d.history, batch, rulings, deferred, deferred')
    ensures forall s :: s in deferred' <==> s in deferred || exists i :: HoldsBack(batch, rulings, i, s)
    ensures Witnessed(d.Now(), d.calls, since, deferred', [])
    ensures batch != [] ==> Gone(d.Now(), batch[0], deferred')
  {
    deferred', tally' := deferred, tally;
    assert batch[0..] == batch;
    ShrinksItself(d.Now());
    for i := 0 to |batch|
      invariant d.Valid() && d.Budget() == old(d.Budget()) && d.calls == old(d.calls) && old(d.run) <= d.run
      invariant Settled(old(d.Now()), d.Now(), batch, rulings, i, deferred, deferred', tally, tally')
      invariant Witnessed(d.Now(), d.calls, since, deferred', batch[i..])
    {
      deferred', tally' := SettleNext(d, batch, rulings, i, deferred', tally', old(d.Now()), deferred, tally, since);
    }
    assert batch[|batch|..] == [] && batch[..|batch|] == batch && rulings[..|batch|] == rulings;
    HeldMeaning(batch, rulings);
  }

  /** An action of the subject has no result, or one that says to retry later. */
  ghost predicate HoldsBack(batch: seq<Queued>, rulings: seq<Ruling>, i: int, subject: Uuid)
    requires |batch| == |rulings|
  {
    && 0 <= i < |batch| && batch[i].row.subject == subject
    && match rulings[i]
       case Missing => true
       case Took(_) => false
       case Ruled(verdict, _, _) => verdict == RetryLater
  }

  lemma HeldMeaning(batch: seq<Queued>, rulings: seq<Ruling>)
    requires |batch| == |rulings|
    ensures forall s :: s in Held(batch, rulings) <==> exists i :: HoldsBack(batch, rulings, i, s)
  {
    forall s ensures s in Held(batch, rulings) <==> exists i :: HoldsBack(batch, rulings, i, s) {
      if s in Held(batch, rulings) {
        var i :| 0 <= i < |batch| && Holds(rulings[i]) && batch[i].row.subject == s;
        assert HoldsBack(batch, rulings, i, s);
      }
    }
  }

  /** The writes of a batch: one for each ruling, in order, and none for an action without a result. */
  ghost predicate AreWrites(batch: seq<Queued>, rulings: seq<Ruling>, at: seq<nat>, writes: seq<Write>)
    requires |batch| == |rulings|
  {
    && Increasing(at) && |writes| == |at|
    && (forall i :: 0 <= i < |at| ==> at[i] < |batch| && IsWriteFor(batch[at[i]], rulings[at[i]], writes[i]))
    && forall k: nat :: k < |batch| && rulings[k] != Missing ==> k in at
  }

  ghost predicate IsWriteFor(x: Queued, ruling: Ruling, write: Write) {
    && write.id == x.id
    && match ruling
       case Missing => false
       case Took(patch) => write.patch == patch
       case Ruled(verdict, code, detail) => IsSettlement(x.row, verdict, code, detail, write.patch)
  }

  lemma OneMoreWrite(batch: seq<Queued>, rulings: seq<Ruling>, at: seq<nat>, writes: seq<Write>, x: Queued, ruling: Ruling)
    requires |batch| == |rulings| && AreWrites(batch, rulings, at, writes)
    ensures AreWrites(batch + [x], rulings + [ruling], at + (if ruling.Missing? then [] else [|batch|]), writes + WriteOf(x, ruling))
  {
    if !ruling.Missing? { assert IsWriteFor(x, ruling, WriteOf(x, ruling)[0]); }
  }

  lemma {:induction false} WritesMeaning(batch: seq<Queued>, rulings: seq<Ruling>) returns (at: seq<nat>)
    requires |batch| == |rulings|
    ensures AreWrites(batch, rulings, at, WritesOf(batch, rulings))
  {
    if batch == [] {
      at := [];
    } else {
      var n := |batch| - 1;
      var before := WritesMeaning(batch[..n], rulings[..n]);
      OneMoreWrite(batch[..n], rulings[..n], before, WritesOf(batch[..n], rulings[..n]), batch[n], rulings[n]);
      at := before + if rulings[n].Missing? then [] else [n];
      assert batch == batch[..n] + [batch[n]] && rulings == rulings[..n] + [rulings[n]];
    }
  }

  lemma ShrinksItself(w: World)
    ensures Shrinks(w, w)
  {
  }

  lemma WritesSnoc(batch: seq<Queued>, rulings: seq<Ruling>, i: nat)
    requires |batch| == |rulings| && i < |batch|
    ensures WritesOf(batch[..i + 1], rulings[..i + 1]) == WritesOf(batch[..i], rulings[..i]) + WriteOf(batch[i], rulings[i])
    ensures Held(batch[..i + 1], rulings[..i + 1])
            == Held(batch[..i], rulings[..i]) + if Holds(rulings[i]) then {batch[i].row.subject} else {}
  {
    assert batch[..i + 1][..i] == batch[..i] && rulings[..i + 1][..i] == rulings[..i];
    assert batch[..i + 1][i] == batch[i] && rulings[..i + 1][i] == rulings[i];
  }

  lemma RestWaits(a: World, b: World, batch: seq<Queued>, i: nat)
    requires i < |batch| && DistinctIds(batch) && AreWaiting(a, batch[i..]) && OthersKept(a, b, batch[i].id)
    ensures AreWaiting(b, batch[i + 1..])
  {
    var from, rest := batch[i..], batch[i + 1..];
    forall j | 0 <= j < |rest| ensures IsWaiting(b, rest[j]) {
      assert rest[j] == from[j + 1];
      assert IsWaiting(a, from[j + 1]);
      assert Stays(a, b, rest[j].id);
    }
  }

  // ── One batch ──────────────────────────────────────────────────────────────

  /** The rows were in the table when the queue was read, after the flush began. */
  ghost predicate IsFresh(q: seq<Queued>, since: Since) { forall i :: 0 <= i < |q| ==> q[i].id !in since.lost }

  /** The queue's own actions do not hold a deferred subject back, nor does the one the batch stopped before. */
  lemma BatchIsNoWitness(w: World, calls: seq<Call>, since: Since, deferred: set<Uuid>, horizon: nat, q: seq<Queued>, n: nat)
    requires IsQueue(w, deferred, horizon, q) && n <= |q| && Witnessed(w, calls, since, deferred, []) && IsFresh(q, since)
    ensures DistinctIds(q[..n]) && AreWaiting(w, q[..n])
    ensures Witnessed(w, calls, since, deferred, q[..n])
    ensures n < |q| && WithoutSlot(w, q[n]) ==> Witnessed(w, calls, since, deferred + {q[n].row.subject}, q[..n])
  {
    forall i, j | 0 <= i < j < |q| ensures q[i].id != q[j].id {
      assert IsWaiting(w, q[i]) && IsWaiting(w, q[j]);
    }
    forall i | 0 <= i < |q| ensures IsWaiting(w, q[i]) && Witness(w, q[i].id, q[i].row.subject) {
    }
    forall s | s in deferred ensures exists k :: Holding(w, calls, since, k, s) && !Has(q[..n], k) {
      var k :| Holding(w, calls, since, k, s) && !Has([], k);
      assert !Has(q[..n], k);
    }
    if n < |q| && WithoutSlot(w, q[n]) {
      assert Holding(w, calls, since, q[n].id, q[n].row.subject) && !Has(q[..n], q[n].id);
    }
  }

  method CountAttempt(d: Device, x: Queued, code: string, detail: string)
    requires d.Valid() && IsWaiting(d.Now(), x) && x.id in d.history.sends
    modifies d
    ensures d.Valid() && d.Budget() == old(d.Budget()) && d.calls == old(d.calls) && old(d.run) <= d.run
    ensures OthersKept(old(d.Now()), d.Now(), x.id) && Shrinks(old(d.Now()), d.Now())
    ensures d.history.sends == old(d.history.sends) && SameOutcomes(old(d.history), d.history)
    ensures d.history.writes == old(d.history.writes) + WriteOf(x, Ruled(RetryLater, code, detail))
  {
    d.Sound();
    ghost var before := d.Now();
    var patch := ActionPatch(None, Some(x.row.attempts + 1), Some(Some(code)), Some(Some(detail)));
    d.UpdateAction(x.id, patch);
    WriteEffect(before, d.Now(), x, patch, Tally(0, 0, 0));
  }

  /** The envelope was refused: the actions of the batch stay, one attempt older. */
  method CountAttempts(d: Device, batch: seq<Queued>, code: string, detail: string, ghost deferred: set<Uuid>, ghost since: Since)
    requires d.Valid() && DistinctIds(batch) && AreWaiting(d.Now(), batch) && Witnessed(d.Now(), d.calls, since, deferred, batch)
    requires forall i :: 0 <= i < |batch| ==> batch[i].id in d.history.sends
    modifies d
    ensures d.Valid() && d.Budget() == old(d.Budget()) && d.calls == old(d.calls) && old(d.run) <= d.run
    ensures Shrinks(old(d.Now()), d.Now()) && SameOutcomes(old(d.history), d.history)
    ensures Witnessed(d.Now(), d.calls, since, deferred, [])
    ensures d.history.writes == old(d.history.writes) + WritesOf(batch, AllRuled(|batch|, RetryLater, code, detail))
  {
    ghost var rulings := AllRuled(|batch|, RetryLater, code, detail);
    assert batch[0..] == batch;
    ShrinksItself(d.Now());
    for i := 0 to |batch|
      invariant d.Valid() && d.Budget() == old(d.Budget()) && d.calls == old(d.calls) && old(d.run) <= d.run
      invariant d.history.sends == old(d.history.sends) && Shrinks(old(d.Now()), d.Now())
      invariant SameOutcomes(old(d.history), d.history)
      invariant d.history.writes == old(d.history.writes) + WritesOf(batch[..i], rulings[..i])
      invariant AreWaiting(d.Now(), batch[i..]) && Witnessed(d.Now(), d.calls, since, deferred, batch)
    {
      ghost var before := d.Now();
      assert IsWaiting(before, batch[i..][0]);
      CountAttempt(d, batch[i], code, detail);
      WritesSnoc(batch, rulings, i);
      RestWaits(before, d.Now(), batch, i);
      ShrinksTransitive(old(d.Now()), before, d.Now());
      WitnessWaits(before, d.Now(), d.calls, since, batch[i].id, deferred, batch, batch);
    }
    assert batch[..|batch|] == batch && rulings[..|batch|] == rulings;
    WitnessedByAny(d.Now(), d.calls, since, deferred, batch);
  }

  /** All the flush has done so far: nothing waits that did not, and the tally is right. */
  ghost predicate Progress(a: World, b: World, t: Tally, t': Tally) {
    Shrinks(a, b) && Counts(t, a.history, t', b.history)
  }

  lemma ProgressTransitive(a: World, b: World, c: World, t: Tally, t1: Tally, t2: Tally)
    requires Progress(a, b, t, t1) && Progress(b, c, t1, t2)
    ensures Progress(a, c, t, t2)
  {
    ShrinksTransitive(a, b, c);
  }

  lemma WitnessedByAny(w: World, calls: seq<Call>, since: Since, deferred: set<Uuid>, except: seq<Queued>)
    requires Witnessed(w, calls, since, deferred, except)
    ensures Witnessed(w, calls, since, deferred, [])
  {
    forall s | s in deferred ensures exists k :: Holding(w, calls, since, k, s) && !Has([], k) {
      var k :| Holding(w, calls, since, k, s) && !Has(except, k);
      assert !Has([], k);
    }
  }

  /** A prepared prefix of the queue may be sent. */
  lemma MayBeSent(w: World, deferred: set<Uuid>, horizon: nat, q: seq<Queued>, items: seq<Item>)
    requires IsQueue(w, deferred, horizon, q) && Prepared(w, q, items) && IsBatch(items)
    ensures MaySend(w, items)
  {
    PrefixOvertakesNothing(w, deferred, horizon, q, items);
    forall i | 0 <= i < |items| ensures MayItem(w, items[i]) { assert IsPrepared(w, q[i], items[i]); }
  }

  /** The batch and its items, ready to be sent: `deferred` are the subjects that must wait. */
  ghost predicate Ready(w: World, calls: seq<Call>, since: Since, base: set<Uuid>, horizon: nat, q: seq<Queued>,
                        items: seq<Item>, deferred: set<Uuid>) {
    && IsQueue(w, base, horizon, q) && items != [] && Prepared(w, q, items) && IsBatch(items)
    && Witnessed(w, calls, since, deferred, q[..|items|])
  }

  lemma ReadyWaits(a: World, b: World, calls: seq<Call>, calls': seq<Call>, since: Since, base: set<Uuid>, horizon: nat,
                   q: seq<Queued>, items: seq<Item>, deferred: set<Uuid>)
    requires Waiting(a, b) && calls <= calls' && Ready(a, calls, since, base, horizon, q, items, deferred)
    ensures Ready(b, calls', since, base, horizon, q, items, deferred)
  {
    QueueWaits(a, b, base, horizon, q);
    PreparedWaits(a, b, q, items);
    WaitingIsUndisturbed(a, b);
    WitnessStays(a, b, calls, calls', since, deferred, q[..|items|]);
  }

  lemma ReadyBatch(w: World, calls: seq<Call>, since: Since, base: set<Uuid>, horizon: nat, q: seq<Queued>, items: seq<Item>,
                   deferred: set<Uuid>)
    requires Ready(w, calls, since, base, horizon, q, items, deferred)
    ensures MaySend(w, items) && DistinctIds(q[..|items|]) && AreWaiting(w, q[..|items|])
    ensures KeysOf(items) == Keys(q[..|items|])
  {
    MayBeSent(w, base, horizon, q, items);
    forall i | 0 <= i < |items| ensures items[i].key == q[i].id && IsWaiting(w, q[i]) {
      assert IsPrepared(w, q[i], items[i]);
    }
    forall i, j | 0 <= i < j < |items| ensures q[i].id != q[j].id {
      assert IsWaiting(w, q[i]) && IsWaiting(w, q[j]);
    }
  }

  /** The batch after a call: its actions wait as before and were put on the wire. */
  ghost predicate Asked(w: World, calls: seq<Call>, since: Since, batch: seq<Queued>, deferred: set<Uuid>) {
    && DistinctIds(batch) && AreWaiting(w, batch)
    && Witnessed(w, calls, since, deferred, batch) && Witnessed(w, calls, since, deferred, [])
    && forall i :: 0 <= i < |batch| ==> batch[i].id in w.history.sends
  }

  lemma AnsweredBatch(a: World, b: World, calls: seq<Call>, calls': seq<Call>, since: Since, base: set<Uuid>, horizon: nat,
                      q: seq<Queued>, items: seq<Item>, deferred: set<Uuid>)
    requires Ready(a, calls, since, base, horizon, q, items, deferred) && Waiting(a, b) && calls <= calls'
    requires b.history.sends == a.history.sends + KeysOf(items)
    ensures Asked(b, calls', since, q[..|items|], deferred) && Undisturbed(a, b)
  {
    WaitingIsUndisturbed(a, b);
    ReadyWaits(a, b, calls, calls', since, base, horizon, q, items, deferred);
    ReadyBatch(b, calls', since, base, horizon, q, items, deferred);
    WitnessedByAny(b, calls', since, deferred, q[..|items|]);
    forall i | 0 <= i < |items| ensures q[..|items|][i].id in b.history.sends {
      assert b.history.sends[|a.history.sends| + i] == Keys(q[..|items|])[i];
    }
  }

  /** The answer of a sync: its routes are saved before any of its actions leaves the overlay. */
  method TakeSync(d: Device, batch: seq<Queued>, response: SyncResponse, deferred: set<Uuid>, tally: Tally, ghost since: Since)
    returns (deferred': set<Uuid>, tally': Tally)
    requires d.Valid() && Asked(d.Now(), d.calls, since, batch, deferred)
    requires Unsaved(d.Now()) && d.reply.value.routes.value == RouteAnswer(response.active, response.updates)
    requires Says(d.reply.value, Keys(batch), SyncRulings(response.results, Keys(batch)))
    requires HeldByCalls(d.calls, since, batch, SyncRulings(response.results, Keys(batch)))
    modifies d
    ensures d.Valid() && d.Budget() == old(d.Budget()) && d.calls == old(d.calls) && old(d.run) + [Step.SaveRoutes] <= d.run
    ensures Progress(old(d.Now()), d.Now(), tally, tally')
    ensures CarriedOut(old(d.history), d.history, batch, SyncRulings(response.results, Keys(batch)), deferred, deferred')
    ensures Witnessed(d.Now(), d.calls, since, deferred', []) && (batch != [] ==> Gone(d.Now(), batch[0], deferred'))
  {
    ghost var before := d.Now();
    d.Sound();
    d.SaveRoutes(response.active, response.updates);
    ghost var saved := d.Now();
    SavedBatch(before, saved, d.calls, since, batch, response, deferred);
    deferred', tally' := SettleBatch(d, batch, SyncRulings(response.results, Keys(batch)), deferred, tally, since);
    ProgressTransitive(before, saved, d.Now(), tally, tally, tally');
  }

  lemma StaysAsked(a: World, b: World, batch: seq<Queued>)
    requires ActionsWait(a, b) && AreWaiting(a, batch)
    ensures AreWaiting(b, batch)
  {
    forall i | 0 <= i < |batch| ensures IsWaiting(b, batch[i]) { assert Stays(a, b, batch[i].id); }
  }

  lemma SavedBatch(a: World, b: World, calls: seq<Call>, since: Since, batch: seq<Queued>, response: SyncResponse, deferred: set<Uuid>)
    requires LostIsSound(a) && Asked(a, calls, since, batch, deferred)
    requires Unsaved(a) && Says(a.reply.value, Keys(batch), SyncRulings(response.results, Keys(batch)))
    requires Meanwhile(Apply(a, Step.SaveRoutes), b)
    ensures Undisturbed(a, b) && AreWaiting(b, batch) && Witnessed(b, calls, since, deferred, batch)
    ensures MaySettleBatch(b, batch, SyncRulings(response.results, Keys(batch)))
  {
    SavedIsWaiting(a, b);
    WitnessStays(a, b, calls, calls, since, deferred, batch);
    StaysAsked(a, b, batch);
    var rulings := SyncRulings(response.results, Keys(batch));
    forall i | 0 <= i < |batch| ensures IsRuling(b.reply.value, Keys(batch)[i], rulings[i]) {
      assert IsRuling(a.reply.value, Keys(batch)[i], rulings[i]);
    }
  }

  lemma SavedIsWaiting(a: World, b: World)
    requires LostIsSound(a) && Unsaved(a) && Meanwhile(Apply(a, Step.SaveRoutes), b)
    ensures Undisturbed(a, b) && b.reply == Some(a.reply.value.(saved := true)) && b.history.sends == a.history.sends
  {
    var mid := Apply(a, Step.SaveRoutes);
    forall k ensures (Awaits(mid, k) <==> Awaits(a, k)) && (Awaits(a, k) ==> Stays(a, mid, k) && SlotsStay(a, mid, k)) {}
    assert Undisturbed(a, mid);
    WaitingIsUndisturbed(mid, b);
    UndisturbedTransitive(a, mid, b);
  }

  /** The known versions are read, then the batch is sent. */
  method AskSync(d: Device, queue: seq<Queued>, items: seq<Item>, ghost deferred: set<Uuid>, ghost base: set<Uuid>,
                 ghost horizon: nat, ghost since: Since)
    returns (outcome: Attempt<SyncResponse>)
    requires d.Valid() && Ready(d.Now(), d.calls, since, base, horizon, queue, items, deferred) && IsSyncBatch(items)
    modifies d
    ensures d.Valid() && d.Budget() == old(d.Budget()) && old(d.run) <= d.run && Undisturbed(old(d.Now()), d.Now())
    ensures d.calls == old(d.calls) + [SyncCall(Keys(queue[..|items|]), outcome)]
    ensures Asked(d.Now(), d.calls, since, queue[..|items|], deferred)
    ensures outcome.Ok? ==> Unsaved(d.Now()) && d.reply.value.routes.value == RouteAnswer(outcome.value.active, outcome.value.updates)
    ensures outcome.Ok? ==>
              var keys := Keys(queue[..|items|]); Says(d.reply.value, keys, SyncRulings(outcome.value.results, keys))
    ensures outcome.Ok? ==> exists k :: |old(d.run)| <= k < |d.run| && IsAnsweredSync(d.run[k])
  {
    ghost var start, made := d.Now(), d.calls;
    var known := d.RouteVersions();
    ghost var ready := d.Now();
    ReadyWaits(start, ready, made, made, since, base, horizon, queue, items, deferred);
    ReadyBatch(ready, made, since, base, horizon, queue, items, deferred);
    outcome := d.Sync(items, known);
    AnsweredBatch(ready, d.Now(), made, d.calls, since, base, horizon, queue, items, deferred);
    WaitingTransitive(start, ready, d.Now());
    WaitingIsUndisturbed(start, d.Now());
  }

  lemma SavedAfterCall(a: seq<Step>, b: seq<Step>, c: seq<Step>)
    requires a <= b && b + [Step.SaveRoutes] <= c
    requires exists k :: |a| <= k < |b| && IsAnsweredSync(b[k])
    ensures Saved(a, c)
  {
    var k :| |a| <= k < |b| && IsAnsweredSync(b[k]);
    assert c[k] == b[k] && c[|b|] == (b + [Step.SaveRoutes])[|b|];
  }

  lemma HeldBySync(calls: seq<Call>, calls': seq<Call>, since: Since, batch: seq<Queued>, response: SyncResponse)
    requires since.calls <= |calls| && calls' == calls + [SyncCall(Keys(batch), Ok(response))]
    ensures HeldByCalls(calls', since, batch, SyncRulings(response.results, Keys(batch)))
  {
    var call := SyncCall(Keys(batch), Ok(response));
    OneCall(calls, call);
    Earlier(calls, calls', since.calls);
    forall i | 0 <= i < |batch| && Holds(SyncRulings(response.results, Keys(batch))[i])
      ensures SomeLeavesOpen(calls', since.calls, batch[i].id)
    {
      assert Keys(batch)[i] == batch[i].id;
      assert LeavesOpen(call, batch[i].id);
      assert SomeLeavesOpen(calls', |calls|, batch[i].id);
    }
  }

  /** What each outcome of a sync comes to: nothing, one attempt more, or the rulings of its results. */
  ghost predicate Obeys(a: History, b: History, batch: seq<Queued>, outcome: Attempt<SyncResponse>, next: Next) {
    match outcome
    case Transient => next.Offline? && b.writes == a.writes
    case RefusedCall(code, detail) =>
      next.Stop? && b.writes == a.writes + WritesOf(batch, AllRuled(|batch|, RetryLater, code, detail))
    case Ok(response) => next.GoOn? && b.writes == a.writes + WritesOf(batch, SyncRulings(response.results, Keys(batch)))
  }

  /** One sync call and what its answer asks for. */
  method SendSync(d: Device, queue: seq<Queued>, items: seq<Item>, deferred: set<Uuid>, tally: Tally,
                  ghost base: set<Uuid>, ghost horizon: nat, ghost since: Since)
    returns (next: Next, deferred': set<Uuid>, tally': Tally, ghost outcome: Attempt<SyncResponse>)
    requires d.Valid() && Ready(d.Now(), d.calls, since, base, horizon, queue, items, deferred) && IsSyncBatch(items)
    modifies d
    ensures d.Valid() && d.Budget() == old(d.Budget()) && old(d.run) <= d.run
    ensures d.calls == old(d.calls) + [SyncCall(Keys(queue[..|items|]), outcome)]
    ensures Progress(old(d.Now()), d.Now(), tally, tally')
    ensures deferred <= deferred' && Witnessed(d.Now(), d.calls, since, deferred', [])
    ensures next.GoOn? ==> Gone(d.Now(), queue[0], deferred')
    ensures !next.GoOn? ==> deferred' == deferred && tally' == tally
    ensures Obeys(old(d.history), d.history, queue[..|items|], outcome, next)
    ensures outcome.Ok? ==>
              var batch := queue[..|items|]; deferred' == deferred + Held(batch, SyncRulings(outcome.value.results, Keys(batch)))
    ensures next.GoOn? ==> Saved(old(d.run), d.run)
  {
    ghost var start, made := d.Now(), d.calls;
    deferred', tally' := deferred, tally;
    var batch := queue[..|items|];
    var answer := AskSync(d, queue, items, deferred, base, horizon, since);
    outcome := answer;
    ghost var asked, sofar := d.Now(), d.run;
    match answer {
      case Transient =>
        next := Offline;
      case RefusedCall(code, detail) =>
        next := Stop;
        CountAttempts(d, batch, code, detail, deferred, since);
      case Ok(response) =>
        next := GoOn;
        HeldBySync(made, d.calls, since, batch, response);
        deferred', tally' := TakeSync(d, batch, response, deferred, tally, since);
        SavedAfterCall(old(d.run), sofar, d.run);
    }
    ProgressTransitive(start, asked, d.Now(), tally, tally, tally');
  }

  lemma PrefixOfPrefix(w: World, q: seq<Queued>, batch: seq<Queued>, items: seq<Item>)
    requires batch <= q && Prepared(w, batch, items)
    ensures Prepared(w, q, items)
    ensures forall i :: 0 <= i < |items| ==> items[i].kind == batch[i].row.kind && items[i].subject == batch[i].row.subject
  {
    forall i | 0 <= i < |items|
      ensures IsPrepared(w, q[i], items[i]) && items[i].kind == batch[i].row.kind && items[i].subject == batch[i].row.subject
    {
      assert IsPrepared(w, batch[i], items[i]);
    }
  }

  /** The items of the sync actions the queue starts with, and the subjects that must wait. */
  method MakeItems(d: Device, queue: seq<Queued>, deferred: set<Uuid>, ghost horizon: nat, ghost since: Since)
    returns (items: seq<Item>, held: set<Uuid>)
    requires d.Valid() && IsQueue(d.Now(), deferred, horizon, queue) && Witnessed(d.Now(), d.calls, since, deferred, [])
    requires IsFresh(queue, since) && queue != [] && IsSyncKind(queue[0].row.kind)
    modifies d
    ensures d.Valid() && d.Budget() == old(d.Budget()) && d.calls == old(d.calls) && old(d.run) <= d.run
    ensures Undisturbed(old(d.Now()), d.Now()) && deferred <= held
    ensures items == [] ==> Witnessed(d.Now(), d.calls, since, held, []) && queue[0].row.subject in held
    ensures |items| <= |queue|
    ensures || (held == deferred && (|items| == 100 || |items| == |queue| || !IsSyncKind(queue[|items|].row.kind)))
            || (|items| < |queue| && held == deferred + {queue[|items|].row.subject} && WithoutSlot(d.Now(), queue[|items|]))
    ensures items != [] ==> Ready(d.Now(), d.calls, since, deferred, horizon, queue, items, held) && IsSyncBatch(items)
  {
    ghost var start := d.Now();
    var batch := TakeWhile(queue, (x: Queued) => IsSyncKind(x.row.kind), MAX_SYNC_ITEMS);
    items, held := CollectItems(d, batch, deferred);
    ItemsMade(start, d.Now(), d.calls, since, deferred, held, horizon, queue, batch, items);
  }

  lemma ItemsMade(a: World, b: World, calls: seq<Call>, since: Since, deferred: set<Uuid>, held: set<Uuid>, horizon: nat,
                  queue: seq<Queued>, batch: seq<Queued>, items: seq<Item>)
    requires Waiting(a, b) && IsQueue(a, deferred, horizon, queue) && Witnessed(a, calls, since, deferred, []) && IsFresh(queue, since)
    requires batch <= queue && |batch| <= MAX_SYNC_ITEMS && Prepared(b, batch, items)
    requires forall i :: 0 <= i < |batch| ==> IsSyncKind(batch[i].row.kind)
    requires held == deferred + if |items| < |batch| then {batch[|items|].row.subject} else {}
    requires |items| < |batch| ==> WithoutSlot(b, batch[|items|])
    ensures Undisturbed(a, b) && Witnessed(b, calls, since, held, [])
    ensures items != [] ==> Ready(b, calls, since, deferred, horizon, queue, items, held) && IsSyncBatch(items)
  {
    QueueWaits(a, b, deferred, horizon, queue);
    WaitingIsUndisturbed(a, b);
    WitnessStays(a, b, calls, calls, since, deferred, []);
    PrefixOfPrefix(b, queue, batch, items);
    BatchIsNoWitness(b, calls, since, deferred, horizon, queue, |items|);
    WitnessedByAny(b, calls, since, held, queue[..|items|]);
  }

  /** The queue starts with an action of the sync call. */
  method SyncBatch(d: Device, queue: seq<Queued>, deferred: set<Uuid>, tally: Tally, ghost horizon: nat, ghost since: Since)
    returns (next: Next, deferred': set<Uuid>, tally': Tally, called: bool, ghost sent: nat, ghost outcome: Attempt<SyncResponse>)
    requires d.Valid() && IsQueue(d.Now(), deferred, horizon, queue) && Witnessed(d.Now(), d.calls, since, deferred, [])
    requires IsFresh(queue, since) && queue != [] && IsSyncKind(queue[0].row.kind)
    modifies d
    ensures d.Valid() && d.Budget() == old(d.Budget()) && old(d.run) <= d.run
    ensures called ==> 0 < sent <= |queue| && d.calls == old(d.calls) + [SyncCall(Keys(queue[..sent]), outcome)]
    ensures !called ==> d.calls == old(d.calls)
    ensures Progress(old(d.Now()), d.Now(), tally, tally')
    ensures deferred <= deferred' && Witnessed(d.Now(), d.calls, since, deferred', [])
    ensures next.GoOn? ==> Gone(d.Now(), queue[0], deferred')
    ensures next.GoOn? && called ==> Saved(old(d.run), d.run)
    ensures called ==> Obeys(old(d.history), d.history, queue[..sent], outcome, next)
    ensures !called ==> next.GoOn? && d.history.writes == old(d.history.writes) && deferred' == deferred + {queue[0].row.subject}
  {
    ghost var start := d.Now();
    var items, held := MakeItems(d, queue, deferred, horizon, since);
    called, sent, outcome := items != [], |items|, Transient;
    if items == [] {
      next, deferred', tally' := GoOn, held, tally;
    } else {
      ghost var made, sofar := d.Now(), d.run;
      next, deferred', tally', outcome := SendSync(d, queue, items, held, tally, deferred, horizon, since);
      ProgressTransitive(start, made, d.Now(), tally, tally, tally');
      if next.GoOn? { StaysSaved(old(d.run), sofar, d.run, d.run); }
    }
  }

  // ── Pickups ────────────────────────────────────────────────────────────────

  /** The payload as it is, under the action's key. */
  function PlainItem(x: Queued): Item {
    Item(x.id, x.row.kind, x.row.subject, x.row.payload.body,
         if x.row.payload.pod.Some? then Some(Pod(x.row.payload.pod.value, None, [])) else None)
  }

  function PlainItems(batch: seq<Queued>): (r: seq<Item>)
    ensures |r| == |batch| && forall i :: 0 <= i < |r| ==> r[i] == PlainItem(batch[i])
  {
    seq(|batch|, i requires 0 <= i < |batch| => PlainItem(batch[i]))
  }

  lemma PlainIsReady(w: World, calls: seq<Call>, since: Since, deferred: set<Uuid>, horizon: nat, q: seq<Queued>, batch: seq<Queued>)
    requires IsQueue(w, deferred, horizon, q) && Witnessed(w, calls, since, deferred, []) && IsFresh(q, since)
    requires batch <= q && batch != [] && IsBatch(PlainItems(batch))
    requires forall i :: 0 <= i < |batch| ==> !IsSyncKind(batch[i].row.kind)
    ensures Ready(w, calls, since, deferred, horizon, q, PlainItems(batch), deferred) && q[..|batch|] == batch
    ensures MaySend(w, PlainItems(batch)) && KeysOf(PlainItems(batch)) == Keys(batch)
  {
    BatchIsNoWitness(w, calls, since, deferred, horizon, q, |batch|);
    var items := PlainItems(batch);
    forall i | 0 <= i < |items| ensures IsPrepared(w, q[i], items[i]) { assert IsWaiting(w, q[i]); }
    ReadyBatch(w, calls, since, deferred, horizon, q, items, deferred);
  }

  method AskScans(d: Device, queue: seq<Queued>, batch: seq<Queued>, ghost deferred: set<Uuid>, ghost horizon: nat, ghost since: Since)
    returns (outcome: Attempt<seq<ScanResult>>)
    requires d.Valid() && IsQueue(d.Now(), deferred, horizon, queue) && Witnessed(d.Now(), d.calls, since, deferred, [])
    requires IsFresh(queue, since) && batch <= queue && batch != [] && IsBatch(PlainItems(batch))
    requires forall i :: 0 <= i < |batch| ==> batch[i].row.kind.PickupScan?
    modifies d
    ensures d.Valid() && d.Budget() == old(d.Budget()) && old(d.run) <= d.run && Undisturbed(old(d.Now()), d.Now())
    ensures d.calls == old(d.calls) + [ScanCall(Keys(batch), outcome)]
    ensures Asked(d.Now(), d.calls, since, batch, deferred)
    ensures !outcome.Transient? ==>
              MaySettle(d.Now()) && Says(d.reply.value, Keys(batch), ScanOutcomes(outcome, |batch|))
  {
    ghost var start, made := d.Now(), d.calls;
    PlainIsReady(start, made, since, deferred, horizon, queue, batch);
    assert PlainItems(batch)[0].kind.PickupScan?;
    outcome := d.ScanBatch(PlainItems(batch));
    AnsweredBatch(start, d.Now(), made, d.calls, since, deferred, horizon, queue, PlainItems(batch), deferred);
  }

  /** The scans the queue starts with, of one pickup: all of them, up to the maximum of a call. */
  ghost predicate IsScanRun(queue: seq<Queued>, batch: seq<Queued>) {
    && batch <= queue && 0 < |batch| <= 200
    && (forall i :: 0 <= i < |batch| ==> batch[i].row.kind.PickupScan? && batch[i].row.subject == queue[0].row.subject)
    && (|batch| < |queue| && |batch| < 200
        ==> !(queue[|batch|].row.kind.PickupScan? && queue[|batch|].row.subject == queue[0].row.subject))
  }

  lemma HeldByScans(calls: seq<Call>, calls': seq<Call>, since: Since, batch: seq<Queued>, outcome: Attempt<seq<ScanResult>>)
    requires since.calls <= |calls| && !outcome.Transient? && calls' == calls + [ScanCall(Keys(batch), outcome)]
    ensures HeldByCalls(calls', since, batch, ScanOutcomes(outcome, |batch|))
  {
    var call := ScanCall(Keys(batch), outcome);
    OneCall(calls, call);
    Earlier(calls, calls', since.calls);
    forall i | 0 <= i < |batch| && Holds(ScanOutcomes(outcome, |batch|)[i]) ensures SomeLeavesOpen(calls', since.calls, batch[i].id) {
      assert Keys(batch)[i] == batch[i].id;
      assert LeavesOpen(call, batch[i].id);
      assert SomeLeavesOpen(calls', |calls|, batch[i].id);
    }
  }

  lemma RunOfScans(queue: seq<Queued>, scans: seq<Queued>)
    requires queue != [] && queue[0].row.kind.PickupScan? && scans <= queue && |scans| <= MAX_SCANS
    requires forall i :: 0 <= i < |scans| ==> scans[i].row.kind.PickupScan? && scans[i].row.subject == queue[0].row.subject
    requires |scans| < |queue| && |scans| < MAX_SCANS
             ==> !(queue[|scans|].row.kind.PickupScan? && queue[|scans|].row.subject == queue[0].row.subject)
    ensures IsScanRun(queue, scans) && IsBatch(PlainItems(scans)) && scans[0] == queue[0]
  {
  }

  lemma OutcomesTake(outcome: Attempt<seq<ScanResult>>, n: nat)
    requires !outcome.Transient?
    ensures forall i :: 0 <= i < n && ScanOutcomes(outcome, n)[i].Took? ==> ScanOutcomes(outcome, n)[i].patch.state == Some(Done)
  {
  }

  /** The queue starts with a scan: it is sent with the scans of the same pickup behind it. */
  method ScanBatch(d: Device, queue: seq<Queued>, deferred: set<Uuid>, tally: Tally, ghost horizon: nat, ghost since: Since)
    returns (next: Next, deferred': set<Uuid>, tally': Tally, ghost batch: seq<Queued>, ghost outcome: Attempt<seq<ScanResult>>)
    requires d.Valid() && IsQueue(d.Now(), deferred, horizon, queue) && Witnessed(d.Now(), d.calls, since, deferred, [])
    requires IsFresh(queue, since) && queue != [] && queue[0].row.kind.PickupScan?
    modifies d
    ensures d.Valid() && d.Budget() == old(d.Budget()) && old(d.run) <= d.run
    ensures d.calls == old(d.calls) + [ScanCall(Keys(batch), outcome)]
    ensures Progress(old(d.Now()), d.Now(), tally, tally')
    ensures deferred <= deferred' && Witnessed(d.Now(), d.calls, since, deferred', [])
    ensures next.GoOn? ==> Gone(d.Now(), queue[0], deferred')
    ensures IsScanRun(queue, batch) && (next.Offline? <==> outcome.Transient?) && !next.Stop?
    ensures outcome.Transient? ==> d.history.writes == old(d.history.writes)
    ensures !outcome.Transient? ==>
              CarriedOut(old(d.history), d.history, batch, ScanOutcomes(outcome, |batch|), deferred, deferred')
  {
    ghost var start, made := d.Now(), d.calls;
    deferred', tally' := deferred, tally;
    var pickup := queue[0].row.subject;
    var scans := TakeWhile(queue, (x: Queued) => x.row.kind.PickupScan? && x.row.subject == pickup, MAX_SCANS);
    RunOfScans(queue, scans);
    var answer := AskScans(d, queue, scans, deferred, horizon, since);
    batch, outcome := scans, answer;
    ghost var asked := d.Now();
    if answer.Transient? {
      next := Offline;
    } else {
      next := GoOn;
      HeldByScans(made, d.calls, since, scans, answer);
      OutcomesTake(answer, |scans|);
      deferred', tally' := SettleBatch(d, scans, ScanOutcomes(answer, |scans|), deferred, tally, since);
    }
    ProgressTransitive(start, asked, d.Now(), tally, tally, tally');
  }

  lemma OneWrite(x: Queued, ruling: Ruling)
    ensures WritesOf([x], [ruling]) == WriteOf(x, ruling)
  {
    assert [x][..0] == [];
  }

  method AskPickup(d: Device, queue: seq<Queued>, ghost deferred: set<Uuid>, ghost horizon: nat, ghost since: Since)
    returns (outcome: Attempt<()>)
    requires d.Valid() && IsQueue(d.Now(), deferred, horizon, queue) && Witnessed(d.Now(), d.calls, since, deferred, [])
    requires IsFresh(queue, since) && queue != [] && (queue[0].row.kind.PickupCollect? || queue[0].row.kind.PickupComplete?)
    modifies d
    ensures d.Valid() && d.Budget() == old(d.Budget()) && old(d.run) <= d.run && Undisturbed(old(d.Now()), d.Now())
    ensures d.calls == old(d.calls) + [Call.PickupCall(queue[0].id, outcome)]
    ensures Asked(d.Now(), d.calls, since, [queue[0]], deferred)
    ensures !outcome.Transient? ==> MaySettle(d.Now()) && Says(d.reply.value, [queue[0].id], [PickupRuling(outcome)])
  {
    ghost var start, made := d.Now(), d.calls;
    var batch := [queue[0]];
    assert PlainItems(batch) == [PlainItem(queue[0])] && batch <= queue;
    PlainIsReady(start, made, since, deferred, horizon, queue, batch);
    outcome := d.CallPickup(PlainItem(queue[0]));
    assert KeysOf(PlainItems(batch)) == [queue[0].id];
    AnsweredBatch(start, d.Now(), made, d.calls, since, deferred, horizon, queue, PlainItems(batch), deferred);
  }

  /** The queue starts with the collection or the completion of a pickup. */
  method PickupCall(d: Device, queue: seq<Queued>, deferred: set<Uuid>, tally: Tally, ghost horizon: nat, ghost since: Since)
    returns (next: Next, deferred': set<Uuid>, tally': Tally, ghost outcome: Attempt<()>)
    requires d.Valid() && IsQueue(d.Now(), deferred, horizon, queue) && Witnessed(d.Now(), d.calls, since, deferred, [])
    requires IsFresh(queue, since) && queue != [] && (queue[0].row.kind.PickupCollect? || queue[0].row.kind.PickupComplete?)
    modifies d
    ensures d.Valid() && d.Budget() == old(d.Budget()) && old(d.run) <= d.run
    ensures d.calls == old(d.calls) + [Call.PickupCall(queue[0].id, outcome)]
    ensures Progress(old(d.Now()), d.Now(), tally, tally')
    ensures deferred' == deferred && Witnessed(d.Now(), d.calls, since, deferred', [])
    ensures next.GoOn? ==> Gone(d.Now(), queue[0], deferred')
    ensures (next.Offline? <==> outcome.Transient?) && !next.Stop?
    ensures d.history.writes
            == old(d.history.writes) + if outcome.Transient? then [] else WriteOf(queue[0], PickupRuling(outcome))
  {
    ghost var start := d.Now();
    deferred', tally' := deferred, tally;
    var answer := AskPickup(d, queue, deferred, horizon, since);
    outcome := answer;
    ghost var asked := d.Now();
    if answer.Transient? {
      next := Offline;
    } else {
      next := GoOn;
      OneWrite(queue[0], PickupRuling(answer));
      assert Keys([queue[0]]) == [queue[0].id];
      deferred', tally' := SettleBatch(d, [queue[0]], [PickupRuling(answer)], deferred, tally, since);
    }
    ProgressTransitive(start, asked, d.Now(), tally, tally, tally');
  }

  // ── The loop ───────────────────────────────────────────────────────────────

  /** The waiting actions of subjects that are not deferred. */
  method Undeferred(all: seq<Queued>, deferred: set<Uuid>, ghost w: World, ghost horizon: nat) returns (q: seq<Queued>)
    requires IsQueue(w, {}, horizon, all)
    ensures IsQueue(w, deferred, horizon, q) && forall x :: x in q ==> x in all
  {
    q := [];
    for i := 0 to |all|
      invariant forall j :: 0 <= j < |q| ==> IsWaiting(w, q[j]) && q[j].row.subject !in deferred && q[j].row.order < horizon
      invariant forall j, k :: 0 <= j < k < |q| ==> q[j].row.order < q[k].row.order
      invariant forall j, k :: 0 <= j < |q| && i <= k < |all| ==> q[j].row.order < all[k].row.order
      invariant forall k :: 0 <= k < i && all[k].row.subject !in deferred ==> Has(q, all[k].id)
      invariant forall x :: x in q ==> x in all
    {
      var x := all[i];
      if x.row.subject !in deferred {
        forall k ensures Has(q + [x], k) <==> Has(q, k) || x.id == k { HasSnoc(q, x, k); }
        q := q + [x];
      }
    }
    forall k | k in w.db.rows && w.db.rows[k].state.Pending? && w.db.rows[k].subject !in deferred && w.db.rows[k].order < horizon
      ensures Has(q, k)
    {
      assert Has(all, k);
      var i :| 0 <= i < |all| && all[i].id == k;
      assert IsWaiting(w, all[i]);
    }
  }

  method Sendable(d: Device, deferred: set<Uuid>, ghost since: Since) returns (q: seq<Queued>, ghost horizon: nat)
    requires d.Valid() && Witnessed(d.Now(), d.calls, since, deferred, [])
    modifies d
    ensures d.Valid() && d.Budget() == old(d.Budget()) && d.calls == old(d.calls) && old(d.run) <= d.run
    ensures Undisturbed(old(d.Now()), d.Now())
    ensures horizon == old(d.nextOrder) && IsQueue(d.Now(), deferred, horizon, q)
    ensures forall i :: 0 <= i < |q| ==> q[i].id !in old(d.history.lost)
    ensures Witnessed(d.Now(), d.calls, since, deferred, []) && IsFresh(q, since)
  {
    ghost var start := d.Now();
    var all;
    all, horizon := d.PendingActions();
    WaitingIsUndisturbed(start, d.Now());
    WitnessStays(start, d.Now(), d.calls, d.calls, since, deferred, []);
    q := Undeferred(all, deferred, d.Now(), horizon);
    forall i | 0 <= i < |q| ensures q[i].id !in start.history.lost {
      assert q[i] in q;
      var j :| 0 <= j < |all| && all[j] == q[i];
    }
  }

  ghost function Ids(q: seq<Queued>): set<Uuid> { set i | 0 <= i < |q| :: q[i].id }

  lemma {:induction false} CountIds(q: seq<Queued>)
    requires DistinctIds(q)
    ensures |Ids(q)| == |q|
  {
    if q != [] {
      var before, last := q[..|q| - 1], q[|q| - 1];
      CountIds(before);
      assert Ids(q) == Ids(before) + {last.id};
    }
  }

  /** With nothing new recorded, the queue read next is shorter: it has none of the head, and nothing it had not. */
  lemma QueueShrinks(a: World, b: World, deferred: set<Uuid>, deferred': set<Uuid>, horizon: nat, q: seq<Queued>, q': seq<Queued>)
    requires Shrinks(a, b) && IsQueue(a, deferred, horizon, q) && IsQueue(b, deferred', horizon, q')
    requires deferred <= deferred' && q != [] && Gone(b, q[0], deferred')
    requires forall i :: 0 <= i < |q'| ==> q'[i].id !in a.history.lost
    ensures |q'| < |q|
  {
    forall i | 0 <= i < |q'| ensures q'[i].id in Ids(q) - {q[0].id} {
      WasQueued(a, b, deferred, deferred', horizon, q, q', i);
      assert IsWaiting(b, q'[i]) && IsWaiting(a, q[0]);
      assert WaitedAlready(a, b, q'[i].id) || IsNew(a, b, q'[i].id);
    }
    assert forall i, j :: 0 <= i < j < |q| ==> IsWaiting(a, q[i]) && IsWaiting(a, q[j]) && q[i].row.order < q[j].row.order;
    assert forall i, j :: 0 <= i < j < |q'| ==> IsWaiting(b, q'[i]) && IsWaiting(b, q'[j]) && q'[i].row.order < q'[j].row.order;
    CountIds(q);
    CountIds(q');
    assert q[0].id in Ids(q);
    CountSubset(Ids(q'), Ids(q) - {q[0].id});
  }

  lemma WasQueued(a: World, b: World, deferred: set<Uuid>, deferred': set<Uuid>, horizon: nat, q: seq<Queued>, q': seq<Queued>, i: nat)
    requires Shrinks(a, b) && IsQueue(a, deferred, horizon, q) && IsQueue(b, deferred', horizon, q')
    requires deferred <= deferred' && i < |q'| && q'[i].id !in a.history.lost
    ensures Has(q, q'[i].id)
  {
    assert IsWaiting(b, q'[i]);
  }

  lemma CountSubset(a: set<Uuid>, b: set<Uuid>)
    requires a <= b
    ensures |a| <= |b|
  {
    if a != {} {
      EmptyOrNot(a);
      var x :| x in a;
      CountSubset(a - {x}, b - {x});
    }
  }

  /** The next move follows from the calls made: a transient one ends the flush, a refused envelope the loop. */
  ghost predicate Follow(next: Next, calls: seq<Call>, from: nat) {
    (next.Offline? <==> SomeTransient(calls, from)) && (next.Stop? <==> SomeBatchRefused(calls, from))
  }

  /** At most one sync of what the queue starts with, one call with scans, or one for a pickup, as the head's kind has it. */
  ghost predicate IsCallFor(queue: seq<Queued>, calls: seq<Call>)
    requires queue != []
  {
    match queue[0].row.kind
    case PickupScan => |calls| == 1 && calls[0].ScanCall? && calls[0].keys <= Keys(queue)
    case PickupCollect => |calls| == 1 && calls[0].PickupCall? && calls[0].key == queue[0].id
    case PickupComplete => |calls| == 1 && calls[0].PickupCall? && calls[0].key == queue[0].id
    case Delivered => IsSyncOf(queue, calls)
    case Failed => IsSyncOf(queue, calls)
    case ReturnCompleted => IsSyncOf(queue, calls)
    case AddressCorrected => IsSyncOf(queue, calls)
  }

  ghost predicate IsSyncOf(queue: seq<Queued>, calls: seq<Call>) {
    calls == [] || (|calls| == 1 && calls[0].SyncCall? && calls[0].keys <= Keys(queue))
  }

  /** One turn of the loop: the branch the head of the queue calls for. */
  method NextBatch(d: Device, queue: seq<Queued>, deferred: set<Uuid>, tally: Tally, ghost horizon: nat, ghost since: Since)
    returns (next: Next, deferred': set<Uuid>, tally': Tally, reached: bool, synced: bool)
    requires d.Valid() && IsQueue(d.Now(), deferred, horizon, queue) && Witnessed(d.Now(), d.calls, since, deferred, [])
    requires IsFresh(queue, since) && queue != []
    modifies d
    ensures d.Valid() && d.Budget() == old(d.Budget()) && old(d.run) <= d.run
    ensures old(d.calls) <= d.calls && Follow(next, d.calls, |old(d.calls)|)
    ensures reached <==> SomeAnswered(d.calls, |old(d.calls)|)
    ensures Progress(old(d.Now()), d.Now(), tally, tally')
    ensures deferred <= deferred' && Witnessed(d.Now(), d.calls, since, deferred', [])
    ensures next.GoOn? ==> Gone(d.Now(), queue[0], deferred')
    ensures IsCallFor(queue, d.calls[|old(d.calls)|..])
    ensures synced ==> Saved(old(d.run), d.run)
  {
    ghost var made := d.calls;
    reached, synced := true, false;
    if IsSyncKind(queue[0].row.kind) {
      var called;
      ghost var sent, outcome;
      next, deferred', tally', called, sent, outcome := SyncBatch(d, queue, deferred, tally, horizon, since);
      reached, synced := called, called && next.GoOn?;
      if called {
        assert Keys(queue[..sent]) != [];
        OneCall(made, SyncCall(Keys(queue[..sent]), outcome));
      } else {
        NoCall(made);
      }
    } else if queue[0].row.kind.PickupScan? {
      ghost var batch, outcome;
      next, deferred', tally', batch, outcome := ScanBatch(d, queue, deferred, tally, horizon, since);
      OneCall(made, ScanCall(Keys(batch), outcome));
    } else {
      ghost var outcome;
      next, deferred', tally', outcome := PickupCall(d, queue, deferred, tally, horizon, since);
      OneCall(made, Call.PickupCall(queue[0].id, outcome));
    }
    reached := reached && !next.Offline?;
  }

  /** One batch and the next look at the queue. */
  method Turn(d: Device, queue: seq<Queued>, deferred: set<Uuid>, tally: Tally, ghost horizon: nat, ghost since: Since)
    returns (next: Next, queue': seq<Queued>, deferred': set<Uuid>, tally': Tally, reached: bool, synced: bool, ghost horizon': nat)
    requires d.Valid() && IsQueue(d.Now(), deferred, horizon, queue) && Witnessed(d.Now(), d.calls, since, deferred, [])
    requires IsFresh(queue, since) && queue != []
    modifies d
    ensures d.Valid() && d.Budget() == old(d.Budget()) && old(d.run) <= d.run
    ensures old(d.calls) <= d.calls && Follow(next, d.calls, |old(d.calls)|)
    ensures reached <==> SomeAnswered(d.calls, |old(d.calls)|)
    ensures Progress(old(d.Now()), d.Now(), tally, tally') && Witnessed(d.Now(), d.calls, since, deferred', [])
    ensures horizon <= horizon' <= d.nextOrder
    ensures next.GoOn? ==> IsQueue(d.Now(), deferred', horizon', queue') && IsFresh(queue', since)
    ensures next.GoOn? && horizon' == horizon ==> |queue'| < |queue|
    ensures synced ==> Saved(old(d.run), d.run)
  {
    d.Sound();
    ghost var start := d.Now();
    queue', horizon' := queue, horizon;
    next, deferred', tally', reached, synced := NextBatch(d, queue, deferred, tally, horizon, since);
    if next.GoOn? {
      ghost var done, sofar := d.Now(), d.run;
      queue', horizon' := Sendable(d, deferred', since);
      if synced { StaysSaved(old(d.run), old(d.run), sofar, d.run); }
      ProgressTransitive(start, done, d.Now(), tally, tally', tally');
      AfterTurn(start, done, d.Now(), deferred, deferred', horizon, horizon', queue, queue');
    }
  }

  lemma AfterTurn(a: World, b: World, c: World, deferred: set<Uuid>, deferred': set<Uuid>, horizon: nat, horizon': nat,
                  q: seq<Queued>, q': seq<Queued>)
    requires RowsAreIntents(a) && LostIsSound(a) && Shrinks(a, b) && Shrinks(b, c)
    requires IsQueue(a, deferred, horizon, q) && IsQueue(c, deferred', horizon', q')
    requires deferred <= deferred' && q != [] && Gone(b, q[0], deferred')
    requires forall i :: 0 <= i < |q'| ==> q'[i].id !in b.history.lost
    ensures horizon' == horizon ==> |q'| < |q|
  {
    assert IsWaiting(a, q[0]);
    ShrinksTransitive(a, b, c);
    GoneStays(b, c, q[0], deferred');
    if horizon' == horizon { QueueShrinks(a, c, deferred, deferred', horizon, q, q'); }
  }

  /** Every action recorded before the last look at the queue is settled, or waits behind a deferred subject. */
  ghost predicate Drained(db: Db, deferred: set<Uuid>, horizon: nat) {
    forall k :: k in db.rows && db.rows[k].state.Pending? && db.rows[k].order < horizon ==> db.rows[k].subject in deferred
  }

  /** A flush begins: no call is made, and nothing is lost yet. */
  ghost function Beginning(w: World, calls: seq<Call>): Since { Since(|calls|, w.history.lost.Keys) }

  /**
   * The loop. Each subject it defers has an action that a call of the loop left open, that waits for a slot, or that a
   * sign-out took. It stops early exactly when an envelope was refused, and is offline exactly when a call was transient.
   */
  method ActionPhase(d: Device)
    returns (next: Next, tally: Tally, deferred: set<Uuid>, reached: bool, synced: bool, ghost horizon: nat)
    requires d.Valid()
    modifies d
    ensures d.Valid() && d.Budget() == old(d.Budget()) && old(d.run) <= d.run
    ensures old(d.calls) <= d.calls && Follow(next, d.calls, |old(d.calls)|)
    ensures reached <==> SomeAnswered(d.calls, |old(d.calls)|)
    ensures Progress(old(d.Now()), d.Now(), Tally(0, 0, 0), tally)
    ensures Witnessed(d.Now(), d.calls, Beginning(old(d.Now()), old(d.calls)), deferred, [])
    ensures old(d.nextOrder) <= horizon <= d.nextOrder
    ensures next.GoOn? ==> Drained(d.Now().db, deferred, horizon)
    ensures synced ==> Saved(old(d.run), d.run)
  {
    next, tally, deferred, reached, synced := GoOn, Tally(0, 0, 0), {}, false, false;
    ghost var budget, start, made := d.Budget(), d.Now(), d.calls;
    ghost var since := Beginning(start, made);
    var queue;
    queue, horizon := Sendable(d, deferred, since);
    NoCall(made);
    while queue != [] && next.GoOn?
      invariant d.Valid() && d.Budget() == budget == old(d.Budget()) && old(d.run) <= d.run
      invariant made <= d.calls && Follow(next, d.calls, |made|) && (reached <==> SomeAnswered(d.calls, |made|))
      invariant Progress(start, d.Now(), Tally(0, 0, 0), tally)
      invariant Witnessed(d.Now(), d.calls, since, deferred, []) && old(d.nextOrder) <= horizon <= d.nextOrder <= budget
      invariant synced ==> Saved(old(d.run), d.run)
      invariant next.GoOn? ==> IsQueue(d.Now(), deferred, horizon, queue) && IsFresh(queue, since)
      decreases next.GoOn?, budget - horizon, |queue|
    {
      var answered, refreshed;
      ghost var sofar, before, asked, counted := d.run, d.Now(), d.calls, tally;
      next, queue, deferred, tally, answered, refreshed, horizon := Turn(d, queue, deferred, tally, horizon, since);
      Earlier(asked, d.calls, |made|);
      ProgressTransitive(start, before, d.Now(), Tally(0, 0, 0), counted, tally);
      if synced { StaysSaved(old(d.run), old(d.run), sofar, d.run); }
      if refreshed { StaysSaved(old(d.run), sofar, d.run, d.run); }
      reached, synced := reached || answered, synced || refreshed;
    }
  }
}
