/**
 * The device: its tables as the app's queries change them, the ports, and what goes on at every await. Each write and
 * each call is proved to be an enabled step of the model, so whatever a flush does is a run of it.
 */
module OutboxDevice {
  import opened Common
  import opened OutboxModel
  import opened OutboxSteps
  import opened OutboxRuns
  import opened OutboxMeanwhile
  import opened OutboxCalls
  import Flicker = OutboxFlicker
  import Day = OutboxDay
  import M = Manifests

  /** A row as read, with its key. */
  datatype Queued = Queued(id: Uuid, row: Action)
  datatype File = File(id: Uuid, row: Media)

  /** The waiting rows of undeferred subjects recorded before `horizon`, oldest first. */
  ghost predicate IsQueue(w: World, deferred: set<Uuid>, horizon: nat, q: seq<Queued>) {
    && horizon <= w.db.nextOrder
    && (forall i :: 0 <= i < |q| ==> IsWaiting(w, q[i]) && q[i].row.subject !in deferred && q[i].row.order < horizon)
    && (forall i, j :: 0 <= i < j < |q| ==> q[i].row.order < q[j].row.order)
    && Covers(w.db, deferred, horizon, q)
  }

  /** The action has no outcome yet, and its row says, or said, this. */
  ghost predicate IsWaiting(w: World, x: Queued) { Awaits(w, x.id) && RowOf(w, x.id) == x.row }

  ghost predicate Covers(db: Db, deferred: set<Uuid>, horizon: nat, q: seq<Queued>) {
    forall k :: k in db.rows && db.rows[k].state.Pending? && db.rows[k].subject !in deferred && db.rows[k].order < horizon
      ==> Has(q, k)
  }

  function Keys(q: seq<Queued>): (r: seq<Uuid>)
    ensures |r| == |q| && forall i :: 0 <= i < |r| ==> r[i] == q[i].id
  {
    seq(|q|, i requires 0 <= i < |q| => q[i].id)
  }

  ghost predicate Has(q: seq<Queued>, k: Uuid) { exists i :: 0 <= i < |q| && q[i].id == k }

  lemma HasSnoc(q: seq<Queued>, x: Queued, k: Uuid)
    ensures Has(q + [x], k) <==> Has(q, k) || x.id == k
  {
    if Has(q, k) {
      var i :| 0 <= i < |q| && q[i].id == k;
      assert (q + [x])[i].id == k;
    }
    assert (q + [x])[|q|] == x;
  }

  lemma QueueWaits(a: World, b: World, deferred: set<Uuid>, horizon: nat, q: seq<Queued>)
    requires RowsWait(a, b) && IsQueue(a, deferred, horizon, q)
    ensures IsQueue(b, deferred, horizon, q)
  {
    forall i | 0 <= i < |q| ensures IsWaiting(b, q[i]) { assert Stays(a, b, q[i].id); }
    forall k | k in b.db.rows && b.db.rows[k].state.Pending? && b.db.rows[k].subject !in deferred && b.db.rows[k].order < horizon
      ensures Has(q, k)
    {
      assert Awaits(b, k) && (Awaits(a, k) ==> Stays(a, b, k));
    }
  }

  /** A file as it was read: its row is still that or gone, and its slot is the server's. */
  ghost predicate IsFile(w: World, f: File) {
    && f.id in w.history.captured && (f.id in w.db.media ==> w.db.media[f.id] == f.row)
    && (f.row.artifact.Some? ==> f.id in w.server.slots && f.row.artifact == Some(w.server.slots[f.id].artifact))
    && (f.row.state.Slotted? ==> f.row.artifact.Some?)
  }

  ghost predicate IsAnsweredSync(s: Step) { s.Send? && IsSyncBatch(s.items) && s.reply.Some? }

  /** Since `earlier` a sync was answered, and its routes were saved. */
  ghost predicate Saved(earlier: seq<Step>, run: seq<Step>) {
    exists k, j :: |earlier| <= k < j < |run| && IsAnsweredSync(run[k]) && run[j].SaveRoutes?
  }

  lemma StaysSaved(a: seq<Step>, b: seq<Step>, c: seq<Step>, e: seq<Step>)
    requires a <= b <= c <= e && Saved(b, c)
    ensures Saved(a, e)
  {
    var k, j :| |b| <= k < j < |c| && IsAnsweredSync(c[k]) && c[j].SaveRoutes?;
    assert e[k] == c[k] && e[j] == c[j];
  }

  /** The model's answer is what this response says. */
  predicate IsSyncAnswer(answer: Option<Reply>, keys: seq<Uuid>, known: map<Uuid, Version>, outcome: Attempt<SyncResponse>) {
    match outcome
    case Ok(response) =>
      && answer.Some? && answer.value.known == known
      && answer.value.routes == Some(RouteAnswer(response.active, response.updates))
      && Says(answer.value, keys, SyncRulings(response.results, keys))
    case _ => answer.None?
  }

  predicate IsScanAnswer(answer: Option<Reply>, keys: seq<Uuid>, outcome: Attempt<seq<ScanResult>>) {
    if outcome.Transient? then answer.None? else answer.Some? && Says(answer.value, keys, ScanOutcomes(outcome, |keys|))
  }

  predicate IsPickupAnswer(answer: Option<Reply>, key: Uuid, outcome: Attempt<()>) {
    if outcome.Transient? then answer.None? else answer.Some? && Says(answer.value, [key], [PickupRuling(outcome)])
  }

  lemma AddThenUpdate(a: map<Uuid, Media>, b: map<Uuid, Media>, k: Uuid, m: Media)
    ensures (a + b)[k := m] == a + b[k := m]
  {
  }

  /** A row for each file of an action. */
  method InsertMedia(media: map<Uuid, Media>, s: Step) returns (r: map<Uuid, Media>)
    requires s.Enqueue? && |s.photos| == |s.purposes|
    ensures r == media + NewMedia(s)
  {
    r := media;
    for i := 0 to |s.photos|
      invariant r == media + FirstMedia(s, i)
    {
      var m := Media(s.purposes[i], None, None, Captured, None, s.now);
      AddThenUpdate(media, FirstMedia(s, i), s.photos[i], m);
      r := r[s.photos[i] := m];
    }
  }

  /** The row recorded first. */
  method Oldest(rows: map<Uuid, Action>, keys: set<Uuid>) returns (k: Uuid)
    requires keys != {} && forall l :: l in keys ==> l in rows
    requires forall l, m :: l in rows && m in rows && l != m ==> rows[l].order != rows[m].order
    ensures k in keys && forall l :: l in keys && l != k ==> rows[k].order < rows[l].order
  {
    EmptyOrNot(keys);
    k :| k in keys;
    var left := keys - {k};
    while left != {}
      invariant k in keys && left <= keys && k !in left
      invariant forall l :: l in keys && l !in left && l != k ==> rows[k].order < rows[l].order
      decreases left
    {
      EmptyOrNot(left);
      var l :| l in left;
      left := left - {l};
      if rows[l].order < rows[k].order { k := l; }
    }
  }

  method WriteRoutes(routes: map<Uuid, Route>, active: seq<RouteRef>, updates: seq<RouteUpdate>) returns (r: map<Uuid, Route>)
    ensures r == SavedRoutes(routes, RouteAnswer(active, updates)) && IsSaved(routes, active, updates, r)
  {
    r := map id | id in routes :: routes[id].(active := false);
    for i := 0 to |updates|
      invariant r == WithUpdates(Deactivated(routes), updates[..i])
    {
      var u := updates[i];
      assert updates[..i + 1][..i] == updates[..i];
      r := r[u.routeId := Route(u.version, u.manifest.status, true, u.manifest.plannedDate, u.manifest)];
    }
    assert updates[..|updates|] == updates;
    for i := 0 to |active|
      invariant r == WithActive(WithUpdates(Deactivated(routes), updates), active[..i])
    {
      var a := active[i];
      assert active[..i + 1][..i] == active[..i];
      if a.routeId in r { r := r[a.routeId := r[a.routeId].(active := true, status := a.status)]; }
    }
    assert active[..|active|] == active;
    SavedMeaning(routes, RouteAnswer(active, updates));
  }

  ghost predicate OrdersAreKeys(db: Db) {
    && (forall k, l :: k in db.rows && l in db.rows && k != l ==> db.rows[k].order != db.rows[l].order)
    && (forall k :: k in db.rows ==> db.rows[k].order < db.nextOrder)
  }

  ghost predicate Ascending(rows: map<Uuid, Action>, ids: seq<Uuid>) {
    && (forall i :: 0 <= i < |ids| ==> ids[i] in rows)
    && (forall i, j :: 0 <= i < j < |ids| ==> ids[i] != ids[j] && rows[ids[i]].order < rows[ids[j]].order)
  }

  ghost predicate AllBefore(rows: map<Uuid, Action>, ids: seq<Uuid>, k: Uuid)
    requires Ascending(rows, ids)
  {
    k in rows && forall i :: 0 <= i < |ids| ==> ids[i] != k && rows[ids[i]].order < rows[k].order
  }

  lemma AscendingSnoc(rows: map<Uuid, Action>, ids: seq<Uuid>, k: Uuid)
    requires Ascending(rows, ids) && AllBefore(rows, ids, k)
    ensures Ascending(rows, ids + [k])
    ensures forall l :: AllBefore(rows, ids, l) && rows[k].order < rows[l].order ==> AllBefore(rows, ids + [k], l)
  {
  }

  /** The rows in the order they were recorded. */
  method InOrder(db: Db, keys: set<Uuid>) returns (ids: seq<Uuid>)
    requires OrdersAreKeys(db) && forall k :: k in keys ==> k in db.rows
    ensures forall k :: k in ids <==> k in keys
    ensures Ascending(db.rows, ids) && forall i :: 0 <= i < |ids| ==> ids[i] in keys
  {
    ids := [];
    var left := keys;
    while left != {}
      invariant left <= keys && forall k :: k in ids <==> k in keys && k !in left
      invariant Ascending(db.rows, ids) && forall k :: k in left ==> AllBefore(db.rows, ids, k)
      decreases left
    {
      var k := Oldest(db.rows, left);
      AscendingSnoc(db.rows, ids, k);
      ids := ids + [k];
      left := left - {k};
    }
  }

  /** The waiting rows, oldest first. */
  method SelectPending(w: World) returns (q: seq<Queued>)
    requires OrdersAreKeys(w.db)
    ensures IsQueue(w, {}, w.db.nextOrder, q) && forall i :: 0 <= i < |q| ==> q[i].id in w.db.rows
  {
    var db := w.db;
    var waiting := set k | k in db.rows && db.rows[k].state.Pending?;
    var ids := InOrder(db, waiting);
    q := seq(|ids|, i requires 0 <= i < |ids| => Queued(ids[i], db.rows[ids[i]]));
    forall k | k in db.rows && db.rows[k].state.Pending? ensures Has(q, k) {
      assert k in ids;
      var i :| 0 <= i < |ids| && ids[i] == k;
      assert q[i].id == k;
    }
  }

  ghost predicate ListsFile(files: seq<File>, m: Uuid) { exists i :: 0 <= i < |files| && files[i].id == m }

  /** A file captured no later than any other. */
  method OldestFile(media: map<Uuid, Media>, ids: set<Uuid>) returns (m: Uuid)
    requires ids != {} && forall n :: n in ids ==> n in media
    ensures m in ids && forall n :: n in ids ==> media[m].createdAt <= media[n].createdAt
  {
    EmptyOrNot(ids);
    m :| m in ids;
    var left := ids - {m};
    while left != {}
      invariant m in ids && left <= ids && forall n :: n in ids && n !in left ==> media[m].createdAt <= media[n].createdAt
      decreases left
    {
      EmptyOrNot(left);
      var n :| n in left;
      left := left - {n};
      if media[n].createdAt < media[m].createdAt { m := n; }
    }
  }

  /** Distinct files with their rows, by the time they were captured. */
  ghost predicate AreOpenFiles(media: map<Uuid, Media>, files: seq<File>) {
    && (forall i :: 0 <= i < |files| ==> files[i].id in media && media[files[i].id] == files[i].row && IsOpen(files[i].row))
    && (forall i, j :: 0 <= i < j < |files| ==> files[i].id != files[j].id && files[i].row.createdAt <= files[j].row.createdAt)
  }

  /** The captured and the slotted files, oldest first. */
  method SelectOpenMedia(media: map<Uuid, Media>) returns (files: seq<File>)
    ensures AreOpenFiles(media, files) && forall m :: m in media && IsOpen(media[m]) ==> ListsFile(files, m)
  {
    files := [];
    var left := set m | m in media && IsOpen(media[m]);
    while left != {}
      invariant forall m :: m in left ==> m in media && IsOpen(media[m])
      invariant AreOpenFiles(media, files)
      invariant forall i, m :: 0 <= i < |files| && m in left ==> files[i].id != m && files[i].row.createdAt <= media[m].createdAt
      invariant forall m :: m in media && IsOpen(media[m]) && m !in left ==> ListsFile(files, m)
      decreases left
    {
      var m := OldestFile(media, left);
      ListsSnoc(files, File(m, media[m]));
      files := files + [File(m, media[m])];
      left := left - {m};
    }
  }

  lemma ListsSnoc(files: seq<File>, f: File)
    ensures ListsFile(files + [f], f.id) && forall m :: ListsFile(files, m) ==> ListsFile(files + [f], m)
  {
    assert (files + [f])[|files|] == f;
    forall m | ListsFile(files, m) ensures ListsFile(files + [f], m) {
      var i :| 0 <= i < |files| && files[i].id == m;
      assert (files + [f])[i].id == m;
    }
  }

  /** The outcomes the server has not confirmed, oldest first. */
  method SelectOutcomes(db: Db) returns (keys: seq<Uuid>)
    requires OrdersAreKeys(db)
    ensures Flicker.SelectsUnconfirmed(db, keys)
  {
    keys := InOrder(db, set k | k in db.rows && Flicker.Unconfirmed(db.rows[k]));
  }

  /** The manifests of these rows, in some order. */
  method ManifestsOf(routes: map<Uuid, Route>, ids: set<Uuid>) returns (list: seq<M.Manifest>, ghost order: seq<Uuid>)
    requires forall r :: r in ids ==> r in routes
    ensures Day.AreManifests(routes, order, list) && forall r :: r in order <==> r in ids
  {
    list, order := [], [];
    var left := ids;
    while left != {}
      invariant left <= ids && Day.AreManifests(routes, order, list) && forall r :: r in order <==> r in ids && r !in left
      decreases left
    {
      EmptyOrNot(left);
      var r :| r in left;
      list, order, left := list + [routes[r].manifest], order + [r], left - {r};
    }
  }

  /** The day as the screens show it: the manifests of the active routes, and of the active routes and then the others. */
  method SelectManifests(routes: map<Uuid, Route>)
    returns (active: seq<M.Manifest>, all: seq<M.Manifest>, ghost first: seq<Uuid>, ghost rest: seq<Uuid>)
    ensures active <= all && Day.ListsDay(routes, first, active, rest, all[|active|..])
  {
    active, first := ManifestsOf(routes, set r | r in routes && routes[r].active);
    var others;
    others, rest := ManifestsOf(routes, set r | r in routes && !routes[r].active);
    all := active + others;
    assert all[|active|..] == others;
  }

  lemma FilesStay(a: World, b: World, files: seq<File>)
    requires Meanwhile(a, b) && forall i :: 0 <= i < |files| ==> IsFile(a, files[i])
    ensures forall i :: 0 <= i < |files| ==> IsFile(b, files[i])
  {
    forall i | 0 <= i < |files| ensures IsFile(b, files[i]) { assert IsFile(a, files[i]); }
  }

  /** With the tables and the outcomes the same, every action waits as it did. */
  lemma StillWaits(a: World, b: World)
    requires LostIsSound(a) && MediaAreMinted(a) && b.db == a.db && b.history.(sends := [], discarded := {}) == a.history.(sends := [], discarded := {})
    ensures Waiting(a, b)
  {
    forall k ensures (Awaits(b, k) <==> Awaits(a, k)) && (Awaits(a, k) ==> Stays(a, b, k)) {}
  }

  lemma SendIsWaiting(w: World, items: seq<Item>, taken: set<Uuid>, answer: Option<Reply>)
    requires LostIsSound(w) && MediaAreMinted(w) && Enabled(w, Send(items, taken, answer))
    ensures Waiting(w, Apply(w, Send(items, taken, answer)))
  {
    StillWaits(w, Apply(w, Send(items, taken, answer)));
  }

  class Device {
    var rows: map<Uuid, Action>
    var nextOrder: nat
    var media: map<Uuid, Media>
    var routes: map<Uuid, Route>

    /** The other side of the ports, and the answer being worked through. */
    var server: Server
    var reply: Option<Reply>
    /** How many more actions the driver will record: any number, but finite. */
    var arrivals: nat

    var history: History
    ghost var run: seq<Step>
    /** The calls made, each with its outcome. */
    ghost var calls: seq<Call>
    ghost const start: World

    function Now(): World
      reads this
    {
      World(Db(rows, nextOrder, media, routes), server, history, reply)
    }

    /** The device is where its run has led. */
    ghost predicate Valid()
      reads this
    {
      Initial(start) && Legal(start, run) && After(start, run) == Now()
    }

    ghost function Budget(): nat
      reads this
    {
      arrivals + nextOrder
    }

    constructor (published: map<Version, M.Manifest>, arrivals: nat)
      ensures Valid() && rows == map[] && reply.None? && run == [] && calls == [] && this.arrivals == arrivals
    {
      rows, nextOrder, media, routes := map[], 0, map[], map[];
      server := Server([], map[], {}, published);
      history := NOTHING_YET;
      reply := None;
      this.arrivals := arrivals;
      run, calls := [], [];
      start := World(Db(map[], 0, map[], map[]), Server([], map[], {}, published), NOTHING_YET, None);
    }

    lemma Sound()
      requires Valid()
      ensures Inv(Now())
    {
      RunsKeepInv(start, run);
    }

    /** Since `earlier`, files have only moved forward. */
    lemma WentForward(before: World, earlier: seq<Step>)
      requires Valid() && earlier <= run && Legal(start, earlier) && After(start, earlier) == before
      ensures Forward(before, Now())
    {
      RunsGoForward(start, earlier, run);
    }

    lemma Extend(s: Step)
      requires Valid() && Enabled(Now(), s)
      ensures Legal(start, run + [s]) && After(start, run + [s]) == Apply(Now(), s)
    {
      OneMore(start, run, s);
    }

    lemma Enqueued(w: World, s: Step)
      requires s.Enqueue? && Enabled(w, s)
      ensures Apply(w, s).server == w.server && Apply(w, s).reply == w.reply
      ensures Apply(w, s).db
              == Db(w.db.rows[s.id := Action(w.db.nextOrder, s.kind, s.subject, s.payload, s.photos, Pending, 0, None, None, s.now)],
                    w.db.nextOrder + 1, w.db.media + NewMedia(s), w.db.routes)
      ensures Apply(w, s).history
              == w.history.(minted := w.history.minted[s.id := Intent(w.db.nextOrder, s.kind, s.subject, s.payload)],
                            captured := w.history.captured + Members(s.photos))
    {
    }

    // ── What the screens do ──────────────────────────────────────────────────

    /** Records an action and its media in one transaction. */
    method Enqueue(s: Step)
      requires Valid() && s.Enqueue? && MayScreen(Now(), s)
      modifies this
      ensures Valid() && arrivals == old(arrivals) && calls == old(calls)
      ensures run == old(run) + [s] && Now() == Apply(old(Now()), s)
    {
      Extend(s);
      Enqueued(Now(), s);
      media := InsertMedia(media, s);
      rows := rows[s.id := Action(nextOrder, s.kind, s.subject, s.payload, s.photos, Pending, 0, None, None, s.now)];
      history := history.(minted := history.minted[s.id := Intent(nextOrder, s.kind, s.subject, s.payload)],
                          captured := history.captured + Members(s.photos));
      nextOrder := nextOrder + 1;
      run := run + [s];
    }

    method Dismiss(id: Uuid)
      requires Valid()
      modifies this
      ensures Valid() && arrivals == old(arrivals) && calls == old(calls) && run == old(run) + [Step.Dismiss(id)]
      ensures Now() == Apply(old(Now()), Step.Dismiss(id))
    {
      Extend(Step.Dismiss(id));
      if id in rows && rows[id].state.Escalated? { history := history.(dismissed := history.dismissed + {id}); }
      if id in rows && (rows[id].state.Refused? || rows[id].state.Escalated?) {
        rows := rows[id := rows[id].(state := Done)];
      }
      run := run + [Step.Dismiss(id)];
    }

    /** Reading the day drops the routes of earlier days. */
    method DropRoutes(today: int)
      requires Valid()
      modifies this
      ensures Valid() && arrivals == old(arrivals) && calls == old(calls) && run == old(run) + [Step.DropRoutes(today)]
      ensures Now() == Apply(old(Now()), Step.DropRoutes(today))
    {
      Extend(Step.DropRoutes(today));
      routes := map r | r in routes && !(routes[r].plannedDate < today && !routes[r].active) :: routes[r];
      run := run + [Step.DropRoutes(today)];
    }

    /** What would be lost if the phone forgot everything now. */
    method CountUnsafe() returns (count: nat)
      requires Valid()
      modifies this
      ensures Valid() && arrivals == old(arrivals) && calls == old(calls) && run == old(run) + [Step.Count]
      ensures Now() == Apply(old(Now()), Step.Count)
      ensures count == |set k | k in old(rows) && old(rows)[k].state in {Pending, Escalated}|
                       + |set m | m in old(media) && old(media)[m].state in {Captured, Slotted}|
      ensures (count == 0 <==> IsSafe(old(Now().db))) && (count == 0 ==> history.counted.Some?)
    {
      Extend(Step.Count);
      CountsUnsafe(Now().db);
      count := UnsafeToForget(Now().db);
      if count == 0 { history := history.(counted := Some(Mark(nextOrder, history.captured))); }
      run := run + [Step.Count];
    }

    /** Forgets everything, whatever there is by now. */
    method WipeFieldData()
      requires Valid() && history.counted.Some?
      modifies this
      ensures Valid() && arrivals == old(arrivals) && calls == old(calls) && run == old(run) + [Step.Wipe]
      ensures Now() == Apply(old(Now()), Step.Wipe) && rows == map[] && media == map[] && routes == map[]
    {
      Extend(Step.Wipe);
      history := history.(lost := history.lost + UnsettledRows(Now().db), wiped := true);
      rows, media, routes := map[], map[], map[];
      run := run + [Step.Wipe];
    }

    lemma PrunedApart(w: World, olderThan: int)
      ensures var v := Apply(w, Step.Prune(olderThan));
              && v.server == w.server && v.reply == w.reply && v.db.nextOrder == w.db.nextOrder && v.db.routes == w.db.routes
              && v.db.rows == (map k | k in w.db.rows && !(w.db.rows[k].state.Done? && w.db.rows[k].createdAt < olderThan) :: w.db.rows[k])
              && v.db.media == (map m | m in w.db.media && !(!IsOpen(w.db.media[m]) && w.db.media[m].createdAt < olderThan) :: w.db.media[m])
              && v.history == w.history.(prunes := w.history.prunes + [olderThan])
    {
    }

    /** Housekeeping after a flush. */
    method Prune(olderThan: int)
      requires Valid()
      modifies this
      ensures Valid() && arrivals == old(arrivals) && calls == old(calls) && run == old(run) + [Step.Prune(olderThan)]
      ensures Now() == Apply(old(Now()), Step.Prune(olderThan))
    {
      Extend(Step.Prune(olderThan));
      PrunedApart(Now(), olderThan);
      rows := map k | k in rows && !(rows[k].state.Done? && rows[k].createdAt < olderThan) :: rows[k];
      media := map m | m in media && !(!IsOpen(media[m]) && media[m].createdAt < olderThan) :: media[m];
      history := history.(prunes := history.prunes + [olderThan]);
      run := run + [Step.Prune(olderThan)];
    }

    /** One thing the screens may do. */
    method Screen(s: Step)
      requires Valid() && IsScreenStep(s) && MayScreen(Now(), s) && (s.Enqueue? ==> arrivals > 0)
      modifies this
      ensures Valid() && Budget() == old(Budget()) && calls == old(calls) && run == old(run) + [s]
      ensures Meanwhile(old(Now()), Now())
    {
      Sound();
      ScreenStepIsMeanwhile(Now(), s);
      match s
      case Enqueue(_, _, _, _, _, _, _) =>
        Enqueue(s);
        arrivals := arrivals - 1;
      case Dismiss(id) => Dismiss(id);
      case DropRoutes(today) => DropRoutes(today);
      case Count => var count := CountUnsafe();
      case Wipe => WipeFieldData();
    }

    /** Anything the screens may do at an await. */
    method Elapse()
      requires Valid()
      modifies this
      ensures Valid() && Budget() == old(Budget()) && calls == old(calls) && old(run) <= run
      ensures Meanwhile(old(Now()), Now())
    {
      Sound();
      var n: nat := *;
      while n > 0
        invariant Valid() && Budget() == old(Budget()) && calls == old(calls) && old(run) <= run
        invariant Meanwhile(old(Now()), Now())
      {
        var s: Step := *;
        if IsScreenStep(s) && MayScreen(Now(), s) && (s.Enqueue? ==> arrivals > 0) {
          ghost var before := Now();
          Screen(s);
          WaitingTransitive(old(Now()), before, Now());
        }
        n := n - 1;
      }
    }

    /**
     * Signing out: what would be lost is counted, and while there is any the sign-out stops. Then come calls and other
     * awaits, and then everything goes. What is lost was recorded after the count.
     */
    method SignOut() returns (done: bool)
      requires Valid()
      modifies this
      ensures Valid() && Budget() == old(Budget()) && calls == old(calls) && old(run) <= run
      ensures done <==> IsSafe(old(Now().db))
      ensures !done ==> Now() == Apply(old(Now()), Step.Count)
      ensures done ==> rows == map[] && media == map[] && routes == map[] && LostSince(old(Now()), Now())
    {
      ghost var before, sofar := Now(), run;
      var count := CountUnsafe();
      done := count == 0;
      if done {
        Elapse();
        WipeFieldData();
        OnlyTheNewIsLost(before, sofar);
      }
    }

    lemma OnlyTheNewIsLost(before: World, earlier: seq<Step>)
      requires Valid() && earlier <= run && Legal(start, earlier) && After(start, earlier) == before
      requires IsSafe(before.db)
      ensures LostSince(before, Now())
    {
      NothingOlderIsLost(start, earlier, run);
    }

    // ── The store ────────────────────────────────────────────────────────────

    lemma OrdersDiffer()
      requires Valid()
      ensures OrdersAreKeys(Now().db)
    {
      Sound();
      forall k, l | k in rows && l in rows && k != l ensures rows[k].order != rows[l].order {
        assert history.minted[k].order != history.minted[l].order;
      }
      forall k | k in rows ensures rows[k].order < nextOrder { assert history.minted[k].order < nextOrder; }
    }

    method PendingActions() returns (q: seq<Queued>, ghost horizon: nat)
      requires Valid()
      modifies this
      ensures Valid() && Budget() == old(Budget()) && calls == old(calls) && old(run) <= run && Meanwhile(old(Now()), Now())
      ensures horizon == old(nextOrder) && IsQueue(Now(), {}, horizon, q)
      ensures forall i :: 0 <= i < |q| ==> q[i].id !in old(history.lost)
    {
      OrdersDiffer();
      Sound();
      q := SelectPending(Now());
      horizon := nextOrder;
      ghost var read := Now();
      Elapse();
      QueueWaits(read, Now(), {}, horizon, q);
    }

    /** Updates the row of an action, if it is there. */
    method UpdateAction(id: Uuid, patch: ActionPatch)
      requires Valid() && MayWrite(Now(), id, patch)
      modifies this
      ensures Valid() && Budget() == old(Budget()) && calls == old(calls) && old(run) + [WriteAction(id, patch)] <= run
      ensures Meanwhile(Apply(old(Now()), WriteAction(id, patch)), Now())
    {
      Extend(WriteAction(id, patch));
      if id in rows { rows := rows[id := PatchAction(rows[id], patch)]; }
      history := Recorded(history, id, patch);
      run := run + [WriteAction(id, patch)];
      Elapse();
    }

    /** The files on the way, oldest first. */
    method OpenMedia() returns (files: seq<File>)
      requires Valid()
      modifies this
      ensures Valid() && Budget() == old(Budget()) && calls == old(calls) && old(run) <= run && Meanwhile(old(Now()), Now())
      ensures AreOpenFiles(old(media), files) && forall i :: 0 <= i < |files| ==> IsFile(Now(), files[i])
      ensures forall m :: m in old(media) && IsOpen(old(media)[m]) ==> ListsFile(files, m)
    {
      Sound();
      files := SelectOpenMedia(media);
      forall i | 0 <= i < |files| ensures IsFile(Now(), files[i]) { assert MediumIsSound(Now(), files[i].id); }
      ghost var read := Now();
      Elapse();
      FilesStay(read, Now(), files);
    }

    /** Updates the row of a file, if it is there. */
    method UpdateMedia(m: Uuid, patch: MediaPatch)
      requires Valid() && MayWriteMedia(Now(), m, patch)
      modifies this
      ensures Valid() && Budget() == old(Budget()) && calls == old(calls) && old(run) + [WriteMedia(m, patch)] <= run
      ensures Meanwhile(Apply(old(Now()), WriteMedia(m, patch)), Now())
    {
      Extend(WriteMedia(m, patch));
      if m in media { media := media[m := PatchMedia(media[m], patch)]; }
      if patch.state.Uploaded? { history := history.(uploaded := history.uploaded + {m}); }
      run := run + [WriteMedia(m, patch)];
      Elapse();
    }

    /** The version of each active route. */
    method RouteVersions() returns (known: map<Uuid, Version>)
      requires Valid()
      modifies this
      ensures Valid() && Budget() == old(Budget()) && calls == old(calls) && old(run) <= run && Meanwhile(old(Now()), Now())
      ensures forall r :: r in known <==> r in old(routes) && old(routes)[r].active
      ensures (forall r :: r in known ==> known[r] == old(routes)[r].version) && StillKnown(Now(), known)
    {
      known := map r | r in routes && routes[r].active :: routes[r].version;
      Elapse();
    }

    /** One transaction: nothing is active, then every update is, then every listed route is. */
    method SaveRoutes(active: seq<RouteRef>, updates: seq<RouteUpdate>)
      requires Valid() && Unsaved(Now()) && reply.value.routes.value == RouteAnswer(active, updates)
      modifies this
      ensures Valid() && Budget() == old(Budget()) && calls == old(calls) && old(run) + [Step.SaveRoutes] <= run
      ensures IsSaved(old(routes), active, updates, Apply(old(Now()), Step.SaveRoutes).db.routes)
      ensures Meanwhile(Apply(old(Now()), Step.SaveRoutes), Now())
    {
      Extend(Step.SaveRoutes);
      routes := WriteRoutes(routes, active, updates);
      reply := Some(reply.value.(saved := true));
      run := run + [Step.SaveRoutes];
      Elapse();
    }

    /** The unconfirmed outcomes, oldest first, for the overlay of the day. */
    method PendingOutcomes() returns (overlay: seq<M.Pending>, keys: seq<Uuid>)
      requires Valid()
      ensures Flicker.SelectsUnconfirmed(Now().db, keys) && overlay == Flicker.OverlayOf(Now().db, keys)
      ensures Flicker.AreOutcomes(rows, keys, overlay)
    {
      OrdersDiffer();
      keys := SelectOutcomes(Now().db);
      overlay := Flicker.OverlayOf(Now().db, keys);
      Flicker.OverlayMeans(Now().db, keys);
    }

    // ── The ports ────────────────────────────────────────────────────────────
    // Each body is one call under every behaviour the model allows the server, the answer included.

    method DoSend(items: seq<Item>, taken: set<Uuid>, answer: Option<Reply>)
      requires Valid() && MaySend(Now(), items) && ServerMay(Now(), items, taken, answer)
      modifies this
      ensures Valid() && arrivals == old(arrivals) && calls == old(calls) && run == old(run) + [Send(items, taken, answer)]
      ensures Now() == Apply(old(Now()), Send(items, taken, answer))
    {
      Extend(Send(items, taken, answer));
      var published := if answer.Some? && answer.value.routes.Some?
                       then Publish(server.published, answer.value.routes.value.updates) else server.published;
      server := server.(applied := server.applied + Taken(items, taken), published := published);
      history := history.(sends := history.sends + KeysOf(items));
      reply := answer;
      run := run + [Send(items, taken, answer)];
    }

    /** One call, and what the screens do until its answer is read. */
    method Exchange(items: seq<Item>, taken: set<Uuid>, answer: Option<Reply>)
      requires Valid() && MaySend(Now(), items) && ServerMay(Now(), items, taken, answer)
      modifies this
      ensures Valid() && Budget() == old(Budget()) && calls == old(calls) && old(run) + [Send(items, taken, answer)] <= run
      ensures Waiting(old(Now()), Now()) && history.sends == old(history.sends) + KeysOf(items) && reply == answer
      ensures server.slots == old(server.slots)
    {
      Sound();
      ghost var before := Now();
      DoSend(items, taken, answer);
      SendIsWaiting(before, items, taken, answer);
      ghost var sent := Now();
      Elapse();
      WaitingTransitive(before, sent, Now());
    }

    /** The sync call. */
    method Sync(items: seq<Item>, known: map<Uuid, Version>) returns (r: Attempt<SyncResponse>)
      requires Valid() && MaySend(Now(), items) && IsSyncBatch(items) && StillKnown(Now(), known)
      modifies this
      ensures Valid() && Budget() == old(Budget()) && old(run) <= run && Waiting(old(Now()), Now())
      ensures calls == old(calls) + [SyncCall(KeysOf(items), r)]
      ensures history.sends == old(history.sends) + KeysOf(items) && server.slots == old(server.slots)
      ensures r.Ok? ==> Unsaved(Now()) && reply.value.routes.value == RouteAnswer(r.value.active, r.value.updates)
      ensures r.Ok? ==> Says(reply.value, KeysOf(items), SyncRulings(r.value.results, KeysOf(items)))
      ensures r.Ok? ==> exists k :: |old(run)| <= k < |run| && IsAnsweredSync(run[k])
    {
      var taken: set<Uuid>, answer: Option<Reply>, outcome: Attempt<SyncResponse> := *, *, *;
      if !(ServerMay(Now(), items, taken, answer) && IsSyncAnswer(answer, KeysOf(items), known, outcome)) {
        taken, answer, outcome := {}, None, Transient;
      }
      ghost var before := run;
      Exchange(items, taken, answer);
      assert run[|before|] == (before + [Send(items, taken, answer)])[|before|];
      r := outcome;
      assert r.Ok? ==> IsAnsweredSync(run[|before|]);
      calls := calls + [SyncCall(KeysOf(items), r)];
    }

    /** The call with scans of one pickup: a result names its scan by position. */
    method ScanBatch(items: seq<Item>) returns (r: Attempt<seq<ScanResult>>)
      requires Valid() && MaySend(Now(), items) && !IsSyncBatch(items)
      modifies this
      ensures Valid() && Budget() == old(Budget()) && old(run) <= run && Waiting(old(Now()), Now())
      ensures calls == old(calls) + [ScanCall(KeysOf(items), r)]
      ensures history.sends == old(history.sends) + KeysOf(items)
      ensures !r.Transient? ==>
                MaySettle(Now()) && Says(reply.value, KeysOf(items), ScanOutcomes(r, |items|))
    {
      var taken: set<Uuid>, answer: Option<Reply>, outcome: Attempt<seq<ScanResult>> := *, *, *;
      if !(ServerMay(Now(), items, taken, answer) && IsScanAnswer(answer, KeysOf(items), outcome)) {
        taken, answer, outcome := {}, None, Transient;
      }
      Exchange(items, taken, answer);
      r := outcome;
      calls := calls + [ScanCall(KeysOf(items), r)];
    }

    /** The call that collects or completes a pickup. */
    method CallPickup(item: Item) returns (r: Attempt<()>)
      requires Valid() && MaySend(Now(), [item]) && !IsSyncKind(item.kind)
      modifies this
      ensures Valid() && Budget() == old(Budget()) && old(run) <= run && Waiting(old(Now()), Now())
      ensures calls == old(calls) + [Call.PickupCall(item.key, r)]
      ensures history.sends == old(history.sends) + [item.key]
      ensures !r.Transient? ==> MaySettle(Now()) && Says(reply.value, [item.key], [PickupRuling(r)])
    {
      var taken: set<Uuid>, answer: Option<Reply>, outcome: Attempt<()> := *, *, *;
      assert [item][0] == item;
      assert KeysOf([item]) == [item.key];
      if !(ServerMay(Now(), [item], taken, answer) && IsPickupAnswer(answer, item.key, outcome)) {
        taken, answer, outcome := {}, None, Transient;
      }
      Exchange([item], taken, answer);
      r := outcome;
      calls := calls + [Call.PickupCall(item.key, r)];
    }

    /** The server grants a slot, the one it has granted before if it has, or it does not. */
    method Grant(m: Uuid) returns (granted: bool, slot: Slot)
      requires Valid() && m in history.captured
      modifies this
      ensures Valid() && Budget() == old(Budget()) && calls == old(calls) && old(run) <= run && Waiting(old(Now()), Now())
      ensures history.uploaded == old(history.uploaded) && server.completed == old(server.completed)
      ensures forall n :: n in old(server.slots) ==> n in server.slots && server.slots[n] == old(server.slots)[n]
      ensures granted ==> m in server.slots && server.slots[m] == slot
    {
      Sound();
      ghost var before := Now();
      slot := *;
      if m in server.slots { slot := server.slots[m]; }
      granted := m in server.slots || forall n :: n in server.slots ==> server.slots[n].artifact != slot.artifact;
      if granted {
        Extend(Step.Presign(m, slot));
        server := server.(slots := server.slots[m := slot]);
        run := run + [Step.Presign(m, slot)];
      }
      StillWaits(before, Now());
    }

    /** Asks for a slot: one per media id, however often it is asked for. */
    method Presign(m: Uuid) returns (r: Attempt<MediaSlot>)
      requires Valid() && m in history.captured
      modifies this
      ensures Valid() && Budget() == old(Budget()) && old(run) <= run && Waiting(old(Now()), Now())
      ensures calls == old(calls) + [PresignCall(m, r)]
      ensures history.uploaded == old(history.uploaded) && server.completed == old(server.completed)
      ensures forall n :: n in old(server.slots) ==> n in server.slots && server.slots[n] == old(server.slots)[n]
      ensures r.Ok? ==> m in server.slots && server.slots[m] == r.value.slot
    {
      ghost var before := Now();
      var url: Option<string>, arrives: bool, refused: bool := *, *, *;
      var granted, slot := Grant(m);
      r := if granted && arrives then Ok(MediaSlot(slot, url)) else if refused then RefusedCall("REFUSED", "") else Transient;
      calls := calls + [PresignCall(m, r)];
      ghost var asked := Now();
      Elapse();
      WaitingTransitive(before, asked, Now());
    }

    /** The upload to the storage, which the model does not look into. */
    method Upload(m: Uuid, url: string) returns (r: Attempt<()>)
      requires Valid()
      modifies this
      ensures Valid() && Budget() == old(Budget()) && old(run) <= run && Meanwhile(old(Now()), Now())
      ensures calls == old(calls) + [UploadCall(m, url, r)]
    {
      var done: bool, refused: bool := *, *;
      r := if done then Ok(()) else if refused then RefusedCall("UPLOAD_REFUSED", url) else Transient;
      calls := calls + [UploadCall(m, url, r)];
      Elapse();
    }

    /** The server may or may not get to know that the artifact is there. */
    method Land(artifact: Uuid) returns (happens: bool)
      requires Valid() && exists m :: m in server.slots && server.slots[m].artifact == artifact
      modifies this
      ensures Valid() && Budget() == old(Budget()) && calls == old(calls) && old(run) <= run && Waiting(old(Now()), Now())
      ensures server.slots == old(server.slots) && history.uploaded == old(history.uploaded)
      ensures happens ==> artifact in server.completed
    {
      Sound();
      ghost var before := Now();
      happens := *;
      if happens {
        Extend(Step.Complete(artifact));
        server := server.(completed := server.completed + {artifact});
        run := run + [Step.Complete(artifact)];
      }
      StillWaits(before, Now());
    }

    /** Tells the server that the artifact is there. */
    method CompleteMedia(artifact: Uuid) returns (r: Attempt<()>)
      requires Valid() && exists m :: m in server.slots && server.slots[m].artifact == artifact
      modifies this
      ensures Valid() && Budget() == old(Budget()) && old(run) <= run && Waiting(old(Now()), Now())
      ensures calls == old(calls) + [CompleteCall(artifact, r)]
      ensures server.slots == old(server.slots) && history.uploaded == old(history.uploaded)
      ensures r.Ok? ==> artifact in server.completed
    {
      ghost var before := Now();
      var arrives: bool, refused: bool := *, *;
      var happens := Land(artifact);
      r := if happens && arrives then Ok(()) else if refused then RefusedCall("REFUSED", "") else Transient;
      calls := calls + [CompleteCall(artifact, r)];
      ghost var asked := Now();
      Elapse();
      WaitingTransitive(before, asked, Now());
    }

    method DiscardFile(m: Uuid)
      requires Valid() && m in history.uploaded
      modifies this
      ensures Valid() && Budget() == old(Budget()) && calls == old(calls) && old(run) <= run && Waiting(old(Now()), Now())
      ensures history.uploaded == old(history.uploaded) && server == old(server) && m in history.discarded
    {
      Sound();
      ghost var before := Now();
      Extend(Step.DiscardFile(m));
      history := history.(discarded := history.discarded + {m});
      run := run + [Step.DiscardFile(m)];
      StillWaits(before, Now());
      ghost var done := Now();
      Elapse();
      WaitingTransitive(before, done, Now());
    }
  }
}
