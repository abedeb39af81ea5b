/** What a sign-out can break: it counts, then awaits, then deletes everything there is by then. */
module OutboxSignOut {
  import opened Common
  import opened OutboxModel
  import opened OutboxSteps
  import opened OutboxRuns
  import M = Manifests
  import MoneySums

  // ── A delivery recorded between the count and the wipe ─────────────────────

  const DELIVERY := Step.Enqueue(1, Delivered, 7, Payload("{}", Some("{}")), [], [], 0)
  const ROW := Action(0, Delivered, 7, Payload("{}", Some("{}")), [], Pending, 0, None, None, 0)
  const LOSING := [Count, DELIVERY, Wipe]

  lemma Counting(w: World)
    requires w.db.rows == map[] && w.db.media == map[]
    ensures Apply(w, Count).history.counted == Some(Mark(w.db.nextOrder, w.history.captured))
    ensures Apply(w, Count).db == w.db && Apply(w, Count).history.(counted := None) == w.history.(counted := None)
  {
    CountsUnsafe(w.db);
  }

  lemma RecordingLate(w: World)
    requires w.db == Db(map[], 0, map[], map[]) && w.history.minted == map[] && w.history.lost == map[]
    requires w.history.counted.Some? && w.history.accepted == []
    ensures Enabled(w, DELIVERY) && Enabled(Apply(w, DELIVERY), Wipe)
    ensures var v := Apply(Apply(w, DELIVERY), Wipe);
            && v.history.minted == map[1 := IntentOf(ROW)] && v.history.lost == map[1 := ROW]
            && v.history.accepted == [] && v.db.rows == map[] && v.server == w.server
  {
    assert NewMedia(DELIVERY) == map[];
    var v := Apply(w, DELIVERY);
    assert v.db.rows == map[1 := ROW];
    assert UnsettledRows(v.db) == map[1 := ROW];
  }

  /** A delivery recorded while a sign-out waits for its last calls is deleted unsent: the server never gets to know of it. */
  lemma SignOutLosesADelivery(start: World)
    requires Initial(start)
    ensures Legal(start, LOSING)
    ensures var w := After(start, LOSING);
            && 1 in w.history.minted && w.history.minted[1].kind == Delivered
            && 1 in w.history.lost && 1 !in w.history.accepted && 1 !in w.db.rows && w.server.applied == []
  {
    var run := LOSING;
    Counting(start);
    NextStep(start, run, 0);
    RecordingLate(After(start, run[..1]));
    NextTwo(start, run, 1);
    WholeRun(run);
  }

  // ── A cache emptied between the report of its versions and the save ────────

  /** A route with one parcel to deliver. */
  const PLAN := M.Manifest(3, "R3", M.InProgress, 0, [M.Stop(4, 1, M.Delivery, M.Waiting, [PARCEL])])
  const PARCEL := M.Shipment(7, "T7", M.Unsettled("OUT_FOR_DELIVERY"), MoneySums.Money("100", "TND", 3))
  const ACTIVE := [RouteRef(3, M.InProgress, 8)]
  const FULL := RouteAnswer(ACTIVE, [RouteUpdate(3, 8, PLAN)])
  const UNCHANGED := RouteAnswer(ACTIVE, [])

  /** A plain sync that brings the route. */
  const FETCHING := Send([], {}, Some(Reply([], {}, {}, {}, map[], Some(FULL), false)))

  const LISTED := Reply([], {}, {}, {}, map[3 := 8], Some(UNCHANGED), false)

  /** A plain sync to which the device reported the route's version: the answer lists it and brings nothing. */
  const REFETCHING := Send([], {}, Some(LISTED))

  const EMPTYING := [FETCHING, SaveRoutes, REFETCHING, Count, Wipe, SaveRoutes]

  ghost predicate Quiet(w: World) {
    && w.db.rows == map[] && w.db.nextOrder == 0 && w.db.media == map[]
    && w.server.applied == [] && w.history == NOTHING_YET
  }

  ghost predicate Cached(w: World) {
    Quiet(w) && w.db.routes == map[3 := Route(8, M.InProgress, true, 0, PLAN)] && 8 in w.server.published && w.server.published[8] == PLAN
  }

  lemma Fetching(w: World)
    requires Quiet(w) && w.db.routes == map[] && (8 in w.server.published ==> w.server.published[8] == PLAN)
    ensures Enabled(w, FETCHING) && Enabled(Apply(w, FETCHING), SaveRoutes)
    ensures Cached(Apply(Apply(w, FETCHING), SaveRoutes))
  {
    assert KeysOf([]) == [] && KnownVersions(w.db.routes) == map[];
    assert FULL.updates[0] in FULL.updates && FULL.active[0] in FULL.active;
    assert Lists(FULL.active, 3, 8) && Updates(FULL.updates, 3);
    var v := Apply(w, FETCHING);
    assert Publish(w.server.published, FULL.updates) == w.server.published[8 := PLAN] by { assert FULL.updates[..0] == []; }
    FetchedRoutes(v.db.routes);
  }

  lemma FetchedRoutes(routes: map<Uuid, Route>)
    requires routes == map[]
    ensures SavedRoutes(routes, FULL) == map[3 := Route(8, M.InProgress, true, 0, PLAN)]
  {
    assert FULL.updates[..0] == [] && FULL.active[..0] == [];
    assert Deactivated(routes) == map[];
    var updated := WithUpdates(routes, FULL.updates);
    assert WithUpdates(routes, FULL.updates[..0]) == routes;
    assert updated == map[3 := Route(8, M.InProgress, true, 0, PLAN)];
    assert WithActive(updated, FULL.active[..0]) == updated;
    assert WithActive(updated, FULL.active) == updated[3 := updated[3].(active := true, status := M.InProgress)];
  }

  lemma Refetching(w: World)
    requires Cached(w)
    ensures Enabled(w, REFETCHING) && Apply(w, REFETCHING).db == w.db
    ensures Apply(w, REFETCHING).reply == Some(LISTED)
  {
    assert KeysOf([]) == [] && KnownVersions(w.db.routes) == map[3 := 8];
    assert Taken([], {}) == [];
  }

  lemma Emptied(w: World)
    requires w.db.rows == map[] && w.db.media == map[] && w.reply == Some(LISTED)
    ensures Enabled(w, Count) && Enabled(Apply(w, Count), Wipe)
    ensures var v := Apply(Apply(w, Count), Wipe); v.db.routes == map[] && v.reply == Some(LISTED)
  {
    Counting(w);
  }

  lemma SavedEmpty(w: World)
    requires w.db.routes == map[] && w.reply == Some(LISTED)
    ensures Enabled(w, SaveRoutes) && Apply(w, SaveRoutes).db.routes == map[]
  {
    assert UNCHANGED.active[..0] == [];
    assert Deactivated(w.db.routes) == w.db.routes;
    assert WithUpdates(w.db.routes, []) == w.db.routes && WithActive(w.db.routes, UNCHANGED.active[..0]) == w.db.routes;
  }

  /** A sign-out between the report of the versions and the save leaves a cache without a route the server listed. */
  lemma SignOutEmptiesTheCache(start: World)
    requires Initial(start) && (8 in start.server.published ==> start.server.published[8] == PLAN)
    ensures Legal(start, EMPTYING) && After(start, EMPTYING).db.routes == map[]
    ensures Legal(start, EMPTYING[..5]) && Unsaved(After(start, EMPTYING[..5]))
    ensures After(start, EMPTYING[..5]).reply.value.routes.value.active == ACTIVE
    ensures !CacheIs(After(start, EMPTYING).db.routes, After(start, EMPTYING).server.published, ACTIVE)
  {
    assert ACTIVE[0] in ACTIVE;
    Emptying(start, EMPTYING);
  }

  lemma Emptying(start: World, run: seq<Step>)
    requires Initial(start) && (8 in start.server.published ==> start.server.published[8] == PLAN)
    requires |run| == 6 && run[0] == FETCHING && run[1] == SaveRoutes && run[2] == REFETCHING
    requires run[3] == Count && run[4] == Wipe && run[5] == SaveRoutes
    ensures Legal(start, run) && After(start, run).db.routes == map[]
    ensures Legal(start, run[..5]) && Unsaved(After(start, run[..5]))
    ensures After(start, run[..5]).reply.value.routes.value.active == ACTIVE
  {
    UpToTheWipe(start, run);
    SavedEmpty(After(start, run[..5]));
    NextStep(start, run, 5);
    WholeRun(run);
  }

  lemma UpToTheWipe(start: World, run: seq<Step>)
    requires Initial(start) && (8 in start.server.published ==> start.server.published[8] == PLAN)
    requires |run| == 6 && run[0] == FETCHING && run[1] == SaveRoutes && run[2] == REFETCHING
    requires run[3] == Count && run[4] == Wipe
    ensures Legal(start, run[..5]) && After(start, run[..5]).db.routes == map[] && After(start, run[..5]).reply == Some(LISTED)
  {
    Fetched(start, run);
    Reported(start, run);
    Emptied(After(start, run[..3]));
    NextTwo(start, run, 3);
  }

  lemma Fetched(start: World, run: seq<Step>)
    requires Initial(start) && (8 in start.server.published ==> start.server.published[8] == PLAN)
    requires |run| == 6 && run[0] == FETCHING && run[1] == SaveRoutes
    ensures Legal(start, run[..2]) && Cached(After(start, run[..2]))
  {
    Fetching(start);
    NextTwo(start, run, 0);
  }

  lemma Reported(start: World, run: seq<Step>)
    requires |run| == 6 && run[2] == REFETCHING && Legal(start, run[..2]) && Cached(After(start, run[..2]))
    ensures Legal(start, run[..3]) && After(start, run[..3]).db.rows == map[] && After(start, run[..3]).db.media == map[]
    ensures After(start, run[..3]).reply == Some(LISTED)
  {
    Refetching(After(start, run[..2]));
    NextStep(start, run, 2);
  }
}
