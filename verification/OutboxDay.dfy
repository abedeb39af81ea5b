/** The routes of the day: what keeps one on the device once the server no longer lists it, with the cash of its parcels. */
module OutboxDay {
  import opened Common
  import opened OutboxModel
  import opened OutboxSteps
  import opened OutboxRuns
  import Flicker = OutboxFlicker
  import Example = OutboxSignOut
  import M = Manifests

  /** The manifests of these routes, each route once. */
  ghost predicate AreManifests(routes: map<Uuid, Route>, order: seq<Uuid>, list: seq<M.Manifest>) {
    Distinct(order) && |order| == |list| && forall i :: 0 <= i < |order| ==> order[i] in routes && list[i] == routes[order[i]].manifest
  }

  /** The manifests of all active routes, and those of all others. */
  ghost predicate ListsDay(routes: map<Uuid, Route>, first: seq<Uuid>, active: seq<M.Manifest>, rest: seq<Uuid>, others: seq<M.Manifest>) {
    && AreManifests(routes, first, active) && (forall r :: r in first <==> r in routes && routes[r].active)
    && AreManifests(routes, rest, others) && (forall r :: r in rest <==> r in routes && !routes[r].active)
  }

  /** A row goes exactly with a sign-out, or when the day is read after its own and the route is inactive. */
  ghost predicate Drops(s: Step, row: Route) { s == Wipe || (s.DropRoutes? && row.plannedDate < s.today && !row.active) }

  /** The step brings a new manifest of the route. */
  ghost predicate Replaces(w: World, s: Step, r: Uuid)
    requires Enabled(w, s)
  {
    s == SaveRoutes && exists u :: u in w.reply.value.routes.value.updates && u.routeId == r
  }

  /** One step: the row stays unless it is dropped, and keeps its manifest, version and date unless it is replaced. */
  lemma RowStays(w: World, s: Step, r: Uuid)
    requires Enabled(w, s) && r in w.db.routes
    ensures r in Apply(w, s).db.routes <==> !Drops(s, w.db.routes[r])
    ensures !Drops(s, w.db.routes[r]) && !Replaces(w, s, r) ==> SameRoute(w.db.routes[r], Apply(w, s).db.routes[r])
  {
    RouteAfter(w, s, r);
    if s.SaveRoutes? && !Replaces(w, s, r) {
      var answer := w.reply.value.routes.value;
      assert !Updates(answer.updates, r);
      assert IsSavedRow(w.db.routes, answer.active, answer.updates, r, Apply(w, s).db.routes[r]);
    }
  }

  ghost predicate SameRoute(a: Route, b: Route) { a.version == b.version && a.plannedDate == b.plannedDate && a.manifest == b.manifest }

  /** In the stretch nobody signs out, the day is read on that date or before, and no answer brings the route anew. */
  ghost predicate LeftAlone(start: World, earlier: seq<Step>, run: seq<Step>, r: Uuid, date: int) {
    forall i :: |earlier| <= i < |run| ==>
      && run[i] != Wipe && (run[i].DropRoutes? ==> run[i].today <= date)
      && (Legal(start, run[..i]) && Enabled(After(start, run[..i]), run[i]) ==> !Replaces(After(start, run[..i]), run[i], r))
  }

  /** Over any stretch of any run a route stays for its day, whether the server lists it or not. */
  lemma {:induction false} StaysForTheDay(start: World, earlier: seq<Step>, run: seq<Step>, r: Uuid)
    requires Legal(start, earlier) && Legal(start, run) && earlier <= run && r in After(start, earlier).db.routes
    requires LeftAlone(start, earlier, run, r, After(start, earlier).db.routes[r].plannedDate)
    ensures r in After(start, run).db.routes && SameRoute(After(start, earlier).db.routes[r], After(start, run).db.routes[r])
    decreases |run|
  {
    if earlier != run {
      var n := |run| - 1;
      LastStep(start, run);
      LeftAloneBefore(start, earlier, run, r, After(start, earlier).db.routes[r].plannedDate);
      StaysForTheDay(start, earlier, run[..n], r);
      RowStays(After(start, run[..n]), run[n], r);
    }
  }

  lemma LeftAloneBefore(start: World, earlier: seq<Step>, run: seq<Step>, r: Uuid, date: int)
    requires |earlier| < |run| && LeftAlone(start, earlier, run, r, date)
    ensures LeftAlone(start, earlier, run[..|run| - 1], r, date)
  {
    var before := run[..|run| - 1];
    forall i | |earlier| <= i < |before| ensures before[i] == run[i] && before[..i] == run[..i] {}
  }

  /** The manifest gives the parcel this status, wherever it lists it. */
  ghost predicate Says(m: M.Manifest, shipment: Uuid, status: M.Status) {
    forall s :: s in M.Listed([m]) && s.id == shipment ==> s.status == status
  }

  /**
   * Over any stretch of any run, a parcel delivered on a route of today stays in the day's cash, although the answers no
   * longer list the route: whatever waits unconfirmed, if no other route of the day says something else about the parcel.
   */
  lemma UnlistedStaysInCash(start: World, earlier: seq<Step>, run: seq<Step>, r: Uuid, shipment: Uuid, pending: seq<M.Pending>,
                            first: seq<Uuid>, active: seq<M.Manifest>, rest: seq<Uuid>, others: seq<M.Manifest>)
    requires Legal(start, earlier) && Legal(start, run) && earlier <= run && r in After(start, earlier).db.routes
    requires LeftAlone(start, earlier, run, r, After(start, earlier).db.routes[r].plannedDate)
    requires M.HasId(M.Listed([After(start, earlier).db.routes[r].manifest]), shipment)
    requires Says(After(start, earlier).db.routes[r].manifest, shipment, M.Delivered)
    requires forall q :: q in After(start, run).db.routes && q != r ==> Says(After(start, run).db.routes[q].manifest, shipment, M.Delivered)
    requires ListsDay(After(start, run).db.routes, first, active, rest, others)
    ensures M.InCash(active + others, pending, shipment)
  {
    StaysForTheDay(start, earlier, run, r);
    DeliveredInDay(After(start, run).db.routes, r, shipment, pending, first, active, rest, others);
  }

  lemma DeliveredInDay(routes: map<Uuid, Route>, r: Uuid, shipment: Uuid, pending: seq<M.Pending>,
                       first: seq<Uuid>, active: seq<M.Manifest>, rest: seq<Uuid>, others: seq<M.Manifest>)
    requires r in routes && M.HasId(M.Listed([routes[r].manifest]), shipment)
    requires forall q :: q in routes ==> Says(routes[q].manifest, shipment, M.Delivered)
    requires ListsDay(routes, first, active, rest, others)
    ensures M.InCash(active + others, pending, shipment)
  {
    IsListed(routes, r, shipment, first, active, rest, others);
    forall s | s in M.Listed(active + others) && s.id == shipment ensures M.ViewParcel(s, pending).state.IsDelivered? {
      var q := RouteListing(routes, s, first, active, rest, others);
      assert Says(routes[q].manifest, shipment, M.Delivered);
      M.OverlayMeaning(s, pending);
    }
    M.DeliveredEverywhereIsInCash(active + others, pending, shipment);
  }

  lemma IsListed(routes: map<Uuid, Route>, r: Uuid, shipment: Uuid,
                 first: seq<Uuid>, active: seq<M.Manifest>, rest: seq<Uuid>, others: seq<M.Manifest>)
    requires r in routes && M.HasId(M.Listed([routes[r].manifest]), shipment) && ListsDay(routes, first, active, rest, others)
    ensures M.HasId(M.Listed(active + others), shipment)
  {
    if routes[r].active { HasManifest(routes, first, active, r); } else { HasManifest(routes, rest, others, r); }
    HasListing(active + others, routes[r].manifest, shipment);
  }

  /** A route that lists what the day lists. */
  lemma RouteListing(routes: map<Uuid, Route>, s: M.Shipment,
                     first: seq<Uuid>, active: seq<M.Manifest>, rest: seq<Uuid>, others: seq<M.Manifest>) returns (q: Uuid)
    requires ListsDay(routes, first, active, rest, others) && s in M.Listed(active + others)
    ensures q in routes && s in M.Listed([routes[q].manifest])
  {
    var m := Flicker.ListedMember(active + others, s);
    q := if m in active then OfManifest(routes, first, active, m) else OfManifest(routes, rest, others, m);
  }

  lemma HasManifest(routes: map<Uuid, Route>, order: seq<Uuid>, list: seq<M.Manifest>, r: Uuid)
    requires AreManifests(routes, order, list) && r in order
    ensures r in routes && routes[r].manifest in list
  {
    var i :| 0 <= i < |order| && order[i] == r;
    assert list[i] in list;
  }

  /** A route the manifest in the list belongs to. */
  ghost function OfManifest(routes: map<Uuid, Route>, order: seq<Uuid>, list: seq<M.Manifest>, m: M.Manifest): (r: Uuid)
    requires AreManifests(routes, order, list) && m in list
    ensures r in routes && routes[r].manifest == m
  {
    var i :| 0 <= i < |list| && list[i] == m;
    order[i]
  }

  lemma HasListing(all: seq<M.Manifest>, m: M.Manifest, shipment: Uuid)
    requires m in all && M.HasId(M.Listed([m]), shipment)
    ensures M.HasId(M.Listed(all), shipment)
  {
    var list := M.Listed([m]);
    var i :| 0 <= i < |list| && list[i].id == shipment;
    assert list[i] in list;
    M.ListedMeaning([m], list[i]);
    M.ListedMeaning(all, list[i]);
    var j :| 0 <= j < |M.Listed(all)| && M.Listed(all)[j] == list[i];
  }

  // ── A parcel the held manifest does not show as delivered ──────────────────

  /**
   * What a parcel delivered by this device reads as, on whatever manifest the device holds: as delivered exactly if the
   * manifest says so, or still has it unsettled and the server's acceptance has not been written.
   */
  lemma ReadsAsDeliveredExactly(w: World, k: Uuid, s: M.Shipment, keys: seq<Uuid>)
    requires Reachable(w) && Flicker.Overlaid(w, k, s.id, keys)
    ensures M.ViewParcel(s, Flicker.OverlayOf(w.db, keys)).state.IsDelivered?
            <==> s.status.Delivered? || (s.status.Unsettled? && k !in w.history.accepted)
  {
    ReachableIsSound(w);
    var overlay := Flicker.OverlayOf(w.db, keys);
    M.OverlayMeaning(s, overlay);
    Flicker.OverlaidOrAccepted(w, k, s.id, keys);
    if k in w.history.accepted {
      assert Earned(w, k);
      forall i | 0 <= i < |keys| ensures overlay[i].shipment != s.id { assert keys[i] in w.db.rows && keys[i] != k; }
      M.FirstPendingMeaning(overlay, s.id);
    }
  }

  /**
   * So over any stretch of any run a parcel of a route the answers no longer list is in the day's cash exactly if the
   * manifest from before says it was delivered, or has it unsettled and the acceptance of the delivery is not written
   * yet. Every route of the day that lists the parcel gives it that status.
   */
  lemma UnlistedInCashExactly(start: World, earlier: seq<Step>, run: seq<Step>, r: Uuid, k: Uuid, shipment: Uuid, status: M.Status,
                              keys: seq<Uuid>, first: seq<Uuid>, active: seq<M.Manifest>, rest: seq<Uuid>, others: seq<M.Manifest>)
    requires Initial(start) && Legal(start, earlier) && Legal(start, run) && earlier <= run && r in After(start, earlier).db.routes
    requires LeftAlone(start, earlier, run, r, After(start, earlier).db.routes[r].plannedDate)
    requires M.HasId(M.Listed([After(start, earlier).db.routes[r].manifest]), shipment)
    requires forall q :: q in After(start, run).db.routes ==> Says(After(start, run).db.routes[q].manifest, shipment, status)
    requires ListsDay(After(start, run).db.routes, first, active, rest, others)
    requires Flicker.Overlaid(After(start, run), k, shipment, keys)
    ensures M.InCash(active + others, Flicker.OverlayOf(After(start, run).db, keys), shipment)
            <==> status.Delivered? || (status.Unsettled? && k !in After(start, run).history.accepted)
  {
    StaysForTheDay(start, earlier, run, r);
    var w := After(start, run);
    var delivered := status.Delivered? || (status.Unsettled? && k !in w.history.accepted);
    IsListed(w.db.routes, r, shipment, first, active, rest, others);
    forall s | s in M.Listed(active + others) && s.id == shipment
      ensures M.ViewParcel(s, Flicker.OverlayOf(w.db, keys)).state.IsDelivered? <==> delivered
    {
      var q := RouteListing(w.db.routes, s, first, active, rest, others);
      assert Says(w.db.routes[q].manifest, shipment, status);
      ReadsAsDeliveredExactly(w, k, s, keys);
    }
    M.InCashExactly(active + others, Flicker.OverlayOf(w.db, keys), shipment, delivered);
  }

  // ── Cash that leaves the day ───────────────────────────────────────────────

  const SENT := Item(1, Delivered, 7, "{}", Some(Pod("{}", None, [])))
  const UNLISTED := Reply([1], {1}, {}, {}, map[3 := 8], Some(RouteAnswer([], [])), false)

  /** The server takes the delivery, and the answer lists no route: the dispatcher has withdrawn it. */
  const SENDING := Send([SENT], {1}, Some(UNLISTED))
  const ACCEPTING := WriteAction(1, ActionPatch(Some(Done), None, Some(None), Some(None)))
  const LEAVING := [Example.FETCHING, SaveRoutes, Example.DELIVERY, SENDING, SaveRoutes, ACCEPTING]

  ghost predicate Recorded(w: World) {
    && w.db.rows == map[1 := Example.ROW] && w.db.media == map[] && w.server.applied == []
    && w.db.routes == map[3 := Route(8, M.InProgress, true, 0, Example.PLAN)]
    && w.history.sends == [] && w.history.accepted == []
  }

  lemma Recording(w: World)
    requires Example.Cached(w)
    ensures Enabled(w, Example.DELIVERY) && Recorded(Apply(w, Example.DELIVERY))
  {
    assert NewMedia(Example.DELIVERY) == map[];
    assert Apply(w, Example.DELIVERY).db.rows == map[1 := Example.ROW];
  }

  ghost predicate Accepted(w: World) {
    && w.db.rows == map[1 := Example.ROW] && w.reply == Some(UNLISTED) && w.history.sends == [1] && w.history.accepted == []
    && w.db.routes == map[3 := Route(8, M.InProgress, true, 0, Example.PLAN)]
  }

  lemma Sending(w: World)
    requires Recorded(w)
    ensures Enabled(w, SENDING) && Accepted(Apply(w, SENDING))
  {
    var s := SENDING;
    assert KeysOf(s.items) == [1] && AppliedKeys(w.server) == {};
    assert Citable(w.db, Example.ROW, Photo) == {} && Citable(w.db, Example.ROW, Signature) == {};
    assert ListsKeysAs(w.db, {}, [], []);
    assert MayItem(w, s.items[0]);
    assert KnownVersions(w.db.routes) == map[3 := 8];
  }

  ghost predicate Left(w: World) {
    && w.db.rows == map[1 := PatchAction(Example.ROW, ACCEPTING.action)] && w.history.accepted == [1]
    && w.db.routes == map[3 := Route(8, M.InProgress, false, 0, Example.PLAN)]
  }

  lemma Leaving(w: World)
    requires Accepted(w)
    ensures Enabled(w, SaveRoutes) && Enabled(Apply(w, SaveRoutes), ACCEPTING)
    ensures Left(Apply(Apply(w, SaveRoutes), ACCEPTING))
  {
    var answer := UNLISTED.routes.value;
    assert WithUpdates(Deactivated(w.db.routes), answer.updates) == Deactivated(w.db.routes);
    var v := Apply(w, SaveRoutes);
    assert v.db.routes == map[3 := Route(8, M.InProgress, false, 0, Example.PLAN)];
    assert 1 in v.history.sends;
  }

  /** The plan's one parcel is in the cash exactly if its delivery waits. */
  lemma InThePlan(pending: seq<M.Pending>)
    ensures M.InCash([Example.PLAN], pending, 7) <==> M.FirstPending(pending, 7) == Some(M.WasDelivered)
  {
    var listed := M.Listed([Example.PLAN]);
    assert forall s :: s in listed ==> s == Example.PARCEL by {
      forall s | s in listed ensures s == Example.PARCEL { M.ListedMeaning([Example.PLAN], s); }
    }
    M.ListedMeaning([Example.PLAN], Example.PARCEL);
    var delivered := M.FirstPending(pending, 7) == Some(M.WasDelivered);
    M.OverlayMeaning(Example.PARCEL, pending);
    M.InCashExactly([Example.PLAN], pending, 7, delivered);
  }

  /** The screens list the route as active, and the parcel's cash is the driver's. */
  ghost predicate ShowsTheCash(w: World) {
    && ListsDay(w.db.routes, [3], [Example.PLAN], [], []) && Flicker.SelectsUnconfirmed(w.db, [1])
    && M.InCash([Example.PLAN], Flicker.OverlayOf(w.db, [1]), 7)
  }

  /** They still list the route, nothing waits, and the parcel's cash is gone. */
  ghost predicate MissesTheCash(w: World) {
    && ListsDay(w.db.routes, [], [], [3], [Example.PLAN]) && Flicker.SelectsUnconfirmed(w.db, [])
    && !M.InCash([Example.PLAN], Flicker.OverlayOf(w.db, []), 7)
  }

  lemma RecordedShows(w: World)
    requires Recorded(w)
    ensures ShowsTheCash(w)
  {
    assert w.db.routes[3].manifest == Example.PLAN;
    assert Flicker.SelectsUnconfirmed(w.db, [1]);
    InThePlan(Flicker.OverlayOf(w.db, [1]));
  }

  lemma LeftMisses(w: World)
    requires Left(w)
    ensures MissesTheCash(w)
  {
    assert w.db.routes[3].manifest == Example.PLAN;
    assert Flicker.SelectsUnconfirmed(w.db, []);
    InThePlan(Flicker.OverlayOf(w.db, []));
  }

  /**
   * A delivery recorded on a route that is withdrawn before it is sent: its parcel is in the day's cash while it waits, and
   * not any more once the acceptance is written. Nobody signed out, and the route is still there with its manifest.
   */
  lemma AcceptanceTakesTheCash(start: World)
    requires Initial(start) && (8 in start.server.published ==> start.server.published[8] == Example.PLAN)
    ensures Legal(start, LEAVING) && Legal(start, LEAVING[..3])
    ensures ShowsTheCash(After(start, LEAVING[..3]))
    ensures After(start, LEAVING).history.accepted == [1] && MissesTheCash(After(start, LEAVING))
  {
    var run := LEAVING;
    FirstThree(start, run);
    LastThree(start, run);
    RecordedShows(After(start, run[..3]));
    LeftMisses(After(start, run));
  }

  lemma FirstThree(start: World, run: seq<Step>)
    requires Initial(start) && (8 in start.server.published ==> start.server.published[8] == Example.PLAN)
    requires |run| == 6 && run[0] == Example.FETCHING && run[1] == SaveRoutes && run[2] == Example.DELIVERY
    ensures Legal(start, run[..3]) && Recorded(After(start, run[..3]))
  {
    Example.Fetched(start, run);
    Recording(After(start, run[..2]));
    NextStep(start, run, 2);
  }

  lemma LastThree(start: World, run: seq<Step>)
    requires |run| == 6 && run[3] == SENDING && run[4] == SaveRoutes && run[5] == ACCEPTING
    requires Legal(start, run[..3]) && Recorded(After(start, run[..3]))
    ensures Legal(start, run) && Left(After(start, run))
  {
    Sending(After(start, run[..3]));
    NextStep(start, run, 3);
    Leaving(After(start, run[..4]));
    NextTwo(start, run, 4);
    WholeRun(run);
  }
}
