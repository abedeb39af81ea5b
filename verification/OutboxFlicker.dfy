/** A delivered parcel never flickers: between the driver's tap and the server's confirmation it always reads as delivered. */
module OutboxFlicker {
  import opened Common
  import opened OutboxModel
  import opened OutboxRuns
  import M = Manifests

  // ── The overlay the screens read ───────────────────────────────────────────

  predicate IsOutcome(kind: ActionKind) { kind.Delivered? || kind.Failed? || kind.ReturnCompleted? }

  function OutcomeOf(kind: ActionKind): M.Outcome
    requires IsOutcome(kind)
  {
    match kind
    case Delivered => M.WasDelivered
    case Failed => M.WasFailed
    case ReturnCompleted => M.WasReturned
  }

  predicate Unconfirmed(a: Action) { (a.state.Pending? || a.state.Escalated?) && IsOutcome(a.kind) }

  /** `keys` are the rows the query selects, oldest first. */
  ghost predicate SelectsUnconfirmed(db: Db, keys: seq<Uuid>) {
    && Distinct(keys)
    && (forall i :: 0 <= i < |keys| ==> keys[i] in db.rows && Unconfirmed(db.rows[keys[i]]))
    && (forall k :: k in db.rows && Unconfirmed(db.rows[k]) ==> k in keys)
    && (forall i, j :: 0 <= i < j < |keys| ==> db.rows[keys[i]].order < db.rows[keys[j]].order)
  }

  function EntryOf(a: Action): M.Pending
    requires Unconfirmed(a)
  {
    M.Pending(a.subject, OutcomeOf(a.kind))
  }

  function OverlayOf(db: Db, keys: seq<Uuid>): (r: seq<M.Pending>)
    requires forall i :: 0 <= i < |keys| ==> keys[i] in db.rows && Unconfirmed(db.rows[keys[i]])
    ensures |r| == |keys| && forall i :: 0 <= i < |r| ==> r[i] == EntryOf(db.rows[keys[i]])
  {
    seq(|keys|, i requires 0 <= i < |keys| => EntryOf(db.rows[keys[i]]))
  }

  /** What one outcome lays over its parcel. */
  ghost predicate IsEntry(a: Action, entry: M.Pending) {
    && entry.shipment == a.subject
    && match a.kind
       case Delivered => entry.outcome == M.WasDelivered
       case Failed => entry.outcome == M.WasFailed
       case ReturnCompleted => entry.outcome == M.WasReturned
       case _ => false
  }

  /** The outcomes of waiting and escalated actions, each once, oldest first. */
  ghost predicate AreOutcomes(rows: map<Uuid, Action>, keys: seq<Uuid>, overlay: seq<M.Pending>) {
    && Distinct(keys) && |overlay| == |keys|
    && (forall k :: k in keys <==> k in rows && rows[k].state in {Pending, Escalated} && rows[k].kind in {Delivered, Failed, ReturnCompleted})
    && (forall i :: 0 <= i < |keys| ==> keys[i] in rows && IsEntry(rows[keys[i]], overlay[i]))
    && (forall i, j :: 0 <= i < j < |keys| ==> rows[keys[i]].order < rows[keys[j]].order)
  }

  lemma OverlayMeans(db: Db, keys: seq<Uuid>)
    requires SelectsUnconfirmed(db, keys)
    ensures AreOutcomes(db.rows, keys, OverlayOf(db, keys))
  {
    forall k ensures k in keys <==> k in db.rows && db.rows[k].state in {Pending, Escalated} && db.rows[k].kind in {Delivered, Failed, ReturnCompleted} {
      if k in keys {
        var i :| 0 <= i < |keys| && keys[i] == k;
      }
      assert k in db.rows ==> (Unconfirmed(db.rows[k])
        <==> db.rows[k].state in {Pending, Escalated} && db.rows[k].kind in {Delivered, Failed, ReturnCompleted});
    }
  }

  // ── What the server is assumed to show ─────────────────────────────────────

  /** The manifest lists the parcel as unsettled or delivered; as delivered once its delivery is applied. */
  ghost predicate Shows(manifest: M.Manifest, shipment: Uuid, applied: bool) {
    forall s :: s in M.Listed([manifest]) && s.id == shipment ==>
      s.status.Delivered? || (s.status.Unsettled? && !applied)
  }

  ghost predicate AnswerShows(w: World, shipment: Uuid, k: Uuid) {
    w.reply.Some? && w.reply.value.routes.Some? ==>
      forall a :: a in w.reply.value.routes.value.active && a.version in w.server.published
        ==> Shows(w.server.published[a.version], shipment, k in AppliedKeys(w.server))
  }

  /** Every sync answer of the run shows the parcel that way. */
  ghost predicate ServerShows(w: World, run: seq<Step>, shipment: Uuid, k: Uuid)
    requires Legal(w, run)
  {
    if run == [] then true
    else
      LastStep(w, run);
      ServerShows(w, run[..|run| - 1], shipment, k)
      && (run[|run| - 1].Send? ==> AnswerShows(After(w, run), shipment, k))
  }

  // ── The invariant ──────────────────────────────────────────────────────────

  ghost predicate ActiveShow(w: World, shipment: Uuid, applied: bool) {
    forall r :: r in w.db.routes && w.db.routes[r].active ==> Shows(w.db.routes[r].manifest, shipment, applied)
  }

  ghost predicate Steady(w: World, shipment: Uuid, k: Uuid) {
    && ActiveShow(w, shipment, k in w.history.accepted)
    && (w.reply.Some? && k in w.reply.value.acks ==>
          w.reply.value.routes.Some? && (w.reply.value.saved ==> ActiveShow(w, shipment, true)))
    && (Unsaved(w) ==> AnswerShows(w, shipment, k))
  }

  lemma SendKeepsSteady(w: World, s: Step, shipment: Uuid, k: Uuid)
    requires Inv(w) && Steady(w, shipment, k) && Enabled(w, s) && s.Send?
    requires k in w.history.minted && IsSyncKind(w.history.minted[k].kind)
    requires AnswerShows(Apply(w, s), shipment, k)
    ensures Steady(Apply(w, s), shipment, k)
  {
    if s.reply.Some? && k in s.reply.value.acks {
      var i :| 0 <= i < |s.items| && KeysOf(s.items)[i] == k;
      assert MayItem(w, s.items[i]);
      assert IsSyncKind(s.items[i].kind);
      assert IsSyncBatch(s.items);
    }
  }

  lemma SaveKeepsSteady(w: World, shipment: Uuid, k: Uuid)
    requires Inv(w) && AnswerFits(w) && Steady(w, shipment, k) && Enabled(w, SaveRoutes)
    requires Supplied(w.db.routes, w.reply.value.routes.value)
    ensures Steady(Apply(w, SaveRoutes), shipment, k)
  {
    var w' := Apply(w, SaveRoutes);
    var answer := w.reply.value.routes.value;
    SavedExactly(w.db.routes, w.reply.value.known, w.server.published, answer);
    forall r | r in w'.db.routes && w'.db.routes[r].active
      ensures Shows(w'.db.routes[r].manifest, shipment, k in AppliedKeys(w.server))
    {
      var a :| a in answer.active && a.routeId == r;
      assert w'.db.routes[r].manifest == w.server.published[a.version];
    }
  }

  lemma AcksAreMinted(w: World, s: Step)
    requires Inv(w) && Enabled(w, s) && s.Send?
    ensures s.reply.Some? ==> forall k :: k in s.reply.value.acks ==> k in w.history.minted
  {
    if s.reply.Some? {
      forall k | k in s.reply.value.acks ensures k in w.history.minted {
        var i :| 0 <= i < |s.items| && KeysOf(s.items)[i] == k;
        assert MayItem(w, s.items[i]);
      }
    }
  }

  lemma KeepsSteady(w: World, s: Step, shipment: Uuid, k: Uuid)
    requires Inv(w) && AnswerFits(w) && Steady(w, shipment, k) && Enabled(w, s)
    requires k in w.history.minted ==> IsSyncKind(w.history.minted[k].kind)
    requires s.Send? ==> AnswerShows(Apply(w, s), shipment, k)
    requires s.SaveRoutes? ==> Supplied(w.db.routes, w.reply.value.routes.value)
    ensures Steady(Apply(w, s), shipment, k)
  {
    if s.Send? {
      AcksAreMinted(w, s);
      if k in w.history.minted { SendKeepsSteady(w, s, shipment, k); }
    } else if s.SaveRoutes? {
      SaveKeepsSteady(w, shipment, k);
    } else {
      OthersKeepSteady(w, s, shipment, k);
    }
  }

  lemma OthersKeepSteady(w: World, s: Step, shipment: Uuid, k: Uuid)
    requires Steady(w, shipment, k) && Enabled(w, s) && !s.Send? && !s.SaveRoutes?
    ensures Steady(Apply(w, s), shipment, k)
  {
    assert forall r :: r in Apply(w, s).db.routes ==> r in w.db.routes && Apply(w, s).db.routes[r] == w.db.routes[r];
    assert Apply(w, s).server.published == w.server.published && Apply(w, s).server.applied == w.server.applied;
  }

  lemma MintedStays(w: World, s: Step, k: Uuid)
    requires Enabled(w, s) && k in w.history.minted
    ensures k in Apply(w, s).history.minted && Apply(w, s).history.minted[k] == w.history.minted[k]
  {
  }

  lemma {:induction false} RunsKeepSteady(start: World, run: seq<Step>, shipment: Uuid, k: Uuid)
    requires Initial(start) && Legal(start, run) && SavesAreSupplied(start, run) && ServerShows(start, run, shipment, k)
    requires k in After(start, run).history.minted ==> IsSyncKind(After(start, run).history.minted[k].kind)
    ensures Steady(After(start, run), shipment, k)
  {
    if run != [] {
      LastStep(start, run);
      var before, s := After(start, run[..|run| - 1]), run[|run| - 1];
      if k in before.history.minted { MintedStays(before, s, k); }
      RunsKeepSteady(start, run[..|run| - 1], shipment, k);
      RunsKeepInv(start, run[..|run| - 1]);
      RunsKeepFit(start, run[..|run| - 1]);
      KeepsSteady(before, s, shipment, k);
    }
  }

  // ── The theorem ────────────────────────────────────────────────────────────

  lemma {:induction false} FirstPendingOnly(p: seq<M.Pending>, i: nat, id: Uuid)
    requires i < |p| && p[i].shipment == id && forall j :: 0 <= j < |p| && j != i ==> p[j].shipment != id
    ensures M.FirstPending(p, id) == Some(p[i].outcome)
  {
    if i > 0 { FirstPendingOnly(p[1..], i - 1, id); }
  }

  /** `k` is the only outcome of its parcel still unconfirmed, if it is unconfirmed itself. */
  ghost predicate Sole(db: Db, k: Uuid, shipment: Uuid) {
    forall l :: l in db.rows && l != k && db.rows[l].state in {Pending, Escalated} && db.rows[l].kind in {Delivered, Failed, ReturnCompleted}
      ==> db.rows[l].subject != shipment
  }

  lemma AcceptedGrows(w: World, s: Step)
    requires Enabled(w, s)
    ensures w.history.accepted <= Apply(w, s).history.accepted
  {
  }

  lemma {:induction false} AcceptedStays(start: World, earlier: seq<Step>, run: seq<Step>)
    requires Legal(start, earlier) && Legal(start, run) && earlier <= run
    ensures After(start, earlier).history.accepted <= After(start, run).history.accepted
    decreases |run|
  {
    if earlier != run {
      LastStep(start, run);
      AcceptedStays(start, earlier, run[..|run| - 1]);
      AcceptedGrows(After(start, run[..|run| - 1]), run[|run| - 1]);
    }
  }

  /** An undismissed delivery that no sign-out lost, and the overlay as it was read in `w`. */
  ghost predicate Overlaid(w: World, k: Uuid, shipment: Uuid, keys: seq<Uuid>) {
    && k in w.history.minted && w.history.minted[k].kind.Delivered? && w.history.minted[k].subject == shipment
    && k !in w.history.dismissed && (k in w.history.lost ==> k in w.history.accepted)
    && Sole(w.db, k, shipment) && SelectsUnconfirmed(w.db, keys)
  }

  /** The overlay says delivered, or the server's acceptance has been written. */
  lemma OverlaidOrAccepted(w: World, k: Uuid, shipment: Uuid, keys: seq<Uuid>)
    requires StatesAreEarned(w) && RowsAreIntents(w) && Overlaid(w, k, shipment, keys)
    ensures k in w.history.accepted || M.FirstPending(OverlayOf(w.db, keys), shipment) == Some(M.WasDelivered)
  {
    var overlay := OverlayOf(w.db, keys);
    assert Earned(w, k);
    if k in w.db.rows && Unconfirmed(w.db.rows[k]) {
      assert k in keys;
      var i :| 0 <= i < |keys| && keys[i] == k;
      forall j | 0 <= j < |keys| && j != i ensures overlay[j].shipment != shipment {
        assert keys[j] in keys && keys[j] != k;
      }
      FirstPendingOnly(overlay, i, shipment);
    }
  }

  ghost predicate ReadAsDelivered(routes: map<Uuid, Route>, overlay: seq<M.Pending>, shipment: Uuid) {
    forall r, s :: r in routes && routes[r].active && s in M.Listed([routes[r].manifest]) && s.id == shipment
      ==> M.ViewParcel(s, overlay).state.IsDelivered?
  }

  /**
   * Each active listing of the parcel reads as delivered, in every world of a run. The screens read the outcomes and the
   * manifests in two queries: the overlay may be from any earlier moment.
   */
  lemma ReadsDelivered(start: World, earlier: seq<Step>, run: seq<Step>, k: Uuid, shipment: Uuid, keys: seq<Uuid>)
    requires Initial(start) && Legal(start, earlier) && Legal(start, run) && earlier <= run
    requires SavesAreSupplied(start, run) && ServerShows(start, run, shipment, k)
    requires Overlaid(After(start, earlier), k, shipment, keys)
    ensures ReadAsDelivered(After(start, run).db.routes, OverlayOf(After(start, earlier).db, keys), shipment)
  {
    var read, w := After(start, earlier), After(start, run);
    var overlay := OverlayOf(read.db, keys);
    KindStays(start, earlier, run, k);
    RunsKeepSteady(start, run, shipment, k);
    RunsKeepInv(start, earlier);
    OverlaidOrAccepted(read, k, shipment, keys);
    AcceptedStays(start, earlier, run);
    forall r, s | r in w.db.routes && w.db.routes[r].active && s in M.Listed([w.db.routes[r].manifest]) && s.id == shipment
      ensures M.ViewParcel(s, overlay).state.IsDelivered?
    {
      assert Shows(w.db.routes[r].manifest, shipment, k in w.history.accepted);
      M.OverlayMeaning(s, overlay);
    }
  }

  lemma {:induction false} KindStays(start: World, earlier: seq<Step>, run: seq<Step>, k: Uuid)
    requires Legal(start, earlier) && Legal(start, run) && earlier <= run && k in After(start, earlier).history.minted
    ensures k in After(start, run).history.minted && After(start, run).history.minted[k] == After(start, earlier).history.minted[k]
    decreases |run|
  {
    if earlier != run {
      LastStep(start, run);
      KindStays(start, earlier, run[..|run| - 1], k);
      MintedStays(After(start, run[..|run| - 1]), run[|run| - 1], k);
    }
  }

  lemma {:induction false} ListedMember(manifests: seq<M.Manifest>, s: M.Shipment) returns (m: M.Manifest)
    requires s in M.Listed(manifests)
    ensures m in manifests && s in M.Listed([m])
  {
    var last := manifests[|manifests| - 1];
    if s in M.Listed(manifests[..|manifests| - 1]) {
      m := ListedMember(manifests[..|manifests| - 1], s);
    } else {
      m := last;
      assert [last][..0] == [];
    }
  }

  lemma {:induction false} FirstsPrefix(a: seq<M.Shipment>, b: seq<M.Shipment>)
    ensures M.Firsts(a) <= M.Firsts(a + b)
  {
    if b == [] {
      assert a + b == a;
    } else {
      FirstsPrefix(a, b[..|b| - 1]);
      assert (a + b)[..|a + b| - 1] == a + b[..|b| - 1];
    }
  }

  lemma StaysInCash(a: seq<M.Manifest>, b: seq<M.Manifest>, p: seq<M.Pending>, id: Uuid)
    requires M.InCash(a, p, id)
    ensures M.InCash(a + b, p, id)
  {
    M.ListedAppend(a, b);
    FirstsPrefix(M.Listed(a), M.Listed(b));
    var views := M.Parcels(a, p);
    var i :| 0 <= i < |views| && views[i].state == M.IsDelivered && views[i].shipment.id == id;
    assert M.Parcels(a + b, p)[i] == views[i];
  }

  ghost predicate AreActive(routes: map<Uuid, Route>, active: seq<M.Manifest>) {
    forall m :: m in active ==> exists r :: r in routes && routes[r].active && routes[r].manifest == m
  }

  lemma ActiveInCash(routes: map<Uuid, Route>, overlay: seq<M.Pending>, shipment: Uuid, active: seq<M.Manifest>)
    requires ReadAsDelivered(routes, overlay, shipment) && AreActive(routes, active) && M.HasId(M.Listed(active), shipment)
    ensures M.InCash(active, overlay, shipment)
  {
    forall s | s in M.Listed(active) && s.id == shipment ensures M.ViewParcel(s, overlay).state.IsDelivered? {
      var m := ListedMember(active, s);
      var r :| r in routes && routes[r].active && routes[r].manifest == m;
      assert s in M.Listed([routes[r].manifest]);
    }
    M.DeliveredEverywhereIsInCash(active, overlay, shipment);
  }

  /**
   * No flicker: in every world of every run, so between any two writes of a flush, a delivered parcel on an active
   * route stays in the day's cash, whatever further routes of the day follow the active ones.
   */
  lemma NeverLeavesTheCash(start: World, earlier: seq<Step>, run: seq<Step>, k: Uuid, shipment: Uuid, keys: seq<Uuid>,
                           active: seq<M.Manifest>, others: seq<M.Manifest>)
    requires Initial(start) && Legal(start, earlier) && Legal(start, run) && earlier <= run
    requires SavesAreSupplied(start, run) && ServerShows(start, run, shipment, k)
    requires Overlaid(After(start, earlier), k, shipment, keys)
    requires AreActive(After(start, run).db.routes, active)
    requires M.HasId(M.Listed(active), shipment)
    ensures M.InCash(active + others, OverlayOf(After(start, earlier).db, keys), shipment)
  {
    var overlay := OverlayOf(After(start, earlier).db, keys);
    ReadsDelivered(start, earlier, run, k, shipment, keys);
    ActiveInCash(After(start, run).db.routes, overlay, shipment, active);
    StaysInCash(active, others, overlay, shipment);
  }
}
