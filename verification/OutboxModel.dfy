/**
 * The driver app's outbox as a system of steps over a durable database.
 *
 * A `World` is the device's tables, the server behind the ports, the answer the running flush is working through,
 * and a history of what happened. Between any two steps the driver may record, dismiss or sign out, answers may be
 * lost, and the process may die.
 */
module OutboxModel {
  import opened Common
  import M = Manifests

  // ── The tables ─────────────────────────────────────────────────────────────

  datatype ActionKind =
    | Delivered | Failed | ReturnCompleted | AddressCorrected
    | PickupScan | PickupCollect | PickupComplete

  datatype ActionState = Pending | Done | Refused | Escalated

  predicate IsSyncKind(kind: ActionKind) {
    kind.Delivered? || kind.Failed? || kind.ReturnCompleted? || kind.AddressCorrected?
  }

  /** Something that happened in the street, whatever the server says. */
  predicate IsPhysical(kind: ActionKind) { kind.Delivered? || kind.ReturnCompleted? }

  /** `pod` is the proof-of-delivery object, which a delivery completes with its media keys when sent. */
  datatype Payload = Payload(body: string, pod: Option<string>)

  datatype Action = Action(
    order: nat, kind: ActionKind, subject: Uuid, payload: Payload, media: seq<Uuid>,
    state: ActionState, attempts: nat, code: Option<string>, detail: Option<string>, createdAt: int)

  datatype MediaPurpose = Photo | Signature
  datatype MediaState = Captured | Slotted | Uploaded | Lost

  datatype Media = Media(
    purpose: MediaPurpose, artifact: Option<Uuid>, objectKey: Option<string>,
    state: MediaState, code: Option<string>, createdAt: int)

  /** The version is the digest of the manifest. */
  type Version = int

  datatype Route = Route(version: Version, status: M.RouteStatus, active: bool, plannedDate: int, manifest: M.Manifest)

  /** Rows by primary key; `nextOrder` is the AUTOINCREMENT counter of the actions. */
  datatype Db = Db(rows: map<Uuid, Action>, nextOrder: nat, media: map<Uuid, Media>, routes: map<Uuid, Route>)

  // ── The server and what it was sent ────────────────────────────────────────

  datatype Pod = Pod(text: string, signature: Option<string>, photos: seq<string>)
  datatype Item = Item(key: Uuid, kind: ActionKind, subject: Uuid, body: string, pod: Option<Pod>)
  datatype Slot = Slot(artifact: Uuid, objectKey: string)

  /** `applied`: the effects, in order. `slots`: one per media id. `published`: the manifest behind each version. */
  datatype Server = Server(
    applied: seq<Item>, slots: map<Uuid, Slot>, completed: set<Uuid>, published: map<Version, M.Manifest>)

  datatype RouteRef = RouteRef(routeId: Uuid, status: M.RouteStatus, version: Version)
  datatype RouteUpdate = RouteUpdate(routeId: Uuid, version: Version, manifest: M.Manifest)
  datatype RouteAnswer = RouteAnswer(active: seq<RouteRef>, updates: seq<RouteUpdate>)

  /**
   * The answer in hand: the batch it is about, which of its keys it acknowledges, discards and escalates, the versions
   * reported to it, and the routes of a sync, saved or not yet. The other keys are to be sent again.
   */
  datatype Reply = Reply(
    batch: seq<Uuid>, acks: set<Uuid>, discards: set<Uuid>, escalates: set<Uuid>,
    known: map<Uuid, Version>, routes: Option<RouteAnswer>, saved: bool)

  /** What the driver recorded under a key. */
  datatype Intent = Intent(order: nat, kind: ActionKind, subject: Uuid, payload: Payload)

  datatype Write = Write(id: Uuid, patch: ActionPatch)

  /** The moment a sign-out counted nothing unsafe: the next order number and the file ids there were. */
  datatype Mark = Mark(order: nat, captured: set<Uuid>)

  /**
   * `sends` has one entry for each time a key was put on the wire, `writes` one for each write to an action, and
   * `prunes` the cutoff of each housekeeping. `counted` is the count a sign-out under way goes by, and `lost` are the
   * rows sign-outs deleted before they were settled.
   */
  datatype History = History(
    minted: map<Uuid, Intent>, captured: set<Uuid>, sends: seq<Uuid>, writes: seq<Write>,
    accepted: seq<Uuid>, refused: seq<Uuid>, escalated: seq<Uuid>,
    dismissed: set<Uuid>, uploaded: set<Uuid>, discarded: set<Uuid>, prunes: seq<int>,
    counted: Option<Mark>, lost: map<Uuid, Action>, wiped: bool)

  datatype World = World(db: Db, server: Server, history: History, reply: Option<Reply>)

  // ── Table operations ───────────────────────────────────────────────────────

  datatype ActionPatch = ActionPatch(
    state: Option<ActionState>, attempts: Option<nat>, code: Option<Option<string>>, detail: Option<Option<string>>)
  datatype MediaPatch = MediaPatch(
    state: MediaState, artifact: Option<Uuid>, objectKey: Option<string>, code: Option<Option<string>>)

  function Or<T>(patch: Option<T>, current: T): T { if patch.Some? then patch.value else current }

  function PatchAction(a: Action, p: ActionPatch): Action {
    a.(state := Or(p.state, a.state), attempts := Or(p.attempts, a.attempts),
       code := Or(p.code, a.code), detail := Or(p.detail, a.detail))
  }

  function PatchMedia(m: Media, p: MediaPatch): Media {
    m.(state := p.state, artifact := if p.artifact.Some? then p.artifact else m.artifact,
       objectKey := if p.objectKey.Some? then p.objectKey else m.objectKey, code := Or(p.code, m.code))
  }

  predicate IsOpen(m: Media) { m.state.Captured? || m.state.Slotted? }

  /** How far a file has come; `Uploaded` and `Lost` are final. */
  function Stage(state: MediaState): nat {
    match state
    case Captured => 0
    case Slotted => 1
    case Uploaded => 2
    case Lost => 2
  }

  /** `saveRoutes`: nothing is active, then every update is, then every listed route is. */
  function Deactivated(routes: map<Uuid, Route>): map<Uuid, Route> {
    map r | r in routes :: routes[r].(active := false)
  }

  function WithUpdates(routes: map<Uuid, Route>, updates: seq<RouteUpdate>): map<Uuid, Route> {
    if updates == [] then routes
    else
      var u := updates[|updates| - 1];
      WithUpdates(routes, updates[..|updates| - 1])
        [u.routeId := Route(u.version, u.manifest.status, true, u.manifest.plannedDate, u.manifest)]
  }

  function WithActive(routes: map<Uuid, Route>, active: seq<RouteRef>): map<Uuid, Route> {
    if active == [] then routes
    else
      var a := active[|active| - 1];
      var before := WithActive(routes, active[..|active| - 1]);
      if a.routeId in before then before[a.routeId := before[a.routeId].(active := true, status := a.status)] else before
  }

  function SavedRoutes(routes: map<Uuid, Route>, answer: RouteAnswer): map<Uuid, Route> {
    WithActive(WithUpdates(Deactivated(routes), answer.updates), answer.active)
  }

  /** Not accepted yet, or escalated and not seen by anyone. */
  predicate Unsettled(a: Action) { a.state.Pending? || a.state.Escalated? }

  /** What would be lost if the phone forgot everything now. */
  function UnsafeToForget(db: Db): nat {
    |set k | k in db.rows && Unsettled(db.rows[k])| + |set m | m in db.media && IsOpen(db.media[m])|
  }

  /** The rows a sign-out would delete before they are settled. */
  function UnsettledRows(db: Db): map<Uuid, Action> {
    map k | k in db.rows && Unsettled(db.rows[k]) :: db.rows[k]
  }

  predicate Undecided(h: History, k: Uuid) { k !in h.accepted && k !in h.refused && k !in h.escalated }

  /**
   * The action has no outcome yet: it waits in the table, or it waited when a sign-out deleted its row, which a flush
   * that read it before may still send and settle.
   */
  predicate Awaits(w: World, k: Uuid) {
    if k in w.db.rows then w.db.rows[k].state.Pending?
    else k in w.history.lost && w.history.lost[k].state.Pending? && Undecided(w.history, k)
  }

  /** The row of an action, or the one it had. */
  function RowOf(w: World, k: Uuid): Action
    requires k in w.db.rows || k in w.history.lost
  {
    if k in w.db.rows then w.db.rows[k] else w.history.lost[k]
  }

  // ── The wire item ──────────────────────────────────────────────────────────

  /** The media of an action whose key it may cite. */
  function Citable(db: Db, a: Action, purpose: MediaPurpose): set<Uuid> {
    set m | m in a.media && m in db.media && db.media[m].purpose == purpose
            && db.media[m].objectKey.Some? && !db.media[m].state.Lost?
  }

  /** `keys` are the object keys of `ids`, each once, in some order (the query gives none). */
  ghost predicate ListsKeys(db: Db, ids: set<Uuid>, keys: seq<string>) {
    exists order: seq<Uuid> :: ListsKeysAs(db, ids, keys, order)
  }

  ghost predicate ListsKeysAs(db: Db, ids: set<Uuid>, keys: seq<string>, order: seq<Uuid>) {
    && Distinct(order) && |order| == |keys| && (forall m :: m in order <==> m in ids)
    && forall i :: 0 <= i < |order| ==> order[i] in ids && order[i] in db.media && db.media[order[i]].objectKey == Some(keys[i])
  }

  /** `item` carries what the row says, under the row's own key. */
  predicate SaysWhat(a: Action, key: Uuid, item: Item) {
    && item.key == key && item.kind == a.kind && item.subject == a.subject && item.body == a.payload.body
    && (item.pod.Some? <==> a.payload.pod.Some?)
    && (item.pod.Some? ==>
          && item.pod.value.text == a.payload.pod.value
          && (!a.kind.Delivered? ==> item.pod.value.signature.None? && item.pod.value.photos == []))
  }

  /** And it cites the proof of the delivery completely. */
  ghost predicate Cites(db: Db, a: Action, item: Item) {
    a.kind.Delivered? && item.pod.Some? ==> CitesProof(db, a, item.pod.value)
  }

  /** `item` is the action's. While the row is in the table, so is all its proof. */
  ghost predicate IsItemOf(w: World, key: Uuid, item: Item) {
    && (key in w.db.rows || key in w.history.lost) && SaysWhat(RowOf(w, key), key, item)
    && (key in w.db.rows ==> Cites(w.db, w.db.rows[key], item))
  }

  ghost predicate CitesProof(db: Db, a: Action, pod: Pod) {
    && ListsKeys(db, Citable(db, a, Photo), pod.photos)
    && (pod.signature.None? <==> Citable(db, a, Signature) == {})
    && (pod.signature.Some? ==> exists m :: IsKeyOf(db, a, m, pod.signature.value))
  }

  ghost predicate IsKeyOf(db: Db, a: Action, m: Uuid, key: string) {
    m in Citable(db, a, Signature) && db.media[m].objectKey == Some(key)
  }

  /** No photo or signature of the action still waits for its slot. */
  predicate Slottable(db: Db, a: Action) {
    forall m :: m in a.media && m in db.media ==> !db.media[m].state.Captured?
  }

  // ── Steps ──────────────────────────────────────────────────────────────────

  datatype Step =
    // The driver and the screens.
    | Enqueue(id: Uuid, kind: ActionKind, subject: Uuid, payload: Payload, photos: seq<Uuid>, purposes: seq<MediaPurpose>, now: int)
    | Dismiss(id: Uuid)
    | DropRoutes(today: int)
    | Count
    | Wipe
    // Housekeeping after a flush, and the end of a process.
    | Prune(olderThan: int)
    | Crash
    // The server, reached through the ports.
    | Presign(m: Uuid, slot: Slot)
    | Complete(artifact: Uuid)
    | Send(items: seq<Item>, taken: set<Uuid>, reply: Option<Reply>)
    // The writes of a flush.
    | WriteAction(id: Uuid, action: ActionPatch)
    | WriteMedia(m: Uuid, media: MediaPatch)
    | SaveRoutes
    | DiscardFile(m: Uuid)

  /** The steps the screens may take while a flush runs. */
  predicate IsScreenStep(s: Step) { s.Enqueue? || s.Dismiss? || s.DropRoutes? || s.Count? || s.Wipe? }

  function KeysOf(items: seq<Item>): (r: seq<Uuid>)
    ensures |r| == |items| && forall i :: 0 <= i < |r| ==> r[i] == items[i].key
  {
    seq(|items|, i requires 0 <= i < |items| => items[i].key)
  }

  function AppliedKeys(server: Server): set<Uuid> {
    set i | 0 <= i < |server.applied| :: server.applied[i].key
  }

  function Taken(items: seq<Item>, taken: set<Uuid>): seq<Item> {
    if items == [] then []
    else Taken(items[..|items| - 1], taken) + if items[|items| - 1].key in taken then [items[|items| - 1]] else []
  }

  const MAX_SYNC_ITEMS := 100
  const MAX_SCANS := 200

  /** One call's worth: sync items, scans of one pickup, or one collection or completion. */
  predicate IsBatch(items: seq<Item>) {
    || (|items| <= MAX_SYNC_ITEMS && forall i :: 0 <= i < |items| ==> IsSyncKind(items[i].kind))
    || (|items| <= MAX_SCANS && forall i :: 0 <= i < |items| ==> items[i].kind.PickupScan? && items[i].subject == items[0].subject)
    || |items| == 1
  }

  predicate IsSyncBatch(items: seq<Item>) { forall i :: 0 <= i < |items| ==> IsSyncKind(items[i].kind) }

  /** Every earlier waiting action of the same subject is in the batch, further ahead. */
  ghost predicate NothingOvertaken(db: Db, items: seq<Item>) {
    forall i, k :: 0 <= i < |items| && k in db.rows && items[i].key in db.rows && db.rows[k].state.Pending?
                   && db.rows[k].subject == db.rows[items[i].key].subject && db.rows[k].order < db.rows[items[i].key].order
      ==> exists j :: 0 <= j < i && items[j].key == k
  }

  ghost predicate MaySend(w: World, items: seq<Item>) {
    && IsBatch(items) && Distinct(KeysOf(items)) && NothingOvertaken(w.db, items)
    && forall i :: 0 <= i < |items| ==> MayItem(w, items[i])
  }

  ghost predicate MayItem(w: World, item: Item) {
    && Awaits(w, item.key) && IsItemOf(w, item.key, item)
    && (IsSyncKind(item.kind) && item.key in w.db.rows ==> Slottable(w.db, w.db.rows[item.key]))
  }

  /** `routeVersions`: what the device reports to a sync. */
  function KnownVersions(routes: map<Uuid, Route>): map<Uuid, Version> {
    map r | r in routes && routes[r].active :: routes[r].version
  }

  /** The server lists every route it holds for the driver, and sends the manifest of each one whose version the device did not report. */
  predicate IsRouteAnswer(known: map<Uuid, Version>, published: map<Version, M.Manifest>, answer: RouteAnswer) {
    && (forall i, j :: 0 <= i < j < |answer.active| ==> answer.active[i].routeId != answer.active[j].routeId)
    && (forall i, j :: 0 <= i < j < |answer.updates| ==> answer.updates[i].routeId != answer.updates[j].routeId)
    && (forall u :: u in answer.updates ==>
          (u.version in published ==> published[u.version] == u.manifest) && Lists(answer.active, u.routeId, u.version))
    && (forall u, v :: u in answer.updates && v in answer.updates && u.version == v.version ==> u.manifest == v.manifest)
    && (forall a :: a in answer.active ==>
          (a.routeId in known && known[a.routeId] == a.version) || Updates(answer.updates, a.routeId))
  }

  predicate Lists(active: seq<RouteRef>, routeId: Uuid, version: Version) {
    exists a :: a in active && a.routeId == routeId && a.version == version
  }

  predicate Updates(updates: seq<RouteUpdate>, routeId: Uuid) {
    exists u :: u in updates && u.routeId == routeId
  }

  function Publish(published: map<Version, M.Manifest>, updates: seq<RouteUpdate>): map<Version, M.Manifest> {
    if updates == [] then published
    else Publish(published, updates[..|updates| - 1])[updates[|updates| - 1].version := updates[|updates| - 1].manifest]
  }

  /** The versions read before the call are the cache's, unless a sign-out emptied it in between. */
  predicate StillKnown(w: World, known: map<Uuid, Version>) {
    known == KnownVersions(w.db.routes) || (KnownVersions(w.db.routes) == map[] && w.history.wiped)
  }

  /** The answer rules on each key of the batch at most once, and on no other. */
  predicate IsAbout(reply: Reply, keys: seq<Uuid>) {
    && reply.batch == keys
    && (forall k :: k in reply.acks ==> k in keys && k !in reply.discards && k !in reply.escalates)
    && (forall k :: k in reply.discards ==> k in keys && k !in reply.escalates)
    && (forall k :: k in reply.escalates ==> k in keys)
  }

  /**
   * The server's side of one call. It applies any of the items it has not applied before, never one key twice,
   * and the answer may not arrive. An answer that does arrive acknowledges only what has been applied.
   */
  predicate ServerMay(w: World, items: seq<Item>, taken: set<Uuid>, reply: Option<Reply>) {
    && (forall k :: k in taken ==> k in KeysOf(items) && k !in AppliedKeys(w.server))
    && (reply.Some? ==>
          && !reply.value.saved && IsAbout(reply.value, KeysOf(items))
          && (forall k :: k in reply.value.acks ==> k in AppliedKeys(w.server) || k in taken)
          && (reply.value.routes.Some? <==> IsSyncBatch(items))
          && (reply.value.routes.Some? ==>
                && IsRouteAnswer(reply.value.known, w.server.published, reply.value.routes.value)
                && StillKnown(w, reply.value.known)))
  }

  /** The answer in hand allows outcomes: if it brought routes, they are saved. */
  predicate MaySettle(w: World) { w.reply.Some? && (w.reply.value.routes.Some? ==> w.reply.value.saved) }

  /** What the answer acknowledges ahead of `id` has been settled. */
  predicate TakenInTurn(w: World, id: Uuid)
    requires w.reply.Some?
  {
    var r := w.reply.value;
    forall i, j :: 0 <= i < j < |r.batch| && r.batch[j] == id && r.batch[i] in r.acks ==> !Awaits(w, r.batch[i])
  }

  /**
   * A write to an action is an outcome the answer in hand asks for: nothing is refused that happened in the street.
   * A write to a row that a sign-out deleted changes no table.
   */
  predicate MayWrite(w: World, id: Uuid, p: ActionPatch) {
    && Awaits(w, id) && id in w.history.sends
    && match p.state {
         case None => true
         case Some(Pending) => false
         case Some(Done) => MaySettle(w) && id in w.reply.value.acks && TakenInTurn(w, id)
         case Some(Refused) => MaySettle(w) && id in w.reply.value.discards && !IsPhysical(RowOf(w, id).kind)
         case Some(Escalated) =>
           MaySettle(w) && (id in w.reply.value.escalates || (id in w.reply.value.discards && IsPhysical(RowOf(w, id).kind)))
       }
  }

  /** A write to a file follows from what the server did. One to a row that is gone changes no table. */
  predicate MayWriteMedia(w: World, m: Uuid, p: MediaPatch) {
    && m in w.history.captured
    && match p.state {
         case Captured => false
         case Slotted =>
           && (m in w.db.media ==> w.db.media[m].state.Captured?) && m in w.server.slots
           && p.artifact == Some(w.server.slots[m].artifact) && p.objectKey == Some(w.server.slots[m].objectKey)
         case Uploaded =>
           && (m in w.db.media ==> w.db.media[m].state.Slotted?) && p.artifact.None? && p.objectKey.None?
           && m in w.server.slots && w.server.slots[m].artifact in w.server.completed
         case Lost => (m in w.db.media ==> IsOpen(w.db.media[m])) && p.artifact.None? && p.objectKey.None?
       }
  }

  predicate MayScreen(w: World, s: Step)
    requires IsScreenStep(s)
  {
    match s
    case Enqueue(id, kind, subject, payload, photos, purposes, now) =>
      && id !in w.history.minted && Distinct(photos) && |photos| == |purposes|
      && forall m :: m in photos ==> m !in w.history.captured
    case Dismiss(id) => true
    case DropRoutes(today) => true
    case Count => true
    case Wipe => w.history.counted.Some?
  }

  ghost predicate Enabled(w: World, s: Step) {
    match s
    case Enqueue(_, _, _, _, _, _, _) => MayScreen(w, s)
    case Dismiss(_) => true
    case DropRoutes(_) => true
    case Count => true
    case Wipe => MayScreen(w, s)
    case Prune(_) => true
    case Crash => true
    case Presign(m, slot) =>
      && m in w.history.captured
      && (m in w.server.slots ==> slot == w.server.slots[m])
      && (m !in w.server.slots ==> forall n :: n in w.server.slots ==> w.server.slots[n].artifact != slot.artifact)
    case Complete(artifact) => exists m :: m in w.server.slots && w.server.slots[m].artifact == artifact
    case Send(items, taken, reply) => MaySend(w, items) && ServerMay(w, items, taken, reply)
    case WriteAction(id, p) => MayWrite(w, id, p)
    case WriteMedia(m, p) => MayWriteMedia(w, m, p)
    case SaveRoutes => w.reply.Some? && w.reply.value.routes.Some? && !w.reply.value.saved
    case DiscardFile(m) => m in w.history.uploaded
  }

  function Members(ids: seq<Uuid>): set<Uuid> { set m | m in ids }

  function NewMedia(s: Step): map<Uuid, Media>
    requires s.Enqueue? && |s.photos| == |s.purposes|
  {
    FirstMedia(s, |s.photos|)
  }

  function FirstMedia(s: Step, n: nat): (r: map<Uuid, Media>)
    requires s.Enqueue? && n <= |s.photos| == |s.purposes|
    ensures forall m :: m in r <==> m in s.photos[..n]
    ensures forall m :: m in r ==> r[m].createdAt == s.now && r[m].state.Captured? && r[m].artifact.None? && r[m].objectKey.None?
  {
    if n == 0 then map[]
    else FirstMedia(s, n - 1)[s.photos[n - 1] := Media(s.purposes[n - 1], None, None, Captured, None, s.now)]
  }

  function Recorded(h: History, id: Uuid, p: ActionPatch): History {
    h.(writes := h.writes + [Write(id, p)],
       accepted := if p.state == Some(Done) then h.accepted + [id] else h.accepted,
       refused := if p.state == Some(Refused) then h.refused + [id] else h.refused,
       escalated := if p.state == Some(Escalated) then h.escalated + [id] else h.escalated)
  }

  /** An update by id: no row, no change. */
  function Updated(rows: map<Uuid, Action>, id: Uuid, p: ActionPatch): map<Uuid, Action> {
    if id in rows then rows[id := PatchAction(rows[id], p)] else rows
  }

  function UpdatedMedia(media: map<Uuid, Media>, m: Uuid, p: MediaPatch): map<Uuid, Media> {
    if m in media then media[m := PatchMedia(media[m], p)] else media
  }

  function Dismissed(rows: map<Uuid, Action>, id: Uuid): map<Uuid, Action> {
    if id in rows && (rows[id].state.Refused? || rows[id].state.Escalated?) then rows[id := rows[id].(state := Done)] else rows
  }

  function Pruned(db: Db, olderThan: int): Db {
    db.(rows := map k | k in db.rows && !(db.rows[k].state.Done? && db.rows[k].createdAt < olderThan) :: db.rows[k],
        media := map m | m in db.media && !(!IsOpen(db.media[m]) && db.media[m].createdAt < olderThan) :: db.media[m])
  }

  function Dropped(routes: map<Uuid, Route>, today: int): map<Uuid, Route> {
    map r | r in routes && !(routes[r].plannedDate < today && !routes[r].active) :: routes[r]
  }

  ghost function Apply(w: World, s: Step): World
    requires Enabled(w, s)
  {
    match s
    case Enqueue(id, kind, subject, payload, photos, purposes, now) =>
      var row := Action(w.db.nextOrder, kind, subject, payload, photos, Pending, 0, None, None, now);
      w.(db := w.db.(rows := w.db.rows[id := row], nextOrder := w.db.nextOrder + 1, media := w.db.media + NewMedia(s)),
         history := w.history.(minted := w.history.minted[id := Intent(w.db.nextOrder, kind, subject, payload)],
                               captured := w.history.captured + Members(photos)))
    case Dismiss(id) =>
      w.(db := w.db.(rows := Dismissed(w.db.rows, id)),
         history := if id in w.db.rows && w.db.rows[id].state.Escalated?
                    then w.history.(dismissed := w.history.dismissed + {id}) else w.history)
    case DropRoutes(today) => w.(db := w.db.(routes := Dropped(w.db.routes, today)))
    case Count =>
      w.(history := w.history.(counted := if UnsafeToForget(w.db) == 0 then Some(Mark(w.db.nextOrder, w.history.captured))
                                          else w.history.counted))
    case Wipe =>
      w.(db := w.db.(rows := map[], media := map[], routes := map[]),
         history := w.history.(lost := w.history.lost + UnsettledRows(w.db), wiped := true))
    case Prune(olderThan) => w.(db := Pruned(w.db, olderThan), history := w.history.(prunes := w.history.prunes + [olderThan]))
    case Crash => w.(reply := None, history := w.history.(counted := None))
    case Presign(m, slot) => w.(server := w.server.(slots := w.server.slots[m := slot]))
    case Complete(artifact) => w.(server := w.server.(completed := w.server.completed + {artifact}))
    case Send(items, taken, reply) =>
      w.(server := w.server.(applied := w.server.applied + Taken(items, taken),
                             published := if reply.Some? && reply.value.routes.Some?
                                          then Publish(w.server.published, reply.value.routes.value.updates)
                                          else w.server.published),
         history := w.history.(sends := w.history.sends + KeysOf(items)),
         reply := reply)
    case WriteAction(id, p) =>
      w.(db := w.db.(rows := Updated(w.db.rows, id, p)), history := Recorded(w.history, id, p))
    case WriteMedia(m, p) =>
      w.(db := w.db.(media := UpdatedMedia(w.db.media, m, p)),
         history := if p.state.Uploaded? then w.history.(uploaded := w.history.uploaded + {m}) else w.history)
    case SaveRoutes =>
      w.(db := w.db.(routes := SavedRoutes(w.db.routes, w.reply.value.routes.value)),
         reply := Some(w.reply.value.(saved := true)))
    case DiscardFile(m) => w.(history := w.history.(discarded := w.history.discarded + {m}))
  }

  // ── Runs ───────────────────────────────────────────────────────────────────

  const NOTHING_YET := History(map[], {}, [], [], [], [], [], {}, {}, {}, [], None, map[], false)

  ghost predicate Initial(w: World) {
    && w.db == Db(map[], 0, map[], map[]) && w.reply.None?
    && w.server.applied == [] && w.server.slots == map[]
    && w.history == NOTHING_YET
  }

  /** Every step of the run was enabled when it was taken. */
  ghost predicate Legal(w: World, run: seq<Step>)
    decreases |run|, 0
  {
    run == [] || LastIsLegal(w, run)
  }

  ghost predicate LastIsLegal(w: World, run: seq<Step>)
    requires run != []
    decreases |run| - 1, 2
  {
    Legal(w, run[..|run| - 1]) && Enabled(After(w, run[..|run| - 1]), run[|run| - 1])
  }

  ghost function After(w: World, run: seq<Step>): World
    requires Legal(w, run)
    decreases |run|, 1
  {
    if run == [] then w else AfterLast(w, run)
  }

  ghost function AfterLast(w: World, run: seq<Step>): World
    requires run != [] && LastIsLegal(w, run)
    decreases |run| - 1, 3
  {
    Apply(After(w, run[..|run| - 1]), run[|run| - 1])
  }

  lemma LastStep(w: World, run: seq<Step>)
    requires Legal(w, run) && run != []
    ensures Legal(w, run[..|run| - 1]) && Enabled(After(w, run[..|run| - 1]), run[|run| - 1])
    ensures After(w, run) == Apply(After(w, run[..|run| - 1]), run[|run| - 1])
  {
    assert LastIsLegal(w, run);
    assert After(w, run) == AfterLast(w, run);
  }

  lemma OneMore(w: World, run: seq<Step>, s: Step)
    requires Legal(w, run) && Enabled(After(w, run), s)
    ensures Legal(w, run + [s]) && After(w, run + [s]) == Apply(After(w, run), s)
  {
    assert (run + [s])[..|run|] == run;
    assert LastIsLegal(w, run + [s]);
    assert After(w, run + [s]) == AfterLast(w, run + [s]);
  }

  lemma NextStep(start: World, run: seq<Step>, n: nat)
    requires n < |run| && Legal(start, run[..n]) && Enabled(After(start, run[..n]), run[n])
    ensures Legal(start, run[..n + 1]) && After(start, run[..n + 1]) == Apply(After(start, run[..n]), run[n])
  {
    assert run[..n + 1] == run[..n] + [run[n]];
    OneMore(start, run[..n], run[n]);
  }

  lemma NextTwo(start: World, run: seq<Step>, n: nat)
    requires n + 1 < |run| && Legal(start, run[..n]) && Enabled(After(start, run[..n]), run[n])
    requires Enabled(Apply(After(start, run[..n]), run[n]), run[n + 1])
    ensures Legal(start, run[..n + 2])
    ensures After(start, run[..n + 2]) == Apply(Apply(After(start, run[..n]), run[n]), run[n + 1])
  {
    NextStep(start, run, n);
    NextStep(start, run, n + 1);
  }

  lemma WholeRun(run: seq<Step>)
    ensures run[..|run|] == run
  {
  }

  /** A world some run leads to. */
  ghost predicate Reachable(w: World) {
    exists start, run :: Initial(start) && Legal(start, run) && After(start, run) == w
  }
}
