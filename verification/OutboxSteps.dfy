/** What each step does to one row of each table, field by field, and to the record of outcomes. */
module OutboxSteps {
  import opened Common
  import opened OutboxModel
  import M = Manifests

  // ── Actions ────────────────────────────────────────────────────────────────

  /** The row `a` with the fields a write gives; what it does not give stays. */
  ghost predicate IsPatched(a: Action, p: ActionPatch, b: Action) {
    && b.order == a.order && b.kind == a.kind && b.subject == a.subject && b.payload == a.payload
    && b.media == a.media && b.createdAt == a.createdAt
    && b.state == (match p.state case Some(state) => state case None => a.state)
    && b.attempts == (match p.attempts case Some(n) => n case None => a.attempts)
    && b.code == (match p.code case Some(code) => code case None => a.code)
    && b.detail == (match p.detail case Some(detail) => detail case None => a.detail)
  }

  /** A done action of before goes with housekeeping, and everything with a sign-out. */
  ghost predicate TakesAction(s: Step, a: Action) {
    s.Wipe? || (s.Prune? && a.state == Done && a.createdAt < s.olderThan)
  }

  /** One action after one step. */
  lemma ActionAfter(w: World, s: Step, k: Uuid)
    requires Enabled(w, s)
    ensures var after := Apply(w, s).db.rows;
            && (k in after <==> (k in w.db.rows && !TakesAction(s, w.db.rows[k])) || (s.Enqueue? && s.id == k))
            && (k in after ==>
                  if s.Enqueue? && s.id == k then
                    after[k] == Action(w.db.nextOrder, s.kind, s.subject, s.payload, s.photos, Pending, 0, None, None, s.now)
                  else if s.WriteAction? && s.id == k then IsPatched(w.db.rows[k], s.action, after[k])
                  else if s.Dismiss? && s.id == k && w.db.rows[k].state in {Refused, Escalated} then
                    after[k] == w.db.rows[k].(state := Done)
                  else after[k] == w.db.rows[k])
  {
  }

  // ── Files ──────────────────────────────────────────────────────────────────

  ghost predicate IsPatchedFile(a: Media, p: MediaPatch, b: Media) {
    && b.purpose == a.purpose && b.createdAt == a.createdAt && b.state == p.state
    && b.artifact == (match p.artifact case Some(artifact) => Some(artifact) case None => a.artifact)
    && b.objectKey == (match p.objectKey case Some(key) => Some(key) case None => a.objectKey)
    && b.code == (match p.code case Some(code) => code case None => a.code)
  }

  ghost predicate TakesFile(s: Step, a: Media) {
    s.Wipe? || (s.Prune? && a.state in {Uploaded, Lost} && a.createdAt < s.olderThan)
  }

  lemma {:induction false} FirstFile(s: Step, n: nat, i: nat)
    requires s.Enqueue? && n <= |s.photos| == |s.purposes| && Distinct(s.photos) && i < n
    ensures s.photos[i] in FirstMedia(s, n)
    ensures FirstMedia(s, n)[s.photos[i]] == Media(s.purposes[i], None, None, Captured, None, s.now)
  {
    assert s.photos[..n][i] == s.photos[i];
    if i < n - 1 { FirstFile(s, n - 1, i); }
  }

  /** One file after one step. */
  lemma FileAfter(w: World, s: Step, m: Uuid)
    requires Enabled(w, s)
    ensures var after := Apply(w, s).db.media;
            && (m in after <==> (m in w.db.media && !TakesFile(s, w.db.media[m])) || (s.Enqueue? && m in s.photos))
            && (m in after && !(s.Enqueue? && m in s.photos) ==>
                  if s.WriteMedia? && s.m == m then IsPatchedFile(w.db.media[m], s.media, after[m]) else after[m] == w.db.media[m])
  {
    if s.Enqueue? { assert s.photos[..|s.photos|] == s.photos; }
  }

  /** A file of a new action: captured, and nothing else yet. */
  lemma NewFileAfter(w: World, s: Step, i: nat)
    requires Enabled(w, s) && s.Enqueue? && i < |s.photos|
    ensures var after := Apply(w, s).db.media;
            s.photos[i] in after && after[s.photos[i]] == Media(s.purposes[i], None, None, Captured, None, s.now)
  {
    FirstFile(s, |s.photos|, i);
  }

  // ── Routes ─────────────────────────────────────────────────────────────────

  ghost predicate IsLastUpdate(updates: seq<RouteUpdate>, r: Uuid, i: nat) {
    i < |updates| && updates[i].routeId == r && forall j :: i < j < |updates| ==> updates[j].routeId != r
  }

  ghost predicate IsLastListing(active: seq<RouteRef>, r: Uuid, i: nat) {
    i < |active| && active[i].routeId == r && forall j :: i < j < |active| ==> active[j].routeId != r
  }

  ghost predicate IsListed(active: seq<RouteRef>, r: Uuid) { exists a :: a in active && a.routeId == r }

  /** The row that updates leave: the last one of the route, or what was there, no longer active. */
  ghost predicate IsUpdatedRow(before: map<Uuid, Route>, updates: seq<RouteUpdate>, r: Uuid, row: Route) {
    && (forall i: nat :: IsLastUpdate(updates, r, i) ==>
          row == Route(updates[i].version, updates[i].manifest.status, true, updates[i].manifest.plannedDate, updates[i].manifest))
    && (!Updates(updates, r) ==> r in before && row == before[r].(active := false))
  }

  /** A listing makes the row active, with the status of the last one; the rest of it stays. */
  ghost predicate IsListedRow(updated: Route, active: seq<RouteRef>, r: Uuid, row: Route) {
    && row.version == updated.version && row.plannedDate == updated.plannedDate && row.manifest == updated.manifest
    && (row.active <==> updated.active || IsListed(active, r))
    && (forall i: nat :: IsLastListing(active, r, i) ==> row.status == active[i].status)
    && (!IsListed(active, r) ==> row.status == updated.status)
  }

  ghost predicate IsSavedRow(before: map<Uuid, Route>, active: seq<RouteRef>, updates: seq<RouteUpdate>, r: Uuid, row: Route) {
    exists updated :: IsUpdatedRow(before, updates, r, updated) && IsListedRow(updated, active, r, row)
  }

  /** The table after a save: no row goes, and each is what the answer says or what it was. */
  ghost predicate IsSaved(before: map<Uuid, Route>, active: seq<RouteRef>, updates: seq<RouteUpdate>, after: map<Uuid, Route>) {
    && (forall r :: r in after <==> r in before || Updates(updates, r))
    && forall r :: r in after ==> IsSavedRow(before, active, updates, r, after[r])
  }

  lemma {:induction false} UpdatesLeave(before: map<Uuid, Route>, updates: seq<RouteUpdate>, r: Uuid)
    ensures var after := WithUpdates(Deactivated(before), updates);
            && (r in after <==> r in before || Updates(updates, r))
            && (r in after ==> IsUpdatedRow(before, updates, r, after[r]))
  {
    if updates != [] {
      var sofar, u := updates[..|updates| - 1], updates[|updates| - 1];
      UpdatesLeave(before, sofar, r);
      UpdatedBy(sofar, u, r);
      assert updates == sofar + [u];
    }
  }

  lemma UpdatedBy(updates: seq<RouteUpdate>, u: RouteUpdate, r: Uuid)
    ensures Updates(updates + [u], r) <==> Updates(updates, r) || u.routeId == r
    ensures forall i: nat :: IsLastUpdate(updates + [u], r, i) ==>
              if u.routeId == r then i == |updates| else IsLastUpdate(updates, r, i)
  {
    var all := updates + [u];
    assert all[|updates|] == u && forall x :: x in all <==> x in updates || x == u;
    forall i: nat | IsLastUpdate(all, r, i) && u.routeId != r ensures IsLastUpdate(updates, r, i) {
      forall j | i < j < |updates| ensures updates[j].routeId != r { assert all[j] == updates[j]; }
    }
  }

  lemma {:induction false} ListingsLeave(routes: map<Uuid, Route>, active: seq<RouteRef>, r: Uuid)
    ensures var after := WithActive(routes, active);
            (r in after <==> r in routes) && (r in after ==> IsListedRow(routes[r], active, r, after[r]))
  {
    if active != [] {
      var sofar, a := active[..|active| - 1], active[|active| - 1];
      ListingsLeave(routes, sofar, r);
      ListedBy(sofar, a, r);
      assert active == sofar + [a];
    }
  }

  lemma ListedBy(active: seq<RouteRef>, a: RouteRef, r: Uuid)
    ensures IsListed(active + [a], r) <==> IsListed(active, r) || a.routeId == r
    ensures forall i: nat :: IsLastListing(active + [a], r, i) ==>
              if a.routeId == r then i == |active| else IsLastListing(active, r, i)
  {
    var all := active + [a];
    assert all[|active|] == a && forall x :: x in all <==> x in active || x == a;
    forall i: nat | IsLastListing(all, r, i) && a.routeId != r ensures IsLastListing(active, r, i) {
      forall j | i < j < |active| ensures active[j].routeId != r { assert all[j] == active[j]; }
    }
  }

  /** A save keeps every row: an update's has its version, manifest and date, any other its own, and only what is listed or updated is active. */
  lemma SavedMeaning(before: map<Uuid, Route>, answer: RouteAnswer)
    ensures IsSaved(before, answer.active, answer.updates, SavedRoutes(before, answer))
  {
    var updated := WithUpdates(Deactivated(before), answer.updates);
    forall r
      ensures r in SavedRoutes(before, answer) <==> r in before || Updates(answer.updates, r)
      ensures r in SavedRoutes(before, answer) ==> IsSavedRow(before, answer.active, answer.updates, r, SavedRoutes(before, answer)[r])
    {
      UpdatesLeave(before, answer.updates, r);
      ListingsLeave(updated, answer.active, r);
    }
  }

  /** One route after one step. */
  lemma RouteAfter(w: World, s: Step, r: Uuid)
    requires Enabled(w, s)
    ensures var after := Apply(w, s).db.routes;
            if s.SaveRoutes? then IsSaved(w.db.routes, w.reply.value.routes.value.active, w.reply.value.routes.value.updates, after)
            else
              && (r in after <==> r in w.db.routes && !s.Wipe?
                                  && !(s.DropRoutes? && w.db.routes[r].plannedDate < s.today && !w.db.routes[r].active))
              && (r in after ==> after[r] == w.db.routes[r])
  {
    if s.SaveRoutes? { SavedMeaning(w.db.routes, w.reply.value.routes.value); }
  }

  // ── The record of outcomes ─────────────────────────────────────────────────

  /** Each write is recorded with its outcome, and a dismissal of an escalated action is too. */
  lemma OutcomesAfter(w: World, s: Step, k: Uuid)
    requires Enabled(w, s)
    ensures var a, b := w.history, Apply(w, s).history;
            && b.writes == a.writes + (if s.WriteAction? then [Write(s.id, s.action)] else [])
            && b.accepted == a.accepted + (if s.WriteAction? && s.action.state == Some(Done) then [s.id] else [])
            && b.refused == a.refused + (if s.WriteAction? && s.action.state == Some(Refused) then [s.id] else [])
            && b.escalated == a.escalated + (if s.WriteAction? && s.action.state == Some(Escalated) then [s.id] else [])
            && (k in b.dismissed <==> k in a.dismissed || (s == Dismiss(k) && k in w.db.rows && w.db.rows[k].state == Escalated))
  {
  }

  /** So are the ids of new files, what became of them, and each housekeeping. */
  lemma FilesRecorded(w: World, s: Step, m: Uuid)
    requires Enabled(w, s)
    ensures var a, b := w.history, Apply(w, s).history;
            && (m in b.captured <==> m in a.captured || (s.Enqueue? && m in s.photos))
            && (m in b.uploaded <==> m in a.uploaded || (s.WriteMedia? && s.m == m && s.media.state == Uploaded))
            && (m in b.discarded <==> m in a.discarded || s == DiscardFile(m))
            && b.prunes == a.prunes + (if s.Prune? then [s.olderThan] else [])
            && (b.wiped <==> a.wiped || s.Wipe?)
  {
  }

  /** Nothing waits, nothing is escalated, and no file is on its way. */
  ghost predicate IsSafe(db: Db) {
    && (forall k :: k in db.rows ==> db.rows[k].state !in {Pending, Escalated})
    && forall m :: m in db.media ==> db.media[m].state !in {Captured, Slotted}
  }

  /** A count that finds nothing unsafe marks the moment; a sign-out loses what waits or is escalated by then. */
  lemma SignOutAfter(w: World, s: Step, k: Uuid)
    requires Enabled(w, s)
    ensures var a, b := w.history, Apply(w, s).history;
            && b.counted == (if s.Count? && IsSafe(w.db) then Some(Mark(w.db.nextOrder, a.captured)) else if s.Crash? then None else a.counted)
            && (k in b.lost <==> k in a.lost || (s.Wipe? && k in w.db.rows && w.db.rows[k].state in {Pending, Escalated}))
            && (k in b.lost ==> b.lost[k] == if s.Wipe? && k in w.db.rows && w.db.rows[k].state in {Pending, Escalated}
                                              then w.db.rows[k] else a.lost[k])
  {
    if s.Count? { CountsUnsafe(w.db); }
  }

  /** The count is of waiting and escalated actions and of files on their way. */
  lemma CountsUnsafe(db: Db)
    ensures UnsafeToForget(db) == |set k | k in db.rows && db.rows[k].state in {Pending, Escalated}|
                                  + |set m | m in db.media && db.media[m].state in {Captured, Slotted}|
    ensures UnsafeToForget(db) == 0 <==> IsSafe(db)
  {
    var rows := set k | k in db.rows && db.rows[k].state in {Pending, Escalated};
    var files := set m | m in db.media && db.media[m].state in {Captured, Slotted};
    assert rows == set k | k in db.rows && Unsettled(db.rows[k]);
    assert files == set m | m in db.media && IsOpen(db.media[m]);
    EmptyOrNot(rows);
    EmptyOrNot(files);
    assert forall k :: k in db.rows && db.rows[k].state in {Pending, Escalated} ==> k in rows;
    assert forall m :: m in db.media && db.media[m].state in {Captured, Slotted} ==> m in files;
  }

  // ── The server ─────────────────────────────────────────────────────────────

  /** `taken` are the items at these positions, each applied in the order it was sent. */
  ghost predicate AreAt(items: seq<Item>, taken: set<Uuid>, at: seq<nat>, applied: seq<Item>) {
    && Increasing(at) && |applied| == |at|
    && (forall i :: 0 <= i < |at| ==> at[i] < |items| && applied[i] == items[at[i]] && applied[i].key in taken)
    && forall k: nat :: k < |items| && items[k].key in taken ==> k in at
  }

  lemma {:induction false} TakenInOrder(items: seq<Item>, taken: set<Uuid>) returns (at: seq<nat>)
    ensures AreAt(items, taken, at, Taken(items, taken))
  {
    if items == [] {
      at := [];
    } else {
      var n := |items| - 1;
      at := TakenInOrder(items[..n], taken);
      TakenStep(items, taken);
      if items[n].key in taken {
        TakenLast(items, taken, at, Taken(items[..n], taken));
        at := at + [n];
      } else {
        NotTakenLast(items, taken, at, Taken(items[..n], taken));
      }
    }
  }

  lemma TakenStep(items: seq<Item>, taken: set<Uuid>)
    requires items != []
    ensures var before, last := Taken(items[..|items| - 1], taken), items[|items| - 1];
            Taken(items, taken) == if last.key in taken then before + [last] else before
  {
    assert Taken(items[..|items| - 1], taken) + [] == Taken(items[..|items| - 1], taken);
  }

  lemma NotTakenLast(items: seq<Item>, taken: set<Uuid>, at: seq<nat>, applied: seq<Item>)
    requires items != [] && AreAt(items[..|items| - 1], taken, at, applied) && items[|items| - 1].key !in taken
    ensures AreAt(items, taken, at, applied)
  {
    assert forall k: nat :: k < |items| - 1 ==> items[..|items| - 1][k] == items[k];
  }

  lemma TakenLast(items: seq<Item>, taken: set<Uuid>, at: seq<nat>, applied: seq<Item>)
    requires items != [] && AreAt(items[..|items| - 1], taken, at, applied) && items[|items| - 1].key in taken
    ensures AreAt(items, taken, at + [|items| - 1], applied + [items[|items| - 1]])
  {
    var n := |items| - 1;
    forall k: nat | k < |items| && items[k].key in taken ensures k in at + [n] {
      if k < n { assert items[..n][k] == items[k]; }
    }
  }

  /** A call puts every key of its items on the wire and applies the taken ones in order; nothing else touches the server. */
  lemma ServerAfter(w: World, s: Step) returns (at: seq<nat>)
    requires Enabled(w, s)
    ensures var a, b := w.server, Apply(w, s).server;
            && a.applied <= b.applied && w.history.sends <= Apply(w, s).history.sends
            && (s.Send? ==> AreAt(s.items, s.taken, at, b.applied[|a.applied|..]))
            && (s.Send? ==> |Apply(w, s).history.sends| == |w.history.sends| + |s.items|
                            && forall i :: 0 <= i < |s.items| ==> Apply(w, s).history.sends[|w.history.sends| + i] == s.items[i].key)
            && (!s.Send? ==> b.applied == a.applied && Apply(w, s).history.sends == w.history.sends && b.published == a.published)
            && b.slots == (if s.Presign? then a.slots[s.m := s.slot] else a.slots)
            && b.completed == (if s.Complete? then a.completed + {s.artifact} else a.completed)
  {
    at := [];
    if s.Send? {
      at := TakenInOrder(s.items, s.taken);
      assert Apply(w, s).server.applied[|w.server.applied|..] == Taken(s.items, s.taken);
    }
  }
}
