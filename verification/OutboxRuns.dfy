/** What holds in every reachable world of the outbox, and over every run. */
module OutboxRuns {
  import opened Common
  import opened OutboxModel
  import opened OutboxSteps
  import M = Manifests

  // ── Invariants ─────────────────────────────────────────────────────────────

  function IntentOf(a: Action): Intent { Intent(a.order, a.kind, a.subject, a.payload) }

  /** Every row is what the driver recorded under its key; the order numbers are never reused. */
  ghost predicate RowsAreIntents(w: World) {
    && (forall k :: k in w.db.rows ==>
          k in w.history.minted && w.history.minted[k] == IntentOf(w.db.rows[k]))
    && (forall k :: k in w.history.minted ==> w.history.minted[k].order < w.db.nextOrder)
    && (forall k, l :: k in w.history.minted && l in w.history.minted && k != l
          ==> w.history.minted[k].order != w.history.minted[l].order)
  }

  /** What sign-outs lost: rows that were not settled, recorded before everything in the table. */
  ghost predicate LostIsSound(w: World) {
    && (forall k :: k in w.history.lost ==>
          && k !in w.db.rows && k in w.history.minted && w.history.minted[k] == IntentOf(w.history.lost[k])
          && Unsettled(w.history.lost[k]) && (w.history.lost[k].state.Escalated? ==> k in w.history.escalated))
    && (forall k, l :: k in w.history.lost && l in w.db.rows ==> w.history.lost[k].order < w.db.rows[l].order)
  }

  /** Since a sign-out counted nothing unsafe, whatever is unsafe was recorded later. */
  ghost predicate CountHolds(w: World) {
    w.history.counted.Some? ==>
      var mark := w.history.counted.value;
      && mark.order <= w.db.nextOrder && mark.captured <= w.history.captured
      && (forall k :: k in w.db.rows && Unsettled(w.db.rows[k]) ==> w.db.rows[k].order >= mark.order)
      && (forall m :: m in w.db.media && IsOpen(w.db.media[m]) ==> m !in mark.captured)
      && (w.db.nextOrder == mark.order ==> w.history.captured == mark.captured)
  }

  /** `a` stands ahead of position `i` of the batch. */
  ghost predicate Ahead(batch: seq<Uuid>, a: Uuid, i: nat) { exists j :: 0 <= j < i && j < |batch| && batch[j] == a }

  /** The waiting action `a` was recorded before `b`, about the same subject. */
  ghost predicate WaitsBefore(w: World, a: Uuid, b: Uuid) {
    && a in w.db.rows && w.db.rows[a].state.Pending? && a in w.history.minted && b in w.history.minted
    && w.history.minted[a].subject == w.history.minted[b].subject && w.history.minted[a].order < w.history.minted[b].order
  }

  /** In the batch being answered, whatever waits before an action stands ahead of it. */
  ghost predicate BatchIsInOrder(w: World) {
    w.reply.Some? ==>
      var r := w.reply.value;
      && IsAbout(r, r.batch) && Distinct(r.batch)
      && (forall k :: k in r.batch ==> k in w.history.minted && k in w.history.sends)
      && (forall i, a :: 0 <= i < |r.batch| && WaitsBefore(w, a, r.batch[i]) ==> Ahead(r.batch, a, i))
  }

  /** An effect is the recorded action, under its own key. */
  ghost predicate IsIntent(item: Item, intent: Intent) {
    && item.kind == intent.kind && item.subject == intent.subject && item.body == intent.payload.body
    && (item.pod.Some? <==> intent.payload.pod.Some?)
    && (item.pod.Some? ==> item.pod.value.text == intent.payload.pod.value)
  }

  ghost predicate KeysDiffer(items: seq<Item>) {
    forall i, j :: 0 <= i < j < |items| ==> items[i].key != items[j].key
  }

  ghost predicate AreIntents(minted: map<Uuid, Intent>, items: seq<Item>) {
    forall i :: 0 <= i < |items| ==> items[i].key in minted && IsIntent(items[i], minted[items[i].key])
  }

  ghost predicate EffectsAreIntents(w: World) {
    KeysDiffer(w.server.applied) && AreIntents(w.history.minted, w.server.applied)
  }

  ghost predicate AcceptedIsApplied(w: World) {
    && (forall k :: k in w.history.accepted ==> k in AppliedKeys(w.server))
    && (w.reply.Some? ==> forall k :: k in w.reply.value.acks ==> k in AppliedKeys(w.server))
  }

  /** A row's state tells how its action ended, and so does a row's absence. */
  ghost predicate StatesAreEarned(w: World) {
    && (forall k :: k in w.history.minted ==> Earned(w, k))
    && (forall k :: k in w.history.dismissed ==>
          k in w.history.escalated && k !in w.history.lost && (k in w.db.rows ==> w.db.rows[k].state.Done?))
  }

  ghost predicate Earned(w: World, k: Uuid)
    requires k in w.history.minted
  {
    var h := w.history;
    && (k in h.refused ==> !IsPhysical(h.minted[k].kind))
    && if k !in w.db.rows then k in h.lost || k in h.accepted || k in h.refused || (k in h.escalated && k in h.dismissed)
       else match w.db.rows[k].state {
         case Pending => k !in h.accepted && k !in h.refused && k !in h.escalated
         case Done => k in h.accepted || k in h.refused || (k in h.escalated && k in h.dismissed)
         case Refused => k in h.refused
         case Escalated => k in h.escalated
       }
  }

  /** The outcomes are told apart, and each action gets at most one. */
  ghost predicate OutcomesAreSingle(w: World) {
    && Distinct(w.history.accepted) && Distinct(w.history.refused) && Distinct(w.history.escalated)
    && (forall k :: k in w.history.accepted ==> k !in w.history.refused && k !in w.history.escalated)
    && (forall k :: k in w.history.refused ==> k !in w.history.escalated)
    && (forall k :: k in w.history.accepted || k in w.history.refused || k in w.history.escalated
          ==> k in w.history.minted && !(k in w.db.rows && w.db.rows[k].state.Pending?))
  }

  /** `k` was recorded, and every earlier action of its subject is in `before` or was lost in a sign-out. */
  ghost predicate Preceded(h: History, k: Uuid, before: seq<Uuid>) {
    k in h.minted
    && forall b :: b in h.minted && h.minted[b].subject == h.minted[k].subject && h.minted[b].order < h.minted[k].order
         ==> b in before || b in h.lost
  }

  /** Before each sending of an action, every earlier action of its subject has been sent or was lost. */
  ghost predicate SentInOrder(h: History) {
    forall p :: 0 <= p < |h.sends| ==> Preceded(h, h.sends[p], h.sends[..p])
  }

  ghost predicate LeftAfterSending(w: World) {
    forall k :: k in w.history.minted && !(k in w.db.rows && w.db.rows[k].state.Pending?)
      ==> k in w.history.sends || k in w.history.lost
  }

  ghost predicate MediaIsSound(w: World) {
    && (forall m :: m in w.db.media ==> MediumIsSound(w, m))
    && (forall m :: m in w.history.uploaded ==> m in w.server.slots && w.server.slots[m].artifact in w.server.completed)
    && w.history.discarded <= w.history.uploaded
  }

  /** Every media id there is was minted when its action was recorded. */
  ghost predicate MediaAreMinted(w: World) {
    && w.db.media.Keys <= w.history.captured && w.server.slots.Keys <= w.history.captured
    && forall k, m :: k in w.db.rows && m in w.db.rows[k].media ==> m in w.history.captured
  }

  ghost predicate MediumIsSound(w: World, m: Uuid)
    requires m in w.db.media
  {
    var row := w.db.media[m];
    && (row.artifact.Some? <==> row.objectKey.Some?)
    && (row.artifact.Some? ==> m in w.server.slots && row.artifact == Some(w.server.slots[m].artifact)
                               && row.objectKey == Some(w.server.slots[m].objectKey))
    && (row.state.Captured? ==> row.artifact.None?)
    && (row.state.Slotted? || row.state.Uploaded? ==> row.artifact.Some?)
    && (row.state.Uploaded? ==> row.artifact.value in w.server.completed)
  }

  /** A cached manifest is the one its version names. */
  ghost predicate RoutesArePublished(w: World) {
    && (forall r :: r in w.db.routes ==>
          w.db.routes[r].version in w.server.published && w.server.published[w.db.routes[r].version] == w.db.routes[r].manifest)
    && (w.reply.Some? && w.reply.value.routes.Some? ==>
          forall u :: u in w.reply.value.routes.value.updates ==>
            u.version in w.server.published && w.server.published[u.version] == u.manifest)
  }

  ghost predicate Inv(w: World) {
    && RowsAreIntents(w) && EffectsAreIntents(w) && AcceptedIsApplied(w) && StatesAreEarned(w) && OutcomesAreSingle(w)
    && SentInOrder(w.history) && LeftAfterSending(w) && MediaIsSound(w) && MediaAreMinted(w) && RoutesArePublished(w)
    && LostIsSound(w) && CountHolds(w) && BatchIsInOrder(w)
  }

  // ── Each step keeps them ───────────────────────────────────────────────────

  /** A step rewrites no row but for its outcome, and adds one only under a new key and the next number. */
  lemma RowSteps(w: World, s: Step, k: Uuid)
    requires Enabled(w, s) && k in Apply(w, s).db.rows
    ensures var row := Apply(w, s).db.rows[k];
            if k in w.db.rows && !(s.Enqueue? && s.id == k) then IntentOf(row) == IntentOf(w.db.rows[k])
            else s.Enqueue? && s.id == k && k !in w.history.minted && row.order == w.db.nextOrder
                 && IntentOf(row) == Intent(w.db.nextOrder, s.kind, s.subject, s.payload)
  {
  }

  lemma MintedSteps(w: World, s: Step)
    requires Enabled(w, s)
    ensures var v := Apply(w, s);
            if s.Enqueue? then
              && v.db.nextOrder == w.db.nextOrder + 1
              && v.history.minted == w.history.minted[s.id := Intent(w.db.nextOrder, s.kind, s.subject, s.payload)]
            else v.db.nextOrder == w.db.nextOrder && v.history.minted == w.history.minted
  {
  }

  lemma KeepsRows(w: World, s: Step)
    requires RowsAreIntents(w) && Enabled(w, s)
    ensures RowsAreIntents(Apply(w, s))
  {
    var v := Apply(w, s);
    MintedSteps(w, s);
    forall k | k in v.db.rows ensures k in v.history.minted && v.history.minted[k] == IntentOf(v.db.rows[k]) { RowSteps(w, s, k); }
  }

  /** `t` are the items of `items` that are taken. */
  ghost predicate AreTaken(t: seq<Item>, items: seq<Item>, taken: set<Uuid>) {
    && KeysDiffer(t) && (forall i :: 0 <= i < |t| ==> t[i] in items && t[i].key in taken)
    && (forall i :: 0 <= i < |items| && items[i].key in taken ==> items[i] in t)
  }

  lemma {:induction false} TakenMeaning(items: seq<Item>, taken: set<Uuid>)
    requires Distinct(KeysOf(items))
    ensures AreTaken(Taken(items, taken), items, taken)
  {
    if items != [] {
      var n := |items| - 1;
      assert forall i :: 0 <= i < n ==> KeysOf(items[..n])[i] == KeysOf(items)[i];
      TakenMeaning(items[..n], taken);
      TakenSnoc(Taken(items[..n], taken), items[..n], items[n], taken);
      assert items == items[..n] + [items[n]];
    }
  }

  lemma TakenSnoc(t: seq<Item>, before: seq<Item>, last: Item, taken: set<Uuid>)
    requires AreTaken(t, before, taken) && Distinct(KeysOf(before + [last]))
    ensures AreTaken(t + if last.key in taken then [last] else [], before + [last], taken)
  {
    forall i | 0 <= i < |t| ensures t[i].key != last.key && t[i] in before + [last] {
      var j :| 0 <= j < |before| && before[j] == t[i];
      assert KeysOf(before + [last])[j] != KeysOf(before + [last])[|before|];
    }
  }

  lemma KeepsEffects(w: World, s: Step)
    requires RowsAreIntents(w) && LostIsSound(w) && EffectsAreIntents(w) && Enabled(w, s)
    ensures EffectsAreIntents(Apply(w, s))
  {
    if s.Send? {
      SendKeepsEffects(w, s);
    }
  }

  lemma SendKeepsEffects(w: World, s: Step)
    requires RowsAreIntents(w) && LostIsSound(w) && EffectsAreIntents(w) && Enabled(w, s) && s.Send?
    ensures EffectsAreIntents(Apply(w, s))
  {
    TakenMeaning(s.items, s.taken);
    TakenAreNew(w, s, Taken(s.items, s.taken));
    StillDistinct(w.server, Taken(s.items, s.taken));
    IntentsAppend(w.history.minted, w.server.applied, Taken(s.items, s.taken));
  }

  ghost predicate NoneApplied(server: Server, t: seq<Item>) { forall i :: 0 <= i < |t| ==> t[i].key !in AppliedKeys(server) }

  lemma TakenAreNew(w: World, s: Step, t: seq<Item>)
    requires RowsAreIntents(w) && LostIsSound(w) && Enabled(w, s) && s.Send? && AreTaken(t, s.items, s.taken)
    ensures NoneApplied(w.server, t) && AreIntents(w.history.minted, t)
  {
    forall i | 0 <= i < |t|
      ensures t[i].key in w.history.minted && IsIntent(t[i], w.history.minted[t[i].key]) && t[i].key !in AppliedKeys(w.server)
    {
      TakenIsIntent(w, s, t[i]);
    }
  }

  lemma TakenIsIntent(w: World, s: Step, x: Item)
    requires RowsAreIntents(w) && LostIsSound(w) && Enabled(w, s) && s.Send? && x in s.items && x.key in s.taken
    ensures x.key in w.history.minted && IsIntent(x, w.history.minted[x.key]) && x.key !in AppliedKeys(w.server)
  {
    var j :| 0 <= j < |s.items| && s.items[j] == x;
    assert MayItem(w, s.items[j]);
  }

  lemma IntentsAppend(minted: map<Uuid, Intent>, a: seq<Item>, b: seq<Item>)
    requires AreIntents(minted, a) && AreIntents(minted, b)
    ensures AreIntents(minted, a + b)
  {
  }

  lemma StillDistinct(server: Server, t: seq<Item>)
    requires KeysDiffer(server.applied) && KeysDiffer(t) && NoneApplied(server, t)
    ensures KeysDiffer(server.applied + t)
  {
    var all, n := server.applied + t, |server.applied|;
    forall i, j | 0 <= i < j < |all| ensures all[i].key != all[j].key {
      if i < n <= j {
        assert server.applied[i].key in AppliedKeys(server);
        assert all[j] == t[j - n];
      }
    }
  }

  lemma AppliedGrows(w: World, s: Step)
    requires Enabled(w, s)
    ensures forall k :: k in AppliedKeys(w.server) ==> k in AppliedKeys(Apply(w, s).server)
    ensures s.Send? ==> forall k :: k in s.taken ==> k in AppliedKeys(Apply(w, s).server)
  {
    if s.Send? {
      KeysAppend(w.server, Apply(w, s).server, Taken(s.items, s.taken));
      forall k | k in s.taken ensures k in AppliedKeys(Apply(w, s).server) {
        TakenKey(s.items, s.taken, k);
      }
    }
  }

  lemma KeysAppend(a: Server, b: Server, t: seq<Item>)
    requires b.applied == a.applied + t
    ensures forall k :: k in AppliedKeys(a) ==> k in AppliedKeys(b)
    ensures forall i :: 0 <= i < |t| ==> t[i].key in AppliedKeys(b)
  {
    forall k | k in AppliedKeys(a) ensures k in AppliedKeys(b) {
      var i :| 0 <= i < |a.applied| && a.applied[i].key == k;
      assert b.applied[i].key == k;
    }
    forall i | 0 <= i < |t| ensures t[i].key in AppliedKeys(b) {
      assert b.applied[|a.applied| + i].key == t[i].key;
    }
  }

  lemma TakenKey(items: seq<Item>, taken: set<Uuid>, k: Uuid)
    requires Distinct(KeysOf(items)) && k in KeysOf(items) && k in taken
    ensures exists i :: 0 <= i < |Taken(items, taken)| && Taken(items, taken)[i].key == k
  {
    TakenMeaning(items, taken);
    var i :| 0 <= i < |items| && KeysOf(items)[i] == k;
    assert items[i] in Taken(items, taken);
  }

  lemma KeepsAccepted(w: World, s: Step)
    requires Inv(w) && Enabled(w, s)
    ensures AcceptedIsApplied(Apply(w, s))
  {
    AppliedGrows(w, s);
  }

  lemma KeepsStates(w: World, s: Step)
    requires Inv(w) && Enabled(w, s)
    ensures StatesAreEarned(Apply(w, s))
  {
    var w' := Apply(w, s);
    forall k | k in w'.history.minted ensures Earned(w', k) {
      if k in w.history.minted { KeepsEarned(w, s, k); }
    }
    KeepsDismissed(w, s);
  }

  lemma KeepsDismissed(w: World, s: Step)
    requires RowsAreIntents(w) && LostIsSound(w) && StatesAreEarned(w) && OutcomesAreSingle(w) && Enabled(w, s)
    ensures var v := Apply(w, s);
            forall k :: k in v.history.dismissed ==>
              k in v.history.escalated && k !in v.history.lost && (k in v.db.rows ==> v.db.rows[k].state.Done?)
  {
    var v := Apply(w, s);
    forall k | k in v.history.dismissed
      ensures k in v.history.escalated && k !in v.history.lost && (k in v.db.rows ==> v.db.rows[k].state.Done?)
    {
      if k in w.db.rows { assert Earned(w, k); }
      if k in w.history.dismissed { assert k in w.history.minted; }
    }
  }

  lemma KeepsEarned(w: World, s: Step, k: Uuid)
    requires RowsAreIntents(w) && LostIsSound(w) && OutcomesAreSingle(w) && Enabled(w, s) && k in w.history.minted && Earned(w, k)
    ensures k in Apply(w, s).history.minted && Earned(Apply(w, s), k)
  {
    if s.WriteAction? {
      WriteKeepsEarned(w, s, k);
    } else if s.Wipe? {
      assert k in w.db.rows && k !in Apply(w, s).history.lost ==> !Unsettled(w.db.rows[k]);
    }
  }

  lemma WriteKeepsEarned(w: World, s: Step, k: Uuid)
    requires RowsAreIntents(w) && LostIsSound(w) && Enabled(w, s) && s.WriteAction? && k in w.history.minted && Earned(w, k)
    ensures k in Apply(w, s).history.minted && Earned(Apply(w, s), k)
  {
  }

  lemma KeepsLost(w: World, s: Step)
    requires RowsAreIntents(w) && LostIsSound(w) && StatesAreEarned(w) && Enabled(w, s)
    ensures LostIsSound(Apply(w, s))
  {
    if s.Wipe? {
      forall k | k in w.db.rows && w.db.rows[k].state.Escalated? ensures k in w.history.escalated { assert Earned(w, k); }
    } else {
      OthersKeepLost(w, s);
    }
  }

  lemma OthersKeepLost(w: World, s: Step)
    requires RowsAreIntents(w) && LostIsSound(w) && Enabled(w, s) && !s.Wipe?
    ensures LostIsSound(Apply(w, s))
  {
    var v := Apply(w, s);
    LostStays(w, s);
    MintedSteps(w, s);
    forall k, l | k in v.history.lost && l in v.db.rows ensures v.history.lost[k].order < v.db.rows[l].order { RowSteps(w, s, l); }
    forall k | k in v.history.lost && k in v.db.rows ensures false { RowSteps(w, s, k); }
  }

  lemma LostStays(w: World, s: Step)
    requires Enabled(w, s) && !s.Wipe?
    ensures Apply(w, s).history.lost == w.history.lost && w.history.escalated <= Apply(w, s).history.escalated
  {
  }

  lemma KeepsCount(w: World, s: Step)
    requires RowsAreIntents(w) && MediaAreMinted(w) && CountHolds(w) && Enabled(w, s)
    ensures CountHolds(Apply(w, s))
  {
    if s.Count? && UnsafeToForget(w.db) == 0 {
      CountsUnsafe(w.db);
    } else if s.Enqueue? {
      EnqueueKeepsCount(w, s);
    }
  }

  lemma EnqueueKeepsCount(w: World, s: Step)
    requires RowsAreIntents(w) && MediaAreMinted(w) && CountHolds(w) && Enabled(w, s) && s.Enqueue?
    ensures CountHolds(Apply(w, s))
  {
    if w.history.counted.Some? {
      forall m | m in NewMedia(s) ensures m !in w.history.counted.value.captured { assert m in s.photos; }
    }
  }

  lemma KeepsBatch(w: World, s: Step)
    requires RowsAreIntents(w) && LostIsSound(w) && BatchIsInOrder(w) && Enabled(w, s)
    ensures BatchIsInOrder(Apply(w, s))
  {
    if s.Send? {
      SendStartsBatch(w, s);
    } else {
      OthersKeepBatch(w, s);
    }
  }

  lemma OthersKeepBatch(w: World, s: Step)
    requires RowsAreIntents(w) && BatchIsInOrder(w) && Enabled(w, s) && !s.Send?
    ensures BatchIsInOrder(Apply(w, s))
  {
    var v := Apply(w, s);
    if v.reply.Some? {
      var batch := w.reply.value.batch;
      forall i, a | 0 <= i < |batch| && WaitsBefore(v, a, batch[i]) ensures Ahead(batch, a, i) {
        assert batch[i] in batch;
        assert WaitsBefore(w, a, batch[i]);
      }
    }
  }

  lemma SendStartsBatch(w: World, s: Step)
    requires RowsAreIntents(w) && LostIsSound(w) && Enabled(w, s) && s.Send?
    ensures BatchIsInOrder(Apply(w, s))
  {
    var keys := KeysOf(s.items);
    forall i | 0 <= i < |keys| ensures keys[i] in w.history.minted && keys[i] in w.history.sends + keys {
      assert MayItem(w, s.items[i]);
    }
    forall i, a | 0 <= i < |keys| && WaitsBefore(w, a, keys[i]) ensures Ahead(keys, a, i) {
      assert MayItem(w, s.items[i]);
      var j :| 0 <= j < i && s.items[j].key == a;
      assert keys[j] == a;
    }
    var v := Apply(w, s);
    assert v.db == w.db && v.history.minted == w.history.minted && v.history.sends == w.history.sends + keys;
    if v.reply.Some? {
      forall i, a | 0 <= i < |keys| && WaitsBefore(v, a, keys[i]) ensures Ahead(keys, a, i) {
        assert WaitsBefore(w, a, keys[i]);
      }
      forall k | k in keys ensures k in v.history.minted && k in v.history.sends {
        var i :| 0 <= i < |keys| && keys[i] == k;
      }
    }
  }

  lemma KeepsOutcomes(w: World, s: Step)
    requires RowsAreIntents(w) && LostIsSound(w) && OutcomesAreSingle(w) && Enabled(w, s)
    ensures OutcomesAreSingle(Apply(w, s))
  {
    if s.WriteAction? {
      WriteKeepsOutcomes(w, s.id, s.action);
    } else {
      var h, h' := w.history, Apply(w, s).history;
      assert h'.accepted == h.accepted && h'.refused == h.refused && h'.escalated == h.escalated;
    }
  }

  lemma WriteKeepsOutcomes(w: World, id: Uuid, p: ActionPatch)
    requires OutcomesAreSingle(w) && RowsAreIntents(w) && LostIsSound(w) && MayWrite(w, id, p)
    ensures OutcomesAreSingle(Apply(w, WriteAction(id, p)))
  {
    var h := w.history;
    assert Undecided(h, id) && id in h.minted;
  }

  lemma KeepsOrder(w: World, s: Step)
    requires Inv(w) && Enabled(w, s)
    ensures SentInOrder(Apply(w, s).history)
  {
    if s.Send? {
      SendKeepsOrder(w, s);
    } else {
      OthersKeepOrder(w, s);
    }
  }

  lemma OthersKeepOrder(w: World, s: Step)
    requires RowsAreIntents(w) && SentInOrder(w.history) && Enabled(w, s) && !s.Send?
    ensures SentInOrder(Apply(w, s).history)
  {
    var h, h' := w.history, Apply(w, s).history;
    forall p | 0 <= p < |h.sends| ensures Preceded(h', h.sends[p], h.sends[..p]) {
      assert Preceded(h, h.sends[p], h.sends[..p]);
    }
  }

  lemma SendKeepsOrder(w: World, s: Step)
    requires SentInOrder(w.history) && LeftAfterSending(w) && RowsAreIntents(w) && LostIsSound(w) && Enabled(w, s) && s.Send?
    ensures SentInOrder(Apply(w, s).history)
  {
    forall i | 0 <= i < |s.items|
      ensures Preceded(w.history, KeysOf(s.items)[i], w.history.sends + KeysOf(s.items)[..i])
    {
      BatchInOrder(w, s.items, i);
    }
    OrderAppend(w.history, KeysOf(s.items));
  }

  lemma OrderAppend(h: History, keys: seq<Uuid>)
    requires SentInOrder(h)
    requires forall i :: 0 <= i < |keys| ==> Preceded(h, keys[i], h.sends + keys[..i])
    ensures SentInOrder(h.(sends := h.sends + keys))
  {
    var sends := h.sends + keys;
    forall p | 0 <= p < |sends| ensures Preceded(h.(sends := sends), sends[p], sends[..p]) {
      if p < |h.sends| {
        assert sends[..p] == h.sends[..p] && Preceded(h, h.sends[p], h.sends[..p]);
      } else {
        assert sends[..p] == h.sends + keys[..p - |h.sends|] && Preceded(h, keys[p - |h.sends|], sends[..p]);
      }
    }
  }

  lemma BatchInOrder(w: World, items: seq<Item>, i: nat)
    requires LeftAfterSending(w) && RowsAreIntents(w) && LostIsSound(w) && MaySend(w, items) && i < |items|
    ensures Preceded(w.history, items[i].key, w.history.sends + KeysOf(items)[..i])
  {
    var h := w.history;
    assert MayItem(w, items[i]);
    forall b | b in h.minted && h.minted[b].subject == h.minted[items[i].key].subject
               && h.minted[b].order < h.minted[items[i].key].order
      ensures b in h.sends + KeysOf(items)[..i] || b in h.lost
    {
      if b in w.db.rows && w.db.rows[b].state.Pending? {
        var j :| 0 <= j < i && items[j].key == b;
        assert KeysOf(items)[..i][j] == b;
      } else {
        assert b in h.sends || b in h.lost;
      }
    }
  }

  lemma KeepsSent(w: World, s: Step)
    requires RowsAreIntents(w) && LeftAfterSending(w) && LostIsSound(w) && Enabled(w, s)
    ensures LeftAfterSending(Apply(w, s))
  {
  }

  lemma KeepsMedia(w: World, s: Step)
    requires Inv(w) && Enabled(w, s)
    ensures MediaIsSound(Apply(w, s))
  {
    var w' := Apply(w, s);
    forall m | m in w'.db.media ensures MediumIsSound(w', m) {
      if m in w.db.media { assert MediumIsSound(w, m); }
    }
  }

  lemma KeepsMinted(w: World, s: Step)
    requires Inv(w) && Enabled(w, s)
    ensures MediaAreMinted(Apply(w, s))
  {
  }

  lemma {:induction false} PublishMeaning(published: map<Version, M.Manifest>, updates: seq<RouteUpdate>)
    requires forall u :: u in updates && u.version in published ==> published[u.version] == u.manifest
    requires forall u, v :: u in updates && v in updates && u.version == v.version ==> u.manifest == v.manifest
    ensures var p := Publish(published, updates);
            && (forall v :: v in published ==> v in p && p[v] == published[v])
            && (forall u :: u in updates ==> u.version in p && p[u.version] == u.manifest)
  {
    if updates != [] { PublishMeaning(published, updates[..|updates| - 1]); }
  }

  /** Rows of `saveRoutes`: each comes from an update or from the table, and only the listed ones change after that. */
  lemma {:induction false} UpdatesMeaning(routes: map<Uuid, Route>, updates: seq<RouteUpdate>)
    requires forall i, j :: 0 <= i < j < |updates| ==> updates[i].routeId != updates[j].routeId
    ensures var r := WithUpdates(routes, updates);
            && (forall id :: id in r <==> id in routes || exists u :: u in updates && u.routeId == id)
            && (forall u :: u in updates ==> u.routeId in r && r[u.routeId].version == u.version
                                             && r[u.routeId].manifest == u.manifest && r[u.routeId].active)
            && (forall id :: id in routes && (forall u :: u in updates ==> u.routeId != id) ==> r[id] == routes[id])
  {
    if updates != [] {
      var before, last := updates[..|updates| - 1], updates[|updates| - 1];
      UpdatesMeaning(routes, before);
      assert forall u :: u in updates <==> u in before || u == last;
      forall u | u in before ensures u.routeId != last.routeId {
        var i :| 0 <= i < |before| && before[i] == u;
        assert updates[i] == u;
      }
    }
  }

  lemma {:induction false} ActiveMeaning(routes: map<Uuid, Route>, active: seq<RouteRef>)
    requires forall i, j :: 0 <= i < j < |active| ==> active[i].routeId != active[j].routeId
    ensures var r := WithActive(routes, active);
            && r.Keys == routes.Keys
            && (forall id :: id in r ==> r[id].version == routes[id].version && r[id].manifest == routes[id].manifest
                                         && r[id].plannedDate == routes[id].plannedDate)
            && (forall id :: id in r ==> (r[id].active <==> routes[id].active || exists a :: a in active && a.routeId == id))
            && (forall a :: a in active && a.routeId in r ==> r[a.routeId].status == a.status)
  {
    if active != [] {
      var before, last := active[..|active| - 1], active[|active| - 1];
      ActiveMeaning(routes, before);
      assert forall a :: a in active <==> a in before || a == last;
      forall a | a in before ensures a.routeId != last.routeId {
        var i :| 0 <= i < |before| && before[i] == a;
        assert active[i] == a;
      }
    }
  }

  lemma KeepsRoutes(w: World, s: Step)
    requires Inv(w) && Enabled(w, s)
    ensures RoutesArePublished(Apply(w, s))
  {
    if s.Send? && s.reply.Some? && s.reply.value.routes.Some? {
      PublishMeaning(w.server.published, s.reply.value.routes.value.updates);
    }
    if s.SaveRoutes? {
      SavedRows(w.db.routes, w.reply.value.routes.value);
    }
  }

  lemma SavedRows(routes: map<Uuid, Route>, answer: RouteAnswer)
    ensures var r := SavedRoutes(routes, answer);
            forall id :: id in r ==>
              || (id in routes && r[id].version == routes[id].version && r[id].manifest == routes[id].manifest)
              || exists u :: u in answer.updates && r[id].version == u.version && r[id].manifest == u.manifest
  {
    SavedByUpdates(Deactivated(routes), answer.updates);
    SavedByActive(WithUpdates(Deactivated(routes), answer.updates), answer.active);
  }

  lemma {:induction false} SavedByUpdates(routes: map<Uuid, Route>, updates: seq<RouteUpdate>)
    ensures var r := WithUpdates(routes, updates);
            forall id :: id in r ==>
              || (id in routes && r[id].version == routes[id].version && r[id].manifest == routes[id].manifest)
              || exists u :: u in updates && r[id].version == u.version && r[id].manifest == u.manifest
  {
    if updates != [] {
      SavedByUpdates(routes, updates[..|updates| - 1]);
      assert updates[|updates| - 1] in updates;
      assert forall u :: u in updates[..|updates| - 1] ==> u in updates;
    }
  }

  lemma {:induction false} SavedByActive(routes: map<Uuid, Route>, active: seq<RouteRef>)
    ensures var r := WithActive(routes, active);
            forall id :: id in r ==> id in routes && r[id].version == routes[id].version && r[id].manifest == routes[id].manifest
  {
    if active != [] { SavedByActive(routes, active[..|active| - 1]); }
  }

  lemma KeepsInv(w: World, s: Step)
    requires Inv(w) && Enabled(w, s)
    ensures Inv(Apply(w, s))
  {
    KeepsRows(w, s);
    KeepsEffects(w, s);
    KeepsAccepted(w, s);
    KeepsStates(w, s);
    KeepsOutcomes(w, s);
    KeepsOrder(w, s);
    KeepsSent(w, s);
    KeepsMedia(w, s);
    KeepsMinted(w, s);
    KeepsRoutes(w, s);
    KeepsLost(w, s);
    KeepsCount(w, s);
    KeepsBatch(w, s);
  }

  lemma {:induction false} RunsKeepInv(start: World, run: seq<Step>)
    requires Initial(start) && Legal(start, run)
    ensures Inv(After(start, run))
  {
    if run != [] {
      LastStep(start, run);
      RunsKeepInv(start, run[..|run| - 1]);
      KeepsInv(After(start, run[..|run| - 1]), run[|run| - 1]);
    }
  }

  lemma ReachableIsSound(w: World)
    requires Reachable(w)
    ensures Inv(w)
  {
    var start, run :| Initial(start) && Legal(start, run) && After(start, run) == w;
    RunsKeepInv(start, run);
  }

  // ── Applied at most once, and once if accepted ─────────────────────────────

  /** How often the server applied the action recorded under `k`. */
  ghost function TimesApplied(applied: seq<Item>, k: Uuid): nat {
    if applied == [] then 0
    else TimesApplied(applied[..|applied| - 1], k) + if applied[|applied| - 1].key == k then 1 else 0
  }

  lemma {:induction false} TimesOfAbsent(applied: seq<Item>, k: Uuid)
    requires forall i :: 0 <= i < |applied| ==> applied[i].key != k
    ensures TimesApplied(applied, k) == 0
  {
    if applied != [] { TimesOfAbsent(applied[..|applied| - 1], k); }
  }

  lemma {:induction false} TimesOfDistinct(applied: seq<Item>, k: Uuid)
    requires forall i, j :: 0 <= i < j < |applied| ==> applied[i].key != applied[j].key
    ensures TimesApplied(applied, k) == if exists i :: 0 <= i < |applied| && applied[i].key == k then 1 else 0
  {
    if applied != [] {
      var n := |applied| - 1;
      TimesOfDistinct(applied[..n], k);
      if applied[n].key == k {
        TimesOfAbsent(applied[..n], k);
      } else if i :| 0 <= i < |applied| && applied[i].key == k {
        assert applied[..n][i].key == k;
      }
    }
  }

  /**
   * Over every run of recordings, flushes, lost answers and crashes: an action is applied at most once and only as
   * it was recorded, and one that is DONE because the server accepted it was applied exactly once.
   */
  lemma AppliedOnce(w: World, k: Uuid)
    requires Reachable(w)
    ensures TimesApplied(w.server.applied, k) <= 1
    ensures TimesApplied(w.server.applied, k) == 1 ==> k in w.history.minted
    ensures k in w.history.accepted ==> TimesApplied(w.server.applied, k) == 1
    ensures forall i :: 0 <= i < |w.server.applied| && w.server.applied[i].key == k ==>
              var item := w.server.applied[i];
              && k in w.history.minted && item.kind == w.history.minted[k].kind && item.subject == w.history.minted[k].subject
              && item.body == w.history.minted[k].payload.body
              && match w.history.minted[k].payload.pod
                 case None => item.pod == None
                 case Some(text) => item.pod.Some? && item.pod.value.text == text
    ensures (k in w.db.rows && w.db.rows[k].state == Done && k !in w.history.refused && k !in w.history.dismissed)
            ==> TimesApplied(w.server.applied, k) == 1
  {
    ReachableIsSound(w);
    TimesOfDistinct(w.server.applied, k);
    if k in w.db.rows { assert Earned(w, k); }
  }

  // ── Order of first sendings ────────────────────────────────────────────────

  ghost predicate FirstSentAt(h: History, k: Uuid, p: int) {
    0 <= p < |h.sends| && h.sends[p] == k && k !in h.sends[..p]
  }

  lemma {:induction false} FirstSending(sends: seq<Uuid>, k: Uuid) returns (p: int)
    requires k in sends
    ensures 0 <= p < |sends| && sends[p] == k && k !in sends[..p]
  {
    var n := |sends| - 1;
    if k in sends[..n] {
      p := FirstSending(sends[..n], k);
      assert sends[..n][..p] == sends[..p];
    } else {
      p := n;
    }
  }

  /** Over every run, the actions of one subject are first sent in the order they were recorded, but for those a sign-out lost. */
  lemma FirstSendingsInOrder(w: World, a: Uuid, b: Uuid, at: int)
    requires Reachable(w) && a in w.history.minted && b in w.history.minted
    requires w.history.minted[a].subject == w.history.minted[b].subject
    requires w.history.minted[a].order < w.history.minted[b].order
    requires FirstSentAt(w.history, b, at) && a !in w.history.lost
    ensures exists p :: 0 <= p < at && FirstSentAt(w.history, a, p)
  {
    ReachableIsSound(w);
    var h := w.history;
    assert Preceded(h, h.sends[at], h.sends[..at]);
    var p := FirstSending(h.sends[..at], a);
    assert h.sends[..at][..p] == h.sends[..p];
    assert FirstSentAt(h, a, p);
  }

  // ── No silent loss ─────────────────────────────────────────────────────────

  /**
   * A delivery or a return, once recorded, is never refused. It is still waiting or escalated in the table, or the
   * server applied it, or it was escalated and a person dismissed it, exactly unless a sign-out deleted its row before
   * it was settled and no flush under way had it accepted after that.
   */
  lemma NothingPhysicalIsLost(w: World, k: Uuid)
    requires Reachable(w) && k in w.history.minted && w.history.minted[k].kind in {Delivered, ReturnCompleted}
    ensures k !in w.history.refused && !(k in w.db.rows && w.db.rows[k].state == Refused)
    ensures || (k in w.db.rows && w.db.rows[k].state in {Pending, Escalated})
            || (k in w.history.accepted && TimesApplied(w.server.applied, k) == 1)
            || (k in w.history.escalated && k in w.history.dismissed)
            <==> !(k in w.history.lost && k !in w.history.accepted)
  {
    ReachableIsSound(w);
    assert Earned(w, k);
    if k in w.history.accepted { AppliedOnce(w, k); }
  }

  /** Step `i` of the run is a sign-out that deletes the row of `k` before it is settled. */
  ghost predicate LosesAt(start: World, run: seq<Step>, i: nat, k: Uuid) {
    && i < |run| && run[i] == Wipe && Legal(start, run[..i])
    && k in After(start, run[..i]).db.rows && After(start, run[..i]).db.rows[k].state in {Pending, Escalated}
  }

  lemma {:induction false} LegalPrefix(start: World, run: seq<Step>, n: nat)
    requires Legal(start, run) && n <= |run|
    ensures Legal(start, run[..n])
  {
    if n == |run| {
      assert run[..n] == run;
    } else {
      LastStep(start, run);
      LegalPrefix(start, run[..|run| - 1], n);
      assert run[..|run| - 1][..n] == run[..n];
    }
  }

  ghost predicate WasLost(start: World, run: seq<Step>, k: Uuid) { exists i :: LosesAt(start, run, i, k) }

  /** Over every run, what is lost is exactly what a sign-out deleted while it waited or was escalated. */
  lemma {:induction false} LostExactly(start: World, run: seq<Step>, k: Uuid)
    requires Initial(start) && Legal(start, run)
    ensures k in After(start, run).history.lost <==> WasLost(start, run, k)
  {
    if run != [] {
      LastOfLost(start, run, k);
      LostExactly(start, run[..|run| - 1], k);
    }
  }

  lemma LastOfLost(start: World, run: seq<Step>, k: Uuid)
    requires run != [] && Legal(start, run)
    ensures Legal(start, run[..|run| - 1])
    ensures k in After(start, run).history.lost
            <==> k in After(start, run[..|run| - 1]).history.lost || LosesAt(start, run, |run| - 1, k)
    ensures WasLost(start, run, k) <==> WasLost(start, run[..|run| - 1], k) || LosesAt(start, run, |run| - 1, k)
  {
    var n := |run| - 1;
    LastStep(start, run);
    LostSteps(After(start, run[..n]), run[n], k);
    LostSooner(start, run, k);
  }

  lemma LostSteps(w: World, s: Step, k: Uuid)
    requires Enabled(w, s)
    ensures k in Apply(w, s).history.lost
            <==> k in w.history.lost || (s == Wipe && k in w.db.rows && w.db.rows[k].state in {Pending, Escalated})
  {
  }

  lemma LostSooner(start: World, run: seq<Step>, k: Uuid)
    requires run != [] && Legal(start, run[..|run| - 1])
    ensures WasLost(start, run, k) <==> WasLost(start, run[..|run| - 1], k) || LosesAt(start, run, |run| - 1, k)
  {
    var n := |run| - 1;
    forall i: nat | i < n ensures LosesAt(start, run, i, k) <==> LosesAt(start, run[..n], i, k) {
      assert run[..n][..i] == run[..i];
    }
    if i :| LosesAt(start, run[..n], i, k) { assert LosesAt(start, run, i, k); }
  }

  /**
   * A sign-out deletes only what was recorded after it counted nothing unsafe: with nothing recorded since the count,
   * nothing unsettled goes.
   */
  lemma WipeTakesOnlyTheNew(w: World)
    requires Reachable(w) && Enabled(w, Wipe)
    ensures var mark := w.history.counted.value;
            && (forall k :: k in w.db.rows && w.db.rows[k].state in {Pending, Escalated} ==> w.db.rows[k].order >= mark.order)
            && (forall m :: m in w.db.media && w.db.media[m].state in {Captured, Slotted} ==> m !in mark.captured)
            && (w.db.nextOrder == mark.order ==> IsSafe(w.db) && Apply(w, Wipe).history.lost == w.history.lost)
  {
    ReachableIsSound(w);
    var mark := w.history.counted.value;
    if w.db.nextOrder == mark.order {
      forall k | k in w.db.rows ensures w.db.rows[k].state !in {Pending, Escalated} && !Unsettled(w.db.rows[k]) { assert k in w.history.minted; }
      assert UnsettledRows(w.db) == map[];
      forall m | m in w.db.media ensures w.db.media[m].state !in {Captured, Slotted} { assert m in w.history.captured; }
    }
  }

  /** Unsettled rows and losses of `b` that `a` does not have were recorded after `a`. */
  ghost predicate LostSince(a: World, b: World) {
    && a.db.nextOrder <= b.db.nextOrder
    && (forall k :: k in b.db.rows && b.db.rows[k].state in {Pending, Escalated} ==> b.db.rows[k].order >= a.db.nextOrder)
    && (forall k :: k in b.history.lost && k !in a.history.lost ==> b.history.lost[k].order >= a.db.nextOrder)
  }

  lemma StepsLoseTheNew(a: World, w: World, s: Step)
    requires RowsAreIntents(w) && LostIsSound(w) && LostSince(a, w) && Enabled(w, s)
    ensures LostSince(a, Apply(w, s))
  {
  }

  /** From any moment with nothing unsafe, over any stretch of any run: whatever is lost was recorded after it. */
  lemma {:induction false} NothingOlderIsLost(start: World, earlier: seq<Step>, run: seq<Step>)
    requires Initial(start) && Legal(start, earlier) && Legal(start, run) && earlier <= run
    requires IsSafe(After(start, earlier).db)
    ensures LostSince(After(start, earlier), After(start, run))
    decreases |run|
  {
    if earlier != run {
      var before := run[..|run| - 1];
      LastStep(start, run);
      NothingOlderIsLost(start, earlier, before);
      RunsKeepInv(start, before);
      StepsLoseTheNew(After(start, earlier), After(start, before), run[|run| - 1]);
    }
  }

  /**
   * The steps that end a physical action in the table: an acknowledgement or an escalation the answer in hand gives it, a
   * person's dismissal, or a sign-out. Once it is done, only housekeeping or a sign-out takes its row.
   */
  lemma PhysicalEndsOnlyByAnswer(w: World, s: Step, k: Uuid)
    requires Reachable(w) && Enabled(w, s) && k in w.db.rows && w.db.rows[k].kind in {Delivered, ReturnCompleted}
    requires k in Apply(w, s).db.rows ==> Apply(w, s).db.rows[k].state != w.db.rows[k].state
    ensures var v := Apply(w, s);
            match w.db.rows[k].state
            case Pending =>
              if k !in v.db.rows then s.Wipe? && k in v.history.lost
              else
                s.WriteAction? && s.id == k && MaySettle(w)
                && match v.db.rows[k].state {
                     case Done => k in w.reply.value.acks
                     case Escalated => k in w.reply.value.escalates || k in w.reply.value.discards
                     case _ => false
                   }
            case Escalated =>
              (s == Dismiss(k) && k in v.db.rows && v.db.rows[k].state.Done?)
              || (s.Wipe? && k in v.history.lost && k !in v.db.rows)
            case Refused => false
            case Done => (s.Prune? || s.Wipe?) && k !in v.db.rows
  {
    ReachableIsSound(w);
    assert Earned(w, k);
  }

  // ── Order of acceptance ────────────────────────────────────────────────────

  /** The answer in hand takes `b` and leaves `a`, which stands ahead of it in the batch. */
  ghost predicate TakesOver(r: Reply, a: Uuid, b: Uuid) {
    b in r.acks && a !in r.acks && exists i :: 0 <= i < |r.batch| && r.batch[i] == b && Ahead(r.batch, a, i)
  }

  /**
   * An action may be accepted while an earlier one of its subject waits exactly when one batch carried both, the earlier
   * one ahead, and its answer acknowledges the later and not the earlier.
   */
  lemma OvertakesExactly(w: World, a: Uuid, b: Uuid, p: ActionPatch)
    requires Reachable(w) && WaitsBefore(w, a, b) && p.state == Some(Done)
    ensures Enabled(w, WriteAction(b, p))
            <==> Awaits(w, b) && MaySettle(w) && TakesOver(w.reply.value, a, b) && TakenInTurn(w, b)
  {
    ReachableIsSound(w);
    if Enabled(w, WriteAction(b, p)) {
      var batch := w.reply.value.batch;
      var i :| 0 <= i < |batch| && batch[i] == b;
      assert Ahead(batch, a, i);
      var j :| 0 <= j < i && batch[j] == a;
      assert Awaits(w, a);
    }
  }

  /** A sending of the run whose answer takes `b` and leaves `a`. */
  ghost predicate TakenOverBy(run: seq<Step>, a: Uuid, b: Uuid) {
    exists i :: 0 <= i < |run| && run[i].Send? && run[i].reply.Some? && TakesOver(run[i].reply.value, a, b)
  }

  lemma TakenOverBefore(run: seq<Step>, n: nat, a: Uuid, b: Uuid)
    requires n <= |run| && TakenOverBy(run[..n], a, b)
    ensures TakenOverBy(run, a, b)
  {
    var i :| 0 <= i < n && run[..n][i].Send? && run[..n][i].reply.Some? && TakesOver(run[..n][i].reply.value, a, b);
    assert run[i] == run[..n][i];
  }

  /** The answer in hand came with a sending of the run. */
  lemma {:induction false} AnswerWasSent(start: World, run: seq<Step>) returns (i: int)
    requires Initial(start) && Legal(start, run) && After(start, run).reply.Some?
    ensures 0 <= i < |run| && run[i].Send? && run[i].reply.Some?
    ensures var r, now := run[i].reply.value, After(start, run).reply.value; r.batch == now.batch && r.acks == now.acks
  {
    if run == [] {
      i := 0;
    } else {
      LastStep(start, run);
      i := |run| - 1;
      if !run[i].Send? { i := AnswerWasSent(start, run[..|run| - 1]); }
    }
  }

  /** Over every run: if an action was accepted and an earlier one of its subject still waits, one answer took it over. */
  lemma {:induction false} AcceptedAheadOnlyInOneBatch(start: World, run: seq<Step>, a: Uuid, b: Uuid)
    requires Initial(start) && Legal(start, run)
    requires WaitsBefore(After(start, run), a, b) && b in After(start, run).history.accepted
    ensures TakenOverBy(run, a, b)
  {
    if run != [] {
      var n := |run| - 1;
      LastStep(start, run);
      RunsKeepInv(start, run[..n]);
      WaitedBefore(After(start, run[..n]), run[n], a, b);
      if b in After(start, run[..n]).history.accepted {
        AcceptedAheadOnlyInOneBatch(start, run[..n], a, b);
        TakenOverBefore(run, n, a, b);
      } else {
        TakenOverLast(start, run, a, b);
      }
    }
  }

  lemma TakenOverLast(start: World, run: seq<Step>, a: Uuid, b: Uuid)
    requires Initial(start) && run != [] && Legal(start, run[..|run| - 1])
    requires Enabled(After(start, run[..|run| - 1]), run[|run| - 1]) && WaitsBefore(After(start, run[..|run| - 1]), a, b)
    requires run[|run| - 1].WriteAction? && run[|run| - 1].id == b && run[|run| - 1].action.state == Some(Done)
    ensures TakenOverBy(run, a, b)
  {
    var before := run[..|run| - 1];
    var w := After(start, before);
    assert Reachable(w);
    OvertakesExactly(w, a, b, run[|run| - 1].action);
    var i := AnswerWasSent(start, before);
    assert run[i] == before[i];
  }

  lemma WaitedBefore(w: World, s: Step, a: Uuid, b: Uuid)
    requires RowsAreIntents(w) && OutcomesAreSingle(w) && Enabled(w, s)
    requires WaitsBefore(Apply(w, s), a, b) && b in Apply(w, s).history.accepted
    ensures WaitsBefore(w, a, b)
    ensures b in w.history.accepted || (s.WriteAction? && s.id == b && s.action.state == Some(Done))
  {
    AcceptedSteps(w, s, b);
    MintedSteps(w, s);
    RowSteps(w, s, a);
  }

  lemma AcceptedSteps(w: World, s: Step, b: Uuid)
    requires OutcomesAreSingle(w) && RowsAreIntents(w) && Enabled(w, s) && b in Apply(w, s).history.accepted
    ensures b in w.history.accepted || (s.WriteAction? && s.id == b && s.action.state == Some(Done))
    ensures b in w.history.accepted ==> b in w.history.minted
  {
  }

  // ── Media ──────────────────────────────────────────────────────────────────

  /** A file only moves forward, its slot never changes, and a settled one stays settled. */
  lemma MediaMoveForward(w: World, s: Step, m: Uuid)
    requires Reachable(w) && Enabled(w, s) && m in w.db.media && m in Apply(w, s).db.media
    ensures var a, b := w.db.media[m], Apply(w, s).db.media[m];
            && Stage(a.state) <= Stage(b.state) && (a.state != b.state ==> Stage(a.state) < Stage(b.state))
            && (a.artifact.Some? ==> b.artifact == a.artifact && b.objectKey == a.objectKey)
  {
    ReachableIsSound(w);
    assert MediumIsSound(w, m);
  }

  /** From `a` to `b`, no file there was at `a` has gone back, and every slot is still the same one. */
  ghost predicate Forward(a: World, b: World) {
    && a.history.captured <= b.history.captured
    && (forall m :: m in a.server.slots ==> m in b.server.slots && b.server.slots[m] == a.server.slots[m])
    && forall m :: m in b.db.media && m in a.history.captured ==>
         m in a.db.media && Stage(a.db.media[m].state) <= Stage(b.db.media[m].state)
  }

  lemma StepsGoForward(w: World, s: Step)
    requires MediaAreMinted(w) && Enabled(w, s)
    ensures Forward(w, Apply(w, s))
  {
  }

  /** Over any stretch of any run, files only move forward. */
  lemma {:induction false} RunsGoForward(start: World, earlier: seq<Step>, run: seq<Step>)
    requires Initial(start) && Legal(start, earlier) && Legal(start, run) && earlier <= run
    ensures Forward(After(start, earlier), After(start, run))
    decreases |run|
  {
    if earlier != run {
      LastStep(start, run);
      var before := run[..|run| - 1];
      RunsGoForward(start, earlier, before);
      RunsKeepInv(start, before);
      StepsGoForward(After(start, before), run[|run| - 1]);
    }
  }

  /** Only a sign-out forgets an open file, and only one captured since the count it went by. */
  lemma OpenMediaStay(w: World, s: Step, m: Uuid)
    requires Reachable(w) && Enabled(w, s) && m in w.db.media && w.db.media[m].state in {Captured, Slotted}
    ensures m in Apply(w, s).db.media <==> !s.Wipe?
    ensures s.Wipe? ==> m !in w.history.counted.value.captured && w.db.nextOrder > w.history.counted.value.order
  {
    ReachableIsSound(w);
  }

  // ── The files of a waiting action ──────────────────────────────────────────

  /** The step is a housekeeping that deletes the row of the file. */
  ghost predicate Prunes(w: World, s: Step, m: Uuid) {
    s.Prune? && m in w.db.media && w.db.media[m].state in {Uploaded, Lost} && w.db.media[m].createdAt < s.olderThan
  }

  /** Step `i` of the run is a housekeeping that deletes the row of the file. */
  ghost predicate PrunesAt(start: World, run: seq<Step>, i: nat, m: Uuid) {
    i < |run| && Legal(start, run[..i]) && Prunes(After(start, run[..i]), run[i], m)
  }

  /** Housekeeping deleted the row of the file. */
  ghost predicate WasPruned(start: World, run: seq<Step>, m: Uuid) { exists i :: PrunesAt(start, run, i, m) }

  /** Over every run, an action in the table has all its files' rows but those that housekeeping deleted once they were settled. */
  lemma {:induction false} FilesLeaveByHousekeeping(start: World, run: seq<Step>, k: Uuid, m: Uuid)
    requires Initial(start) && Legal(start, run)
    requires k in After(start, run).db.rows && m in After(start, run).db.rows[k].media
    ensures m !in After(start, run).db.media <==> WasPruned(start, run, m)
  {
    if run != [] {
      LastOfFiles(start, run, k, m);
      if k in After(start, run[..|run| - 1]).db.rows { FilesLeaveByHousekeeping(start, run[..|run| - 1], k, m); }
    }
  }

  lemma LastOfFiles(start: World, run: seq<Step>, k: Uuid, m: Uuid)
    requires Initial(start) && Legal(start, run) && run != []
    requires k in After(start, run).db.rows && m in After(start, run).db.rows[k].media
    ensures Legal(start, run[..|run| - 1])
    ensures var before, w := run[..|run| - 1], After(start, run[..|run| - 1]);
            if k in w.db.rows then
              m in w.db.rows[k].media
              && (m !in After(start, run).db.media <==> m !in w.db.media || Prunes(w, run[|run| - 1], m))
              && (WasPruned(start, run, m) <==> WasPruned(start, before, m) || Prunes(w, run[|run| - 1], m))
            else m in After(start, run).db.media && !WasPruned(start, run, m)
  {
    var n := |run| - 1;
    LastStep(start, run);
    RunsKeepInv(start, run[..n]);
    PrunedSooner(start, run, m);
    if k in After(start, run[..n]).db.rows {
      FileSteps(After(start, run[..n]), run[n], k, m);
    } else {
      NewFiles(After(start, run[..n]), run[n], k, m);
      if i :| PrunesAt(start, run[..n], i, m) { PrunedWasCaptured(start, run[..n], i, m); }
    }
  }

  lemma PrunedSooner(start: World, run: seq<Step>, m: Uuid)
    requires run != [] && Legal(start, run[..|run| - 1])
    ensures WasPruned(start, run, m)
            <==> WasPruned(start, run[..|run| - 1], m) || Prunes(After(start, run[..|run| - 1]), run[|run| - 1], m)
  {
    var n := |run| - 1;
    forall i: nat | i < n ensures PrunesAt(start, run, i, m) <==> PrunesAt(start, run[..n], i, m) {
      assert run[..n][..i] == run[..i];
    }
    assert PrunesAt(start, run, n, m) <==> Prunes(After(start, run[..n]), run[n], m);
    if i :| PrunesAt(start, run[..n], i, m) { assert PrunesAt(start, run, i, m); }
  }

  lemma FileSteps(w: World, s: Step, k: Uuid, m: Uuid)
    requires RowsAreIntents(w) && MediaAreMinted(w) && Enabled(w, s)
    requires k in w.db.rows && k in Apply(w, s).db.rows && m in w.db.rows[k].media
    ensures Apply(w, s).db.rows[k].media == w.db.rows[k].media
    ensures m !in Apply(w, s).db.media <==> m !in w.db.media || Prunes(w, s, m)
  {
    if s.Enqueue? { assert m !in s.photos; }
  }

  lemma NewFiles(w: World, s: Step, k: Uuid, m: Uuid)
    requires Enabled(w, s) && k !in w.db.rows && k in Apply(w, s).db.rows && m in Apply(w, s).db.rows[k].media
    ensures s.Enqueue? && m in Apply(w, s).db.media && m !in w.history.captured
  {
    assert s.photos[..|s.photos|] == s.photos;
  }

  lemma PrunedWasCaptured(start: World, run: seq<Step>, i: nat, m: Uuid)
    requires Initial(start) && Legal(start, run) && PrunesAt(start, run, i, m)
    ensures m in After(start, run).history.captured
  {
    RunsKeepInv(start, run[..i]);
    RunsGoForward(start, run[..i], run);
  }

  /** At every point of every run, a discarded file's own artifact is complete on the server. */
  lemma DiscardedIsHeld(w: World, m: Uuid)
    requires Reachable(w) && m in w.history.discarded
    ensures m in w.server.slots && w.server.slots[m].artifact in w.server.completed
  {
    ReachableIsSound(w);
  }

  // ── The manifest cache ─────────────────────────────────────────────────────

  /** The cache shows the server's answer: the listed routes and no other are active, each at the server's version, status and manifest. */
  ghost predicate CacheIs(routes: map<Uuid, Route>, published: map<Version, M.Manifest>, active: seq<RouteRef>) {
    && (forall r :: r in routes && routes[r].active ==> exists a :: a in active && a.routeId == r)
    && (forall a :: a in active ==>
          ShownAs(routes, published, a))
  }

  ghost predicate Unsaved(w: World) {
    w.reply.Some? && w.reply.value.routes.Some? && !w.reply.value.saved
  }

  /** Until it is saved, an answer fits the versions it was asked with. */
  ghost predicate AnswerFits(w: World) {
    Unsaved(w) ==> IsRouteAnswer(w.reply.value.known, w.server.published, w.reply.value.routes.value)
  }

  lemma KeepsFit(w: World, s: Step)
    requires Inv(w) && AnswerFits(w) && Enabled(w, s)
    ensures AnswerFits(Apply(w, s))
  {
    if s.Send? && s.reply.Some? && s.reply.value.routes.Some? {
      PublishMeaning(w.server.published, s.reply.value.routes.value.updates);
    }
  }

  lemma ListedOnce(active: seq<RouteRef>, a: RouteRef, version: Version)
    requires forall i, j :: 0 <= i < j < |active| ==> active[i].routeId != active[j].routeId
    requires a in active && Lists(active, a.routeId, version)
    ensures a.version == version
  {
    var b :| b in active && b.routeId == a.routeId && b.version == version;
    var i :| 0 <= i < |active| && active[i] == a;
    var j :| 0 <= j < |active| && active[j] == b;
  }

  /** Each route the answer lists comes with it, or is in the table at the listed version, active or not. */
  ghost predicate Supplied(routes: map<Uuid, Route>, answer: RouteAnswer) {
    forall a :: a in answer.active ==>
      Updates(answer.updates, a.routeId) || (a.routeId in routes && routes[a.routeId].version == a.version)
  }

  /** Each row's manifest, and each update's, is the one published under its version. */
  ghost predicate ArePublished(routes: map<Uuid, Route>, published: map<Version, M.Manifest>, updates: seq<RouteUpdate>) {
    && (forall r :: r in routes ==> routes[r].version in published && published[routes[r].version] == routes[r].manifest)
    && (forall u :: u in updates ==> u.version in published && published[u.version] == u.manifest)
  }

  ghost predicate ShownAs(routes: map<Uuid, Route>, published: map<Version, M.Manifest>, a: RouteRef) {
    && a.routeId in routes && routes[a.routeId].active
    && routes[a.routeId].version == a.version && routes[a.routeId].status == a.status
    && a.version in published && routes[a.routeId].manifest == published[a.version]
  }

  lemma ShownExactly(
    routes: map<Uuid, Route>, known: map<Uuid, Version>, published: map<Version, M.Manifest>, answer: RouteAnswer, a: RouteRef)
    requires IsRouteAnswer(known, published, answer) && a in answer.active && ArePublished(routes, published, answer.updates)
    ensures ShownAs(SavedRoutes(routes, answer), published, a)
            <==> Updates(answer.updates, a.routeId) || (a.routeId in routes && routes[a.routeId].version == a.version)
  {
    var off := Deactivated(routes);
    var updated := WithUpdates(off, answer.updates);
    UpdatesMeaning(off, answer.updates);
    ActiveMeaning(updated, answer.active);
    if Updates(answer.updates, a.routeId) {
      var u :| u in answer.updates && u.routeId == a.routeId;
      ListedOnce(answer.active, a, u.version);
    } else if a.routeId in routes {
      assert updated[a.routeId] == off[a.routeId];
    }
  }

  /** The save shows the answer exactly when every listed route was supplied. */
  lemma SavedExactly(
    routes: map<Uuid, Route>, known: map<Uuid, Version>, published: map<Version, M.Manifest>, answer: RouteAnswer)
    requires IsRouteAnswer(known, published, answer) && ArePublished(routes, published, answer.updates)
    ensures CacheIs(SavedRoutes(routes, answer), published, answer.active) <==> Supplied(routes, answer)
  {
    var off := Deactivated(routes);
    var updated := WithUpdates(off, answer.updates);
    var saved := SavedRoutes(routes, answer);
    forall a | a in answer.active
      ensures ShownAs(saved, published, a)
              <==> Updates(answer.updates, a.routeId) || (a.routeId in routes && routes[a.routeId].version == a.version)
    {
      ShownExactly(routes, known, published, answer, a);
    }
    UpdatesMeaning(off, answer.updates);
    ActiveMeaning(updated, answer.active);
    forall r | r in saved && saved[r].active ensures exists a :: a in answer.active && a.routeId == r {
      if updated[r].active {
        assert Updates(answer.updates, r);
        var u :| u in answer.updates && u.routeId == r;
        assert Lists(answer.active, u.routeId, u.version);
      }
    }
  }

  /** The versions reported are enough if the cache still holds them. */
  lemma ReportedIsSupplied(routes: map<Uuid, Route>, published: map<Version, M.Manifest>, answer: RouteAnswer)
    requires IsRouteAnswer(KnownVersions(routes), published, answer)
    ensures Supplied(routes, answer)
  {
  }

  /** Whenever an answer is saved, every route it lists was supplied. */
  ghost predicate SavesAreSupplied(w: World, run: seq<Step>)
    requires Legal(w, run)
  {
    if run == [] then true
    else
      LastStep(w, run);
      var before := After(w, run[..|run| - 1]);
      SavesAreSupplied(w, run[..|run| - 1])
      && (run[|run| - 1].SaveRoutes? ==> Supplied(before.db.routes, before.reply.value.routes.value))
  }

  lemma {:induction false} RunsKeepFit(start: World, run: seq<Step>)
    requires Initial(start) && Legal(start, run)
    ensures AnswerFits(After(start, run))
  {
    if run != [] {
      LastStep(start, run);
      RunsKeepFit(start, run[..|run| - 1]);
      RunsKeepInv(start, run[..|run| - 1]);
      KeepsFit(After(start, run[..|run| - 1]), run[|run| - 1]);
    }
  }

  /** Only a sign-out can break that: without one the versions reported are still the cache's when the answer is saved. */
  lemma {:induction false} OnlyWipesMatter(start: World, run: seq<Step>)
    requires Initial(start) && Legal(start, run) && forall i :: 0 <= i < |run| ==> !run[i].Wipe?
    ensures SavesAreSupplied(start, run) && !After(start, run).history.wiped
    ensures Unsaved(After(start, run)) ==> After(start, run).reply.value.known == KnownVersions(After(start, run).db.routes)
  {
    if run != [] {
      LastStep(start, run);
      OnlyWipesMatter(start, run[..|run| - 1]);
      var w, s := After(start, run[..|run| - 1]), run[|run| - 1];
      if s.SaveRoutes? {
        RunsKeepFit(start, run[..|run| - 1]);
        ReportedIsSupplied(w.db.routes, w.server.published, w.reply.value.routes.value);
      }
      assert s.DropRoutes? ==> KnownVersions(Apply(w, s).db.routes) == KnownVersions(w.db.routes);
    }
  }

  /**
   * After a save exactly the listed routes are active and each row is the server's, exactly when each listed route was
   * updated or was in the table at the listed version.
   */
  lemma CacheIsCoherent(start: World, run: seq<Step>)
    requires Initial(start) && Legal(start, run) && run != [] && run[|run| - 1].SaveRoutes?
    ensures Legal(start, run[..|run| - 1]) && Unsaved(After(start, run[..|run| - 1]))
    ensures var before, w := After(start, run[..|run| - 1]), After(start, run);
            var answer := before.reply.value.routes.value;
            CacheIs(w.db.routes, w.server.published, answer.active) <==> Supplied(before.db.routes, answer)
  {
    LastStep(start, run);
    var before := After(start, run[..|run| - 1]);
    RunsKeepFit(start, run[..|run| - 1]);
    RunsKeepInv(start, run[..|run| - 1]);
    SavedExactly(before.db.routes, before.reply.value.known, before.server.published, before.reply.value.routes.value);
  }
}
