/** What may change in the device's tables while a flush waits: the rely of its proof. */
module OutboxMeanwhile {
  import opened Common
  import opened OutboxModel
  import opened OutboxRuns

  /** `k` was recorded after `a`. */
  ghost predicate IsNew(a: World, b: World, k: Uuid)
    requires Awaits(b, k)
  {
    RowOf(b, k).order >= a.db.nextOrder && k !in a.history.minted
  }

  /** Actions without an outcome stay as they are, in the table unless a sign-out took them; others are new. */
  ghost predicate RowsWait(a: World, b: World) {
    && a.db.nextOrder <= b.db.nextOrder && a.history.minted.Keys <= b.history.minted.Keys
    && a.history.lost.Keys <= b.history.lost.Keys
    && (forall k :: Awaits(a, k) ==> Stays(a, b, k))
    && (forall k :: Awaits(b, k) ==> Awaits(a, k) || IsNew(a, b, k))
  }

  /** The action still has no outcome, and its row still says, or said, the same. */
  ghost predicate Stays(a: World, b: World, k: Uuid)
    requires Awaits(a, k)
  {
    && Awaits(b, k) && RowOf(b, k) == RowOf(a, k)
    && (k in b.db.rows ==> k in a.db.rows) && (k in a.db.rows ==> k !in a.history.lost)
  }

  /** Files stay as they are or go with a sign-out, which takes every waiting action with them; others are new. */
  ghost predicate FilesWait(a: World, b: World) {
    && a.history.captured <= b.history.captured
    && (forall m :: m in b.db.media ==> (m in a.db.media && b.db.media[m] == a.db.media[m]) || m !in a.history.captured)
    && (forall k, m :: k in a.db.rows && Awaits(a, k) && k in b.db.rows && m in a.db.media ==> m in b.db.media)
    && (forall k, m :: k in a.db.rows && Awaits(a, k) && m in a.db.rows[k].media ==> m in a.history.captured)
  }

  /** No action is written, nothing is cleaned up, and active routes stay unless a sign-out takes them all. */
  ghost predicate RestWaits(a: World, b: World) {
    && (KnownVersions(b.db.routes) == KnownVersions(a.db.routes) || (KnownVersions(b.db.routes) == map[] && b.history.wiped))
    && (a.history.wiped ==> b.history.wiped) && (a.history.counted.Some? ==> b.history.counted.Some?)
    && a.history.accepted == b.history.accepted && a.history.refused == b.history.refused
    && a.history.escalated == b.history.escalated && a.history.writes == b.history.writes
    && a.history.prunes == b.history.prunes
  }

  ghost predicate Waiting(a: World, b: World) { RowsWait(a, b) && FilesWait(a, b) && RestWaits(a, b) }

  /** Nothing else happened: no call was made and no file settled. */
  ghost predicate Meanwhile(a: World, b: World) {
    && Waiting(a, b) && b.server == a.server && b.reply == a.reply
    && a.history.sends == b.history.sends && a.history.uploaded == b.history.uploaded && a.history.discarded == b.history.discarded
  }

  lemma ScreenStepIsMeanwhile(w: World, s: Step)
    requires Inv(w) && IsScreenStep(s) && Enabled(w, s)
    ensures Meanwhile(w, Apply(w, s))
    ensures Apply(w, s).db.nextOrder == w.db.nextOrder + if s.Enqueue? then 1 else 0
  {
    if s.Wipe? {
      WipeIsMeanwhile(w);
    } else if s.Enqueue? {
      EnqueueIsMeanwhile(w, s);
    } else {
      OtherIsMeanwhile(w, s);
    }
  }

  lemma OtherIsMeanwhile(w: World, s: Step)
    requires LostIsSound(w) && MediaAreMinted(w) && (s.Dismiss? || s.DropRoutes? || s.Count?)
    ensures Meanwhile(w, Apply(w, s)) && Apply(w, s).db.nextOrder == w.db.nextOrder
  {
    var v := Apply(w, s);
    forall k ensures (Awaits(v, k) <==> Awaits(w, k)) && (Awaits(w, k) ==> Stays(w, v, k)) {}
    assert KnownVersions(v.db.routes) == KnownVersions(w.db.routes);
  }

  lemma WipeIsMeanwhile(w: World)
    requires LostIsSound(w) && OutcomesAreSingle(w) && MediaAreMinted(w) && Enabled(w, Wipe)
    ensures Meanwhile(w, Apply(w, Wipe))
  {
    var v := Apply(w, Wipe);
    forall k | Awaits(w, k) ensures Stays(w, v, k) {}
    forall k | Awaits(v, k) ensures Awaits(w, k) {}
  }

  lemma EnqueueIsMeanwhile(w: World, s: Step)
    requires RowsAreIntents(w) && LostIsSound(w) && MediaAreMinted(w) && s.Enqueue? && Enabled(w, s)
    ensures Meanwhile(w, Apply(w, s))
  {
    var v := Apply(w, s);
    forall m | m in NewMedia(s) ensures m !in w.history.captured { assert m in s.photos; }
    forall k | k != s.id ensures (Awaits(v, k) <==> Awaits(w, k)) && (Awaits(w, k) ==> Stays(w, v, k)) {}
  }

  lemma WaitingTransitive(a: World, b: World, c: World)
    requires Waiting(a, b) && Waiting(b, c)
    ensures Waiting(a, c)
  {
    RowsTransitive(a, b, c);
    FilesTransitive(a, b, c);
  }

  lemma RowsTransitive(a: World, b: World, c: World)
    requires RowsWait(a, b) && RowsWait(b, c)
    ensures RowsWait(a, c)
  {
    forall k | Awaits(a, k) ensures Stays(a, c, k) { assert Stays(a, b, k) && Stays(b, c, k); }
  }

  lemma FilesTransitive(a: World, b: World, c: World)
    requires FilesWait(a, b) && FilesWait(b, c) && RowsWait(a, b) && RowsWait(b, c)
    ensures FilesWait(a, c)
  {
    forall k, m | k in a.db.rows && Awaits(a, k) && k in c.db.rows && m in a.db.media ensures m in c.db.media {
      assert Stays(a, b, k) && Stays(b, c, k);
    }
  }

  /** An item made from a waiting row stays its item. */
  lemma ItemSurvives(a: World, b: World, key: Uuid, item: Item)
    requires Waiting(a, b) && Awaits(a, key) && IsItemOf(a, key, item)
    ensures Awaits(b, key) && IsItemOf(b, key, item)
    ensures key in b.db.rows ==> key in a.db.rows && (Slottable(a.db, a.db.rows[key]) <==> Slottable(b.db, b.db.rows[key]))
  {
    assert Stays(a, b, key);
    if key in b.db.rows {
      FilesSurvive(a, b, key);
      CitationSurvives(a.db, b.db, a.db.rows[key], item);
    }
  }

  /** The two tables have the same rows for the files of the action. */
  ghost predicate SameFiles(a: Db, b: Db, row: Action) {
    forall m :: m in row.media ==> SameFile(a, b, m)
  }

  ghost predicate SameFile(a: Db, b: Db, m: Uuid) {
    (m in a.media <==> m in b.media) && (m in a.media ==> a.media[m] == b.media[m])
  }

  lemma FilesSurvive(a: World, b: World, key: Uuid)
    requires Waiting(a, b) && Awaits(a, key) && key in b.db.rows
    ensures key in a.db.rows && b.db.rows[key] == a.db.rows[key] && SameFiles(a.db, b.db, a.db.rows[key])
    ensures Slottable(a.db, a.db.rows[key]) <==> Slottable(b.db, a.db.rows[key])
  {
    assert Stays(a, b, key);
    forall m | m in a.db.rows[key].media ensures SameFile(a.db, b.db, m) {}
    forall m | m in a.db.rows[key].media && m in a.db.media ensures m in b.db.media && a.db.media[m] == b.db.media[m] {
      assert SameFile(a.db, b.db, m);
    }
  }

  lemma SameCitable(a: Db, b: Db, row: Action, purpose: MediaPurpose)
    requires SameFiles(a, b, row)
    ensures Citable(a, row, purpose) == Citable(b, row, purpose)
  {
    forall m ensures m in Citable(a, row, purpose) <==> m in Citable(b, row, purpose) {
      if m in row.media { assert SameFile(a, b, m); }
    }
  }

  lemma CitationSurvives(a: Db, b: Db, row: Action, item: Item)
    requires SameFiles(a, b, row) && Cites(a, row, item)
    ensures Cites(b, row, item)
  {
    SameCitable(a, b, row, Photo);
    SameCitable(a, b, row, Signature);
    if row.kind.Delivered? && item.pod.Some? {
      var pod := item.pod.value;
      var order :| ListsKeysAs(a, Citable(a, row, Photo), pod.photos, order);
      forall i | 0 <= i < |order| ensures order[i] in b.media && b.media[order[i]].objectKey == Some(pod.photos[i]) {
        assert order[i] in Citable(a, row, Photo) && SameFile(a, b, order[i]);
      }
      assert ListsKeysAs(b, Citable(b, row, Photo), pod.photos, order);
      assert ListsKeys(b, Citable(b, row, Photo), pod.photos);
      if pod.signature.Some? {
        var m :| IsKeyOf(a, row, m, pod.signature.value);
        assert IsKeyOf(b, row, m, pod.signature.value);
      }
    }
  }
}
