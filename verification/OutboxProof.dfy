/** Which photos and signatures a delivery cites each time it is sent. */
module OutboxProof {
  import opened Common
  import opened OutboxModel
  import opened OutboxRuns

  /** Housekeeping takes a cited file, one is given up, or a sign-out takes them all. */
  ghost predicate Loses(w: World, s: Step, a: Action, purpose: MediaPurpose) {
    || (s.Prune? && exists m :: m in Citable(w.db, a, purpose) && !IsOpen(w.db.media[m]) && w.db.media[m].createdAt < s.olderThan)
    || (s.WriteMedia? && s.media.state.Lost? && s.m in Citable(w.db, a, purpose))
    || (s.Wipe? && Citable(w.db, a, purpose) != {})
  }

  /** A file gets its key. */
  ghost predicate Gains(w: World, s: Step, a: Action, purpose: MediaPurpose) {
    s.WriteMedia? && s.media.state.Slotted? && s.m in a.media && s.m in w.db.media && w.db.media[s.m].purpose == purpose
  }

  /** A waiting delivery can cite other files after a step exactly when one of them got its key, was given up, was pruned or went with a sign-out. */
  lemma CitedFilesChange(w: World, s: Step, k: Uuid, purpose: MediaPurpose)
    requires Reachable(w) && Enabled(w, s) && k in w.db.rows && w.db.rows[k].state.Pending?
    ensures var a := w.db.rows[k];
            Citable(Apply(w, s).db, a, purpose) == Citable(w.db, a, purpose)
            <==> !Loses(w, s, a, purpose) && !Gains(w, s, a, purpose)
  {
    ReachableIsSound(w);
    CitedFilesSteps(w, s, k, purpose);
  }

  lemma CitedFilesSteps(w: World, s: Step, k: Uuid, purpose: MediaPurpose)
    requires MediaIsSound(w) && MediaAreMinted(w) && Enabled(w, s) && k in w.db.rows && w.db.rows[k].state.Pending?
    ensures var a := w.db.rows[k];
            Citable(Apply(w, s).db, a, purpose) == Citable(w.db, a, purpose)
            <==> !Loses(w, s, a, purpose) && !Gains(w, s, a, purpose)
  {
    var a, b := w.db, Apply(w, s).db;
    var row := a.rows[k];
    forall m | m in a.media ensures MediumIsSound(w, m) {}
    if s.Wipe? {
      assert Citable(b, row, purpose) == {};
    } else if s.Enqueue? {
      forall m | m in row.media ensures m !in NewMedia(s) { assert m in w.history.captured; }
      assert Citable(b, row, purpose) == Citable(a, row, purpose);
    } else if s.Prune? {
      PruneTakes(w, s, row, purpose);
    } else if s.WriteMedia? {
      WriteMoves(w, s, row, purpose);
    }
  }

  lemma PruneTakes(w: World, s: Step, row: Action, purpose: MediaPurpose)
    requires s.Prune? && Enabled(w, s)
    ensures Citable(Apply(w, s).db, row, purpose) == Citable(w.db, row, purpose) <==> !Loses(w, s, row, purpose)
  {
    var a, b := w.db, Apply(w, s).db;
    if Loses(w, s, row, purpose) {
      var m :| m in Citable(a, row, purpose) && !IsOpen(a.media[m]) && a.media[m].createdAt < s.olderThan;
      assert m !in Citable(b, row, purpose);
    } else {
      forall m | m in Citable(a, row, purpose) ensures m in Citable(b, row, purpose) {}
    }
  }

  lemma WriteMoves(w: World, s: Step, row: Action, purpose: MediaPurpose)
    requires s.WriteMedia? && Enabled(w, s) && forall m :: m in w.db.media ==> MediumIsSound(w, m)
    ensures Citable(Apply(w, s).db, row, purpose) == Citable(w.db, row, purpose)
            <==> !Loses(w, s, row, purpose) && !Gains(w, s, row, purpose)
  {
    var before, after := Citable(w.db, row, purpose), Citable(Apply(w, s).db, row, purpose);
    assert s.m in w.db.media ==> MediumIsSound(w, s.m);
    assert forall m :: m != s.m ==> (m in before <==> m in after);
    assert before == after <==> (s.m in before <==> s.m in after);
  }

  // ── A week-old delivery ────────────────────────────────────────────────────

  const DELIVERY := Step.Enqueue(1, Delivered, 7, Payload("{}", Some("{}")), [5], [Photo], 0)
  const ROW := Action(0, Delivered, 7, Payload("{}", Some("{}")), [5], Pending, 0, None, None, 0)
  const SLOT := Slot(9, "key")
  const SLOTTING := WriteMedia(5, MediaPatch(Slotted, Some(9), Some("key"), None))
  const UPLOADING := WriteMedia(5, MediaPatch(Uploaded, None, None, Some(None)))

  const CAPTURED := Media(Photo, None, None, Captured, None, 0)
  const SLOTTED := Media(Photo, Some(9), Some("key"), Slotted, None, 0)
  const UPLOADED := Media(Photo, Some(9), Some("key"), Uploaded, None, 0)

  /** An answer without a result for the delivery: it is to be sent again. */
  const NO_RESULT := Reply([1], {}, {}, {}, map[], Some(RouteAnswer([], [])), false)

  function SendingWith(photos: seq<string>): Step {
    Send([Item(1, Delivered, 7, "{}", Some(Pod("{}", None, photos)))], {}, Some(NO_RESULT))
  }

  /** A flush slots the photo, sends the delivery without getting a result, and uploads the photo; then come housekeeping and the next flush. */
  const SENT_TWICE := [
    DELIVERY, Presign(5, SLOT), SLOTTING, SendingWith(["key"]), SaveRoutes, Complete(9), UPLOADING,
    Prune(1), SendingWith([])]

  /** The delivery waits, these are all the files there are, and the photo may have its slot. */
  ghost predicate Waits(w: World, media: map<Uuid, Media>, slots: map<Uuid, Slot>) {
    && w.db.rows == map[1 := ROW] && w.db.media == media && w.db.routes == map[]
    && w.server.slots == slots && w.history.captured == {5} && w.server.applied == []
  }

  lemma Recording(w: World)
    requires Initial(w)
    ensures Enabled(w, DELIVERY) && Waits(Apply(w, DELIVERY), map[5 := CAPTURED], map[])
  {
    assert FirstMedia(DELIVERY, 1) == FirstMedia(DELIVERY, 0)[5 := CAPTURED];
    assert NewMedia(DELIVERY) == map[5 := CAPTURED];
    assert Members([5]) == {5};
  }

  lemma SlottedThen(w: World)
    requires Waits(w, map[5 := CAPTURED], map[])
    ensures Enabled(w, Presign(5, SLOT)) && Enabled(Apply(w, Presign(5, SLOT)), SLOTTING)
    ensures Waits(Apply(Apply(w, Presign(5, SLOT)), SLOTTING), map[5 := SLOTTED], map[5 := SLOT])
  {
  }

  lemma SentWith(w: World, media: map<Uuid, Media>, order: seq<Uuid>, photos: seq<string>)
    requires Waits(w, media, map[5 := SLOT]) && (5 in media ==> media[5] == SLOTTED)
    requires (media == map[5 := SLOTTED] && order == [5] && photos == ["key"]) || (media == map[] && order == [] && photos == [])
    ensures Enabled(w, SendingWith(photos)) && Waits(Apply(w, SendingWith(photos)), media, map[5 := SLOT])
    ensures Unsaved(Apply(w, SendingWith(photos))) && Apply(w, SendingWith(photos)).reply == Some(NO_RESULT)
  {
    var s := SendingWith(photos);
    assert KeysOf(s.items) == [1] && AppliedKeys(w.server) == {};
    assert ListsKeysAs(w.db, Citable(w.db, ROW, Photo), photos, order);
    assert Citable(w.db, ROW, Signature) == {};
    assert MayItem(w, s.items[0]);
    assert KnownVersions(w.db.routes) == map[];
  }

  lemma UploadedThen(w: World)
    requires Waits(w, map[5 := SLOTTED], map[5 := SLOT]) && w.reply == Some(NO_RESULT)
    ensures Enabled(w, SaveRoutes)
    ensures var v := Apply(w, SaveRoutes);
            Enabled(v, Complete(9)) && Enabled(Apply(v, Complete(9)), UPLOADING)
            && Waits(Apply(Apply(v, Complete(9)), UPLOADING), map[5 := UPLOADED], map[5 := SLOT])
  {
    var v := Apply(w, SaveRoutes);
    assert v.server.slots[5].artifact == 9;
  }

  lemma StrippedThen(w: World)
    requires Waits(w, map[5 := UPLOADED], map[5 := SLOT])
    ensures Waits(Apply(w, Prune(1)), map[], map[5 := SLOT])
  {
  }

  lemma KeysHaveFiles(db: Db, ids: set<Uuid>, keys: seq<string>)
    requires ListsKeys(db, ids, keys)
    ensures keys != [] ==> ids != {}
  {
    if keys != [] {
      var order :| ListsKeysAs(db, ids, keys, order);
      assert order[0] in ids;
    }
  }

  lemma CitesNothing(w: World, item: Item)
    requires Waits(w, map[], map[5 := SLOT]) && IsItemOf(w, 1, item)
    ensures item.pod.Some? && item.pod.value.photos == []
  {
    assert Citable(w.db, ROW, Photo) == {};
    KeysHaveFiles(w.db, Citable(w.db, ROW, Photo), item.pod.value.photos);
  }

  lemma Sent(start: World, run: seq<Step>)
    requires Initial(start) && |run| == 9
    requires run[0] == DELIVERY && run[1] == Presign(5, SLOT) && run[2] == SLOTTING && run[3] == SendingWith(["key"])
    ensures Legal(start, run[..4]) && Waits(After(start, run[..4]), map[5 := SLOTTED], map[5 := SLOT])
    ensures After(start, run[..4]).reply == Some(NO_RESULT)
  {
    Recording(start);
    NextStep(start, run, 0);
    SlottedThen(After(start, run[..1]));
    NextTwo(start, run, 1);
    SentWith(After(start, run[..3]), map[5 := SLOTTED], [5], ["key"]);
    NextStep(start, run, 3);
  }

  lemma Stripped(start: World, run: seq<Step>)
    requires |run| == 9 && run[4] == SaveRoutes && run[5] == Complete(9) && run[6] == UPLOADING && run[7] == Prune(1)
    requires Legal(start, run[..4]) && Waits(After(start, run[..4]), map[5 := SLOTTED], map[5 := SLOT])
    requires After(start, run[..4]).reply == Some(NO_RESULT)
    ensures Legal(start, run[..8]) && Waits(After(start, run[..8]), map[], map[5 := SLOT])
  {
    UploadedThen(After(start, run[..4]));
    NextTwo(start, run, 4);
    NextStep(start, run, 6);
    StrippedThen(After(start, run[..7]));
    NextStep(start, run, 7);
  }

  /**
   * A delivery that has to be sent again goes without the photo it cited before: housekeeping does not spare its files.
   * The second item is the only one the delivery can be sent as.
   */
  lemma PruneStripsAWaitingDelivery(start: World)
    requires Initial(start)
    ensures Legal(start, SENT_TWICE) && Legal(start, SENT_TWICE[..8])
    ensures var w := After(start, SENT_TWICE[..8]);
            1 in w.db.rows && w.db.rows[1].state.Pending?
            && forall item :: IsItemOf(w, 1, item) ==> item.pod.Some? && item.pod.value.photos == []
  {
    var run := SENT_TWICE;
    Sent(start, run);
    Stripped(start, run);
    SentWith(After(start, run[..8]), map[], [], []);
    NextStep(start, run, 8);
    WholeRun(run);
    forall item | IsItemOf(After(start, run[..8]), 1, item) ensures item.pod.Some? && item.pod.value.photos == [] {
      CitesNothing(After(start, run[..8]), item);
    }
  }
}
