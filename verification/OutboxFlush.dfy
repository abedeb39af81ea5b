/** `flushOutbox`: slots, then actions oldest first, then a plain refresh if no batch did, then the uploads. */
module OutboxFlush {
  import opened Common
  import opened OutboxModel
  import opened OutboxRuns
  import opened OutboxMeanwhile
  import opened OutboxCalls
  import opened OutboxDevice
  import opened OutboxActions

  datatype FlushReport = FlushReport(tally: Tally, reachedServer: bool, offline: bool)

  // ── Slots ──────────────────────────────────────────────────────────────────

  /** The slots asked for in this flush are the server's. */
  ghost predicate AreSlots(server: Server, granted: map<Uuid, MediaSlot>) {
    forall m :: m in granted ==> m in server.slots && server.slots[m] == granted[m].slot
  }

  /** The open files other than `id` are as they were, if they are there. */
  ghost predicate FilesKept(a: Db, b: Db, id: Uuid) {
    forall m :: m in a.media && IsOpen(a.media[m]) && m != id && m in b.media ==> b.media[m] == a.media[m]
  }

  ghost predicate AtLeast(db: Db, m: Uuid, stage: nat) { m in db.media ==> Stage(db.media[m].state) >= stage }

  /** The file is not waiting for its slot. */
  ghost predicate HasSlot(db: Db, m: Uuid) { m in db.media ==> !db.media[m].state.Captured? }

  lemma MediaApplied(w: World, m: Uuid, patch: MediaPatch)
    requires LostIsSound(w) && MayWriteMedia(w, m, patch)
    ensures var v := Apply(w, WriteMedia(m, patch));
            && ActionsWait(w, v) && FilesKept(w.db, v.db, m) && v.server == w.server
            && (patch.state.Uploaded? ==> m in v.history.uploaded) && (HasSlot(w.db, m) ==> SlotsWait(w, v))
  {
    var v := Apply(w, WriteMedia(m, patch));
    assert v.db.rows == w.db.rows && v.db.nextOrder == w.db.nextOrder && v.server == w.server;
    forall k ensures (Awaits(v, k) <==> Awaits(w, k)) && (Awaits(w, k) ==> Stays(w, v, k)) {}
    if HasSlot(w.db, m) {
      forall k | Awaits(w, k) ensures SlotsStay(w, v, k) { WriteKeepsSlots(w, m, patch, k); }
    }
  }

  lemma WriteKeepsSlots(w: World, m: Uuid, patch: MediaPatch, k: Uuid)
    requires MayWriteMedia(w, m, patch) && HasSlot(w.db, m) && Awaits(w, k)
    ensures SlotsStay(w, Apply(w, WriteMedia(m, patch)), k)
  {
    var v := Apply(w, WriteMedia(m, patch));
    if k in w.db.rows && !Slottable(w.db, w.db.rows[k]) {
      var n :| n in w.db.rows[k].media && n in w.db.media && w.db.media[n].state.Captured?;
      assert n in v.db.media && v.db.media[n].state.Captured?;
    }
  }

  lemma ActionsTransitive(a: World, b: World, c: World)
    requires ActionsWait(a, b) && ActionsWait(b, c)
    ensures ActionsWait(a, c)
  {
    ShrinksTransitive(a, b, c);
    forall k | Awaits(a, k) ensures Stays(a, c, k) { assert Stays(a, b, k) && Stays(b, c, k); }
  }

  lemma SlotsTransitive(a: World, b: World, c: World)
    requires ActionsWait(a, b) && ActionsWait(b, c) && SlotsWait(a, b) && SlotsWait(b, c)
    ensures SlotsWait(a, c)
  {
    UndisturbedTransitive(a, b, c);
  }

  lemma MediaWrite(a: World, b: World, m: Uuid, patch: MediaPatch)
    requires LostIsSound(a) && MediaAreMinted(a) && MayWriteMedia(a, m, patch) && Meanwhile(Apply(a, WriteMedia(m, patch)), b)
    ensures ActionsWait(a, b) && FilesKept(a.db, b.db, m) && b.server == a.server
    ensures patch.state.Uploaded? ==> m in b.history.uploaded
    ensures HasSlot(a.db, m) ==> SlotsWait(a, b)
  {
    var mid := Apply(a, WriteMedia(m, patch));
    MediaApplied(a, m, patch);
    WaitingIsUndisturbed(mid, b);
    ActionsTransitive(a, mid, b);
    if HasSlot(a.db, m) { SlotsTransitive(a, mid, b); }
    forall n | n in a.db.media && IsOpen(a.db.media[n]) && n != m && n in b.db.media ensures b.db.media[n] == a.db.media[n] {
      assert mid.db.media[n] == a.db.media[n] && n in mid.history.captured;
    }
  }

  lemma WrittenRun(d: Device, m: Uuid, patch: MediaPatch)
    requires d.Valid() && MayWriteMedia(d.Now(), m, patch)
    ensures Legal(d.start, d.run + [WriteMedia(m, patch)])
    ensures After(d.start, d.run + [WriteMedia(m, patch)]) == Apply(d.Now(), WriteMedia(m, patch))
  {
    d.Extend(WriteMedia(m, patch));
  }

  /** Between two moments of a pass over the files, only `m` was written. */
  ghost predicate OnlyFile(a: World, b: World, m: Uuid) {
    ActionsWait(a, b) && FilesKept(a.db, b.db, m) && Forward(a, b)
  }

  /** One write to a file, which never goes back from there. */
  method SaveFile(d: Device, m: Uuid, patch: MediaPatch)
    requires d.Valid() && MayWriteMedia(d.Now(), m, patch)
    modifies d
    ensures d.Valid() && d.Budget() == old(d.Budget()) && d.calls == old(d.calls) && old(d.run) + [WriteMedia(m, patch)] <= d.run
    ensures OnlyFile(old(d.Now()), d.Now(), m) && d.server == old(d.server)
    ensures HasSlot(old(d.Now()).db, m) ==> SlotsWait(old(d.Now()), d.Now())
    ensures AtLeast(d.Now().db, m, Stage(patch.state))
    ensures patch.state.Uploaded? ==> m in d.history.uploaded
  {
    ghost var before, sofar := d.Now(), d.run;
    d.Sound();
    WrittenRun(d, m, patch);
    d.UpdateMedia(m, patch);
    MediaWrite(before, d.Now(), m, patch);
    d.WentForward(Apply(before, WriteMedia(m, patch)), sofar + [WriteMedia(m, patch)]);
    d.WentForward(before, sofar);
  }

  lemma StepsCompose(a: World, b: World, c: World, m: Uuid)
    requires OnlyFile(a, b, m) && OnlyFile(b, c, m) && MediaAreMinted(a)
    ensures OnlyFile(a, c, m)
  {
    ActionsTransitive(a, b, c);
    forall n | n in a.db.media && IsOpen(a.db.media[n]) && n != m && n in c.db.media ensures c.db.media[n] == a.db.media[n] {
      assert n in a.history.captured && n in b.history.captured && n in b.db.media;
    }
  }

  lemma WaitingKeepsFiles(a: World, b: World, m: Uuid)
    requires Waiting(a, b)
    ensures Undisturbed(a, b)
    ensures MediaAreMinted(a) ==> FilesKept(a.db, b.db, m)
  {
    WaitingIsUndisturbed(a, b);
    if MediaAreMinted(a) {
      forall n | n in a.db.media && n in b.db.media ensures b.db.media[n] == a.db.media[n] { assert n in a.history.captured; }
    }
  }

  /** Since `earlier` the file was written so. */
  ghost predicate Wrote(earlier: seq<Step>, run: seq<Step>, m: Uuid, patch: MediaPatch) {
    exists k :: |earlier| <= k < |run| && run[k] == WriteMedia(m, patch)
  }

  lemma WroteIn(a: seq<Step>, b: seq<Step>, c: seq<Step>, m: Uuid, patch: MediaPatch)
    requires a <= b && b + [WriteMedia(m, patch)] <= c
    ensures Wrote(a, c, m, patch)
  {
    assert c[|b|] == (b + [WriteMedia(m, patch)])[|b|];
  }

  /** A file granted a slot gets its artifact and key, and one refused it is given up. */
  ghost predicate WroteSlot(earlier: seq<Step>, run: seq<Step>, m: Uuid, outcome: Attempt<MediaSlot>) {
    match outcome
    case Transient => true
    case RefusedCall(code, _) => Wrote(earlier, run, m, MediaPatch(Lost, None, None, Some(Some(code))))
    case Ok(answer) => Wrote(earlier, run, m, MediaPatch(Slotted, Some(answer.slot.artifact), Some(answer.slot.objectKey), None))
  }

  /** What the calls from number `from` on say: whether one was transient, and that no envelope with actions was refused. */
  ghost predicate Told(offline: bool, calls: seq<Call>, from: nat) {
    (offline <==> SomeTransient(calls, from)) && !SomeBatchRefused(calls, from)
  }

  lemma StillFile(a: World, b: World, f: File)
    requires IsFile(a, f) && Forward(a, b) && FilesWait(a, b)
    ensures IsFile(b, f)
  {
  }

  /** Asks for a slot of a file, which stays as it was read meanwhile. */
  method AskSlot(d: Device, f: File, ghost granted: map<Uuid, MediaSlot>) returns (outcome: Attempt<MediaSlot>)
    requires d.Valid() && IsFile(d.Now(), f) && AreSlots(d.server, granted)
    modifies d
    ensures d.Valid() && d.Budget() == old(d.Budget()) && old(d.run) <= d.run
    ensures d.calls == old(d.calls) + [PresignCall(f.id, outcome)]
    ensures OnlyFile(old(d.Now()), d.Now(), f.id) && SlotsWait(old(d.Now()), d.Now())
    ensures IsFile(d.Now(), f) && AreSlots(d.server, granted)
    ensures outcome.Ok? ==> f.id in d.server.slots && d.server.slots[f.id] == outcome.value.slot
  {
    ghost var before, sofar := d.Now(), d.run;
    d.Sound();
    outcome := d.Presign(f.id);
    WaitingKeepsFiles(before, d.Now(), f.id);
    d.WentForward(before, sofar);
    StillFile(before, d.Now(), f);
  }

  /** Writes what became of a captured file's request for a slot. */
  method RecordSlot(d: Device, f: File, slot: Attempt<MediaSlot>)
    requires d.Valid() && IsFile(d.Now(), f) && f.row.state.Captured? && !slot.Transient?
    requires slot.Ok? ==> f.id in d.server.slots && d.server.slots[f.id] == slot.value.slot
    modifies d
    ensures d.Valid() && d.Budget() == old(d.Budget()) && d.calls == old(d.calls)
    ensures old(d.run) <= d.run && forall earlier :: earlier <= old(d.run) ==> WroteSlot(earlier, d.run, f.id, slot)
    ensures OnlyFile(old(d.Now()), d.Now(), f.id) && d.server == old(d.server) && AtLeast(d.Now().db, f.id, 1)
  {
    ghost var sofar := d.run;
    ghost var patch;
    match slot {
      case RefusedCall(code, _) =>
        patch := MediaPatch(Lost, None, None, Some(Some(code)));
        SaveFile(d, f.id, MediaPatch(Lost, None, None, Some(Some(code))));
      case Ok(answer) =>
        patch := MediaPatch(Slotted, Some(answer.slot.artifact), Some(answer.slot.objectKey), None);
        SaveFile(d, f.id, MediaPatch(Slotted, Some(answer.slot.artifact), Some(answer.slot.objectKey), None));
    }
    forall earlier | earlier <= sofar ensures Wrote(earlier, d.run, f.id, patch) { WroteIn(earlier, sofar, d.run, f.id, patch); }
  }

  /** Presigns one captured file. */
  method SlotOne(d: Device, f: File, granted: map<Uuid, MediaSlot>)
    returns (offline: bool, granted': map<Uuid, MediaSlot>, ghost outcome: Attempt<MediaSlot>)
    requires d.Valid() && IsFile(d.Now(), f) && f.row.state.Captured? && AreSlots(d.server, granted)
    modifies d
    ensures d.Valid() && d.Budget() == old(d.Budget()) && old(d.run) <= d.run
    ensures OnlyFile(old(d.Now()), d.Now(), f.id) && AreSlots(d.server, granted')
    ensures d.calls == old(d.calls) + [PresignCall(f.id, outcome)] && (offline <==> outcome.Transient?)
    ensures !offline ==> AtLeast(d.Now().db, f.id, 1) && WroteSlot(old(d.run), d.run, f.id, outcome)
    ensures granted' == if outcome.Ok? then granted[f.id := outcome.value] else granted
  {
    ghost var before := d.Now();
    d.Sound();
    granted', offline := granted, false;
    var slot := AskSlot(d, f, granted);
    outcome := slot;
    ghost var asked := d.Now();
    if slot.Transient? {
      offline := true;
    } else {
      if slot.Ok? { granted' := granted[f.id := slot.value]; }
      RecordSlot(d, f, slot);
      StepsCompose(before, asked, d.Now(), f.id);
    }
  }

  /** The files from position `i` on are still as they were read, if they are there. */
  ghost predicate Still(w: World, files: seq<File>, i: nat) {
    forall j :: i <= j < |files| ==> IsFile(w, files[j])
  }

  /** Open files, each once. */
  ghost predicate DistinctFiles(files: seq<File>) {
    && (forall i :: 0 <= i < |files| ==> IsOpen(files[i].row))
    && forall i, j :: 0 <= i < j < |files| ==> files[i].id != files[j].id
  }

  lemma StillNext(a: World, b: World, files: seq<File>, i: nat)
    requires i < |files| && DistinctFiles(files) && Still(a, files, i) && FilesKept(a.db, b.db, files[i].id) && Forward(a, b)
    ensures Still(b, files, i + 1)
  {
    forall j | i + 1 <= j < |files| ensures IsFile(b, files[j]) { assert IsFile(a, files[j]); }
  }

  /** None of the files `ids` is behind `stage`, unless it is still to come in the list. */
  ghost predicate Reached(ids: set<Uuid>, db: Db, files: seq<File>, i: nat, stage: nat) {
    forall m :: m in ids && !AtLeast(db, m, stage) ==> exists j :: i <= j < |files| && files[j].id == m
  }

  ghost predicate AllAtLeast(db: Db, ids: set<Uuid>, stage: nat) { forall m :: m in ids ==> AtLeast(db, m, stage) }

  lemma StaysAtLeast(a: World, b: World, m: Uuid, stage: nat)
    requires Forward(a, b) && m in a.history.captured && AtLeast(a.db, m, stage)
    ensures AtLeast(b.db, m, stage)
  {
  }

  lemma AllStay(a: World, b: World, ids: set<Uuid>, stage: nat)
    requires Forward(a, b) && ids <= a.history.captured && AllAtLeast(a.db, ids, stage)
    ensures AllAtLeast(b.db, ids, stage) && ids <= b.history.captured
  {
    forall m | m in ids ensures AtLeast(b.db, m, stage) { StaysAtLeast(a, b, m, stage); }
  }

  lemma ReachedNext(ids: set<Uuid>, b: World, c: World, files: seq<File>, i: nat, stage: nat)
    requires i < |files| && Reached(ids, b.db, files, i, stage) && ids <= b.history.captured && Forward(b, c)
    requires files[i].id in ids ==> AtLeast(c.db, files[i].id, stage)
    ensures Reached(ids, c.db, files, i + 1, stage)
  {
    forall m | m in ids && !AtLeast(c.db, m, stage) ensures exists j :: i + 1 <= j < |files| && files[j].id == m {
      if AtLeast(b.db, m, stage) { StaysAtLeast(b, c, m, stage); }
      var j :| i <= j < |files| && files[j].id == m;
    }
  }

  lemma ReadReached(a: World, b: World, files: seq<File>)
    requires MediaAreMinted(a) && Forward(a, b)
    requires forall m :: m in a.db.media && IsOpen(a.db.media[m]) ==> ListsFile(files, m)
    ensures forall stage :: stage <= 2 ==> Reached(a.history.captured, b.db, files, 0, stage)
  {
    forall stage: nat, m | stage <= 2 && m in a.history.captured && !AtLeast(b.db, m, stage)
      ensures exists j :: 0 <= j < |files| && files[j].id == m
    {
      assert IsOpen(a.db.media[m]);
      assert ListsFile(files, m);
    }
  }

  method ReadOpen(d: Device) returns (files: seq<File>)
    requires d.Valid()
    modifies d
    ensures d.Valid() && d.Budget() == old(d.Budget()) && d.calls == old(d.calls) && old(d.run) <= d.run
    ensures Undisturbed(old(d.Now()), d.Now()) && d.server == old(d.server) && Forward(old(d.Now()), d.Now())
    ensures Still(d.Now(), files, 0) && DistinctFiles(files)
    ensures forall stage :: stage <= 2 ==> Reached(old(d.history.captured), d.Now().db, files, 0, stage)
  {
    d.Sound();
    ghost var start, sofar := d.Now(), d.run;
    files := d.OpenMedia();
    WaitingIsUndisturbed(start, d.Now());
    d.WentForward(start, sofar);
    ReadReached(start, d.Now(), files);
  }

  /** Where a pass over the open files stands before file `i`. */
  ghost predicate Pass(ids: set<Uuid>, start: World, now: World, files: seq<File>, i: nat, stage: nat) {
    && ActionsWait(start, now) && Still(now, files, i) && DistinctFiles(files)
    && ids <= now.history.captured && Reached(ids, now.db, files, i, stage)
  }

  lemma PassNext(ids: set<Uuid>, start: World, a: World, b: World, files: seq<File>, i: nat, stage: nat)
    requires i < |files| && Pass(ids, start, a, files, i, stage) && OnlyFile(a, b, files[i].id)
    requires files[i].id in ids ==> AtLeast(b.db, files[i].id, stage)
    ensures Pass(ids, start, b, files, i + 1, stage)
  {
    StillNext(a, b, files, i);
    ReachedNext(ids, a, b, files, i, stage);
    ActionsTransitive(start, a, b);
  }

  lemma Untouched(w: World, m: Uuid)
    requires LostIsSound(w)
    ensures OnlyFile(w, w, m) && SlotsWait(w, w)
  {
    forall k | Awaits(w, k) ensures Stays(w, w, k) {}
  }

  /** Slots for the captured files. Online, no file of before is left without one. */
  method SlotPhase(d: Device) returns (offline: bool, granted: map<Uuid, MediaSlot>, reached: bool)
    requires d.Valid()
    modifies d
    ensures d.Valid() && d.Budget() == old(d.Budget()) && old(d.run) <= d.run
    ensures old(d.calls) <= d.calls && Told(offline, d.calls, |old(d.calls)|)
    ensures reached <==> SomeAnswered(d.calls, |old(d.calls)|)
    ensures ActionsWait(old(d.Now()), d.Now()) && AreSlots(d.server, granted)
    ensures !offline ==> AllAtLeast(d.Now().db, old(d.history.captured), 1)
  {
    ghost var start, made := d.Now(), d.calls;
    offline, granted, reached := false, map[], false;
    NoCall(made);
    var files := ReadOpen(d);
    for i := 0 to |files|
      invariant d.Valid() && d.Budget() == old(d.Budget()) && old(d.run) <= d.run
      invariant made <= d.calls && Told(false, d.calls, |made|) && (reached <==> SomeAnswered(d.calls, |made|))
      invariant AreSlots(d.server, granted) && Pass(start.history.captured, start, d.Now(), files, i, 1)
    {
      ghost var before, asked := d.Now(), d.calls;
      if files[i].row.state.Captured? {
        ghost var outcome;
        offline, granted, outcome := SlotOne(d, files[i], granted);
        OneCall(asked, PresignCall(files[i].id, outcome));
        Earlier(asked, d.calls, |made|);
        ActionsTransitive(start, before, d.Now());
        if offline { return; }
        reached := true;
      } else {
        d.Sound();
        Untouched(before, files[i].id);
      }
      PassNext(start.history.captured, start, before, d.Now(), files, i, 1);
    }
  }

  // ── The refresh ────────────────────────────────────────────────────────────

  method AskRefresh(d: Device) returns (outcome: Attempt<SyncResponse>)
    requires d.Valid()
    modifies d
    ensures d.Valid() && d.Budget() == old(d.Budget()) && old(d.run) <= d.run && Undisturbed(old(d.Now()), d.Now())
    ensures d.calls == old(d.calls) + [SyncCall([], outcome)] && d.server.slots == old(d.server.slots)
    ensures outcome.Ok? ==> Unsaved(d.Now()) && d.reply.value.routes.value == RouteAnswer(outcome.value.active, outcome.value.updates)
    ensures outcome.Ok? ==> exists k :: |old(d.run)| <= k < |d.run| && IsAnsweredSync(d.run[k])
  {
    ghost var start := d.Now();
    var known := d.RouteVersions();
    ghost var asking := d.Now();
    assert KeysOf([]) == [];
    outcome := d.Sync([], known);
    WaitingTransitive(start, asking, d.Now());
    WaitingIsUndisturbed(start, d.Now());
  }

  /** A plain sync, when no batch did one. A refused one changes nothing. */
  method RefreshPhase(d: Device, ghost granted: map<Uuid, MediaSlot>)
    returns (offline: bool, reached: bool, ghost outcome: Attempt<SyncResponse>)
    requires d.Valid() && AreSlots(d.server, granted)
    modifies d
    ensures d.Valid() && d.Budget() == old(d.Budget()) && old(d.run) <= d.run && Undisturbed(old(d.Now()), d.Now())
    ensures AreSlots(d.server, granted) && d.calls == old(d.calls) + [SyncCall([], outcome)]
    ensures (offline <==> outcome.Transient?) && (reached <==> outcome.Ok?) && (outcome.Ok? ==> Saved(old(d.run), d.run))
  {
    ghost var start := d.Now();
    offline, reached := false, false;
    var answer := AskRefresh(d);
    outcome := answer;
    ghost var answered, sofar := d.Now(), d.run;
    match answer {
      case Transient => offline := true;
      case RefusedCall(_, _) =>
      case Ok(response) =>
        d.Sound();
        d.SaveRoutes(response.active, response.updates);
        SavedIsWaiting(answered, d.Now());
        UndisturbedTransitive(start, answered, d.Now());
        reached := true;
        SavedAfterCall(old(d.run), sofar, d.run);
    }
  }

  // ── Uploads ────────────────────────────────────────────────────────────────

  /** The slot this flush has, or the same slot asked for again. */
  method SlotFor(d: Device, f: File, granted: map<Uuid, MediaSlot>) returns (outcome: Attempt<MediaSlot>)
    requires d.Valid() && IsFile(d.Now(), f) && AreSlots(d.server, granted)
    modifies d
    ensures d.Valid() && d.Budget() == old(d.Budget()) && old(d.run) <= d.run
    ensures OnlyFile(old(d.Now()), d.Now(), f.id) && SlotsWait(old(d.Now()), d.Now())
    ensures IsFile(d.Now(), f) && AreSlots(d.server, granted)
    ensures if f.id in granted then outcome == Ok(granted[f.id]) && d.calls == old(d.calls)
            else d.calls == old(d.calls) + [PresignCall(f.id, outcome)]
  {
    if f.id in granted {
      outcome := Ok(granted[f.id]);
      d.Sound();
      Untouched(d.Now(), f.id);
    } else {
      outcome := AskSlot(d, f, granted);
    }
  }

  /** The calls of a delivered file: a slot unless the flush had one, the upload unless it landed before, the completion. */
  function DeliveryCalls(had: bool, m: Uuid, artifact: Uuid, slot: MediaSlot): seq<Call> {
    (if had then [] else [PresignCall(m, Ok(slot))])
    + (if slot.uploadUrl.Some? then [UploadCall(m, slot.uploadUrl.value, Ok(()))] else [])
    + [CompleteCall(artifact, Ok(()))]
  }

  lemma WaitedFile(a: World, b: World, f: File)
    requires Waiting(a, b) && Forward(a, b) && MediaAreMinted(a) && IsFile(a, f)
    ensures OnlyFile(a, b, f.id) && SlotsWait(a, b) && IsFile(b, f)
  {
    WaitingKeepsFiles(a, b, f.id);
    StillFile(a, b, f);
  }

  lemma DeliveryComposes(a: World, b: World, c: World, m: Uuid)
    requires OnlyFile(a, b, m) && OnlyFile(b, c, m) && SlotsWait(a, b) && SlotsWait(b, c) && MediaAreMinted(a)
    ensures OnlyFile(a, c, m) && SlotsWait(a, c)
  {
    StepsCompose(a, b, c, m);
    SlotsTransitive(a, b, c);
  }

  method Put(d: Device, f: File, url: string, ghost granted: map<Uuid, MediaSlot>) returns (outcome: Attempt<()>)
    requires d.Valid() && IsFile(d.Now(), f) && AreSlots(d.server, granted)
    modifies d
    ensures d.Valid() && d.Budget() == old(d.Budget()) && old(d.run) <= d.run
    ensures OnlyFile(old(d.Now()), d.Now(), f.id) && SlotsWait(old(d.Now()), d.Now())
    ensures IsFile(d.Now(), f) && AreSlots(d.server, granted)
    ensures d.calls == old(d.calls) + [UploadCall(f.id, url, outcome)]
  {
    ghost var start, sofar := d.Now(), d.run;
    d.Sound();
    outcome := d.Upload(f.id, url);
    d.WentForward(start, sofar);
    WaitedFile(start, d.Now(), f);
  }

  method Completed(d: Device, f: File, ghost granted: map<Uuid, MediaSlot>) returns (outcome: Attempt<()>)
    requires d.Valid() && IsFile(d.Now(), f) && f.row.state.Slotted? && AreSlots(d.server, granted)
    modifies d
    ensures d.Valid() && d.Budget() == old(d.Budget()) && old(d.run) <= d.run
    ensures OnlyFile(old(d.Now()), d.Now(), f.id) && SlotsWait(old(d.Now()), d.Now())
    ensures IsFile(d.Now(), f) && AreSlots(d.server, granted)
    ensures d.calls == old(d.calls) + [CompleteCall(f.row.artifact.value, outcome)]
    ensures outcome.Ok? ==> f.row.artifact.value in d.server.completed
  {
    ghost var start, sofar := d.Now(), d.run;
    d.Sound();
    outcome := d.CompleteMedia(f.row.artifact.value);
    d.WentForward(start, sofar);
    WaitedFile(start, d.Now(), f);
  }

  lemma PutTold(made: seq<Call>, put: Call, completion: Call)
    requires put.UploadCall? && completion.CompleteCall? && put.upload.Ok?
    ensures var c := made + [put] + [completion];
            Told(completion.completion.Transient?, c, |made|) && SomeAnswered(c, |made|)
    ensures put.upload == Ok(()) && (completion.completion.Ok? ==> completion.completion == Ok(()))
  {
    TwoCalls(made, put, completion);
    OnlyOk(put.upload);
    if completion.completion.Ok? { OnlyOk(completion.completion); }
  }

  method PutAndComplete(d: Device, f: File, url: string, ghost granted: map<Uuid, MediaSlot>) returns (outcome: Attempt<()>)
    requires d.Valid() && IsFile(d.Now(), f) && f.row.state.Slotted? && AreSlots(d.server, granted)
    modifies d
    ensures d.Valid() && d.Budget() == old(d.Budget()) && old(d.run) <= d.run
    ensures OnlyFile(old(d.Now()), d.Now(), f.id) && SlotsWait(old(d.Now()), d.Now())
    ensures IsFile(d.Now(), f) && AreSlots(d.server, granted)
    ensures old(d.calls) <= d.calls && Told(outcome.Transient?, d.calls, |old(d.calls)|)
    ensures !outcome.Transient? ==> SomeAnswered(d.calls, |old(d.calls)|)
    ensures outcome.Ok? ==>
              && d.calls == old(d.calls) + [UploadCall(f.id, url, Ok(()))] + [CompleteCall(f.row.artifact.value, Ok(()))]
              && f.row.artifact.value in d.server.completed
  {
    ghost var start, made := d.Now(), d.calls;
    d.Sound();
    var put := Put(d, f, url, granted);
    outcome := put;
    ghost var uploaded := d.Now();
    if put.Ok? {
      outcome := Completed(d, f, granted);
      PutTold(made, UploadCall(f.id, url, put), CompleteCall(f.row.artifact.value, outcome));
      DeliveryComposes(start, uploaded, d.Now(), f.id);
    } else {
      OneCall(made, UploadCall(f.id, url, put));
    }
  }

  /** The upload, if there is a place for it, then the completion. */
  method UploadAndComplete(d: Device, f: File, url: Option<string>, ghost granted: map<Uuid, MediaSlot>) returns (outcome: Attempt<()>)
    requires d.Valid() && IsFile(d.Now(), f) && f.row.state.Slotted? && AreSlots(d.server, granted)
    modifies d
    ensures d.Valid() && d.Budget() == old(d.Budget()) && old(d.run) <= d.run
    ensures OnlyFile(old(d.Now()), d.Now(), f.id) && SlotsWait(old(d.Now()), d.Now())
    ensures IsFile(d.Now(), f) && AreSlots(d.server, granted)
    ensures old(d.calls) <= d.calls && Told(outcome.Transient?, d.calls, |old(d.calls)|)
    ensures !outcome.Transient? ==> SomeAnswered(d.calls, |old(d.calls)|)
    ensures outcome.Ok? ==>
              && d.calls == old(d.calls) + (if url.Some? then [UploadCall(f.id, url.value, Ok(()))] else [])
                            + [CompleteCall(f.row.artifact.value, Ok(()))]
              && f.row.artifact.value in d.server.completed
  {
    if url.None? {
      ghost var made := d.calls;
      outcome := Completed(d, f, granted);
      OneCall(made, CompleteCall(f.row.artifact.value, outcome));
      assert made + [] == made;
      if outcome.Ok? { OnlyOk(outcome); }
    } else {
      outcome := PutAndComplete(d, f, url.value, granted);
    }
  }

  /** The calls for one file, each only if the one before succeeded. */
  method Deliver(d: Device, f: File, granted: map<Uuid, MediaSlot>) returns (outcome: Attempt<()>, ghost slot: MediaSlot)
    requires d.Valid() && IsFile(d.Now(), f) && f.row.state.Slotted? && AreSlots(d.server, granted)
    modifies d
    ensures d.Valid() && d.Budget() == old(d.Budget()) && old(d.run) <= d.run
    ensures OnlyFile(old(d.Now()), d.Now(), f.id) && SlotsWait(old(d.Now()), d.Now())
    ensures IsFile(d.Now(), f) && AreSlots(d.server, granted)
    ensures old(d.calls) <= d.calls && Told(outcome.Transient?, d.calls, |old(d.calls)|)
    ensures !outcome.Transient? ==> SomeAnswered(d.calls, |old(d.calls)|)
    ensures outcome.Ok? ==>
              && (f.id in granted ==> slot == granted[f.id])
              && d.calls == old(d.calls) + DeliveryCalls(f.id in granted, f.id, f.row.artifact.value, slot)
              && f.row.artifact.value in d.server.completed
  {
    ghost var start, made := d.Now(), d.calls;
    d.Sound();
    slot := MediaSlot(Slot(0, ""), None);
    var granting := SlotFor(d, f, granted);
    ghost var slotted, asked := d.Now(), d.calls;
    if f.id in granted { NoCall(made); } else { OneCall(made, PresignCall(f.id, granting)); }
    match granting {
      case Transient => outcome := Transient;
      case RefusedCall(code, detail) => outcome := RefusedCall(code, detail);
      case Ok(s) =>
        slot := s;
        outcome := UploadAndComplete(d, f, s.uploadUrl, granted);
        DeliveryComposes(start, slotted, d.Now(), f.id);
        DeliveryTold(made, asked, d.calls, f, slot, f.id in granted, outcome);
    }
  }

  lemma DeliveryTold(a: seq<Call>, b: seq<Call>, c: seq<Call>, f: File, slot: MediaSlot, had: bool, outcome: Attempt<()>)
    requires f.row.artifact.Some? && b == (if had then a else a + [PresignCall(f.id, Ok(slot))])
    requires b <= c && Told(outcome.Transient?, c, |b|) && (!outcome.Transient? ==> SomeAnswered(c, |b|))
    requires outcome.Ok? ==>
               c == b + (if slot.uploadUrl.Some? then [UploadCall(f.id, slot.uploadUrl.value, Ok(()))] else [])
                    + [CompleteCall(f.row.artifact.value, Ok(()))]
    ensures a <= c && Told(outcome.Transient?, c, |a|) && (!outcome.Transient? ==> SomeAnswered(c, |a|))
    ensures outcome.Ok? ==> c == a + DeliveryCalls(had, f.id, f.row.artifact.value, slot)
  {
    if had { NoCall(a); } else { OneCall(a, PresignCall(f.id, Ok(slot))); }
    Earlier(b, c, |a|);
  }

  /** A delivered file is uploaded, and its error cleared; a refused one is given up. */
  ghost predicate WroteUpload(earlier: seq<Step>, run: seq<Step>, m: Uuid, outcome: Attempt<()>) {
    match outcome
    case Transient => true
    case RefusedCall(code, _) => Wrote(earlier, run, m, MediaPatch(Lost, None, None, Some(Some(code))))
    case Ok(_) => Wrote(earlier, run, m, MediaPatch(Uploaded, None, None, Some(None)))
  }

  /**
   * Uploads one slotted file. A file counts as uploaded, and its local copy goes, only after the calls that put it where
   * its slot says and completed it there.
   */
  method UploadOne(d: Device, f: File, granted: map<Uuid, MediaSlot>)
    returns (offline: bool, ghost outcome: Attempt<()>, ghost slot: MediaSlot)
    requires d.Valid() && IsFile(d.Now(), f) && f.row.state.Slotted? && AreSlots(d.server, granted)
    modifies d
    ensures d.Valid() && d.Budget() == old(d.Budget()) && old(d.run) <= d.run
    ensures OnlyFile(old(d.Now()), d.Now(), f.id) && SlotsWait(old(d.Now()), d.Now()) && AreSlots(d.server, granted)
    ensures old(d.calls) <= d.calls && Told(offline, d.calls, |old(d.calls)|)
    ensures !offline ==> SomeAnswered(d.calls, |old(d.calls)|)
    ensures offline <==> outcome.Transient?
    ensures !offline ==> AtLeast(d.Now().db, f.id, 2) && WroteUpload(old(d.run), d.run, f.id, outcome)
    ensures outcome.Ok? ==>
              && f.id in d.history.discarded && f.row.artifact.value in d.server.completed
              && (f.id in granted ==> slot == granted[f.id])
              && d.calls == old(d.calls) + DeliveryCalls(f.id in granted, f.id, f.row.artifact.value, slot)
  {
    ghost var before := d.Now();
    d.Sound();
    offline := false;
    var delivery;
    delivery, slot := Deliver(d, f, granted);
    outcome := delivery;
    ghost var answered := d.Now();
    if delivery.Transient? {
      offline := true;
    } else {
      RecordUpload(d, f, delivery);
      DeliveryComposes(before, answered, d.Now(), f.id);
    }
  }

  /** Writes what became of a slotted file's upload. */
  method RecordUpload(d: Device, f: File, delivery: Attempt<()>)
    requires d.Valid() && IsFile(d.Now(), f) && f.row.state.Slotted? && !delivery.Transient?
    requires delivery.Ok? ==> f.row.artifact.value in d.server.completed
    modifies d
    ensures d.Valid() && d.Budget() == old(d.Budget()) && d.calls == old(d.calls)
    ensures old(d.run) <= d.run && forall earlier :: earlier <= old(d.run) ==> WroteUpload(earlier, d.run, f.id, delivery)
    ensures OnlyFile(old(d.Now()), d.Now(), f.id) && SlotsWait(old(d.Now()), d.Now()) && d.server == old(d.server)
    ensures AtLeast(d.Now().db, f.id, 2) && (delivery.Ok? ==> f.id in d.history.discarded)
  {
    ghost var sofar := d.run;
    ghost var patch;
    match delivery {
      case RefusedCall(code, _) =>
        patch := MediaPatch(Lost, None, None, Some(Some(code)));
        SaveFile(d, f.id, MediaPatch(Lost, None, None, Some(Some(code))));
      case Ok(_) =>
        patch := MediaPatch(Uploaded, None, None, Some(None));
        MarkUploaded(d, f);
    }
    forall earlier | earlier <= sofar ensures Wrote(earlier, d.run, f.id, patch) { WroteIn(earlier, sofar, d.run, f.id, patch); }
  }

  /** The file is on the server: it counts as uploaded, and its local copy goes. */
  method MarkUploaded(d: Device, f: File)
    requires d.Valid() && IsFile(d.Now(), f) && f.row.state.Slotted? && f.row.artifact.value in d.server.completed
    modifies d
    ensures d.Valid() && d.Budget() == old(d.Budget()) && d.calls == old(d.calls)
    ensures old(d.run) + [WriteMedia(f.id, MediaPatch(Uploaded, None, None, Some(None)))] <= d.run
    ensures OnlyFile(old(d.Now()), d.Now(), f.id) && SlotsWait(old(d.Now()), d.Now()) && d.server == old(d.server)
    ensures AtLeast(d.Now().db, f.id, 2) && f.id in d.history.discarded
  {
    ghost var before := d.Now();
    d.Sound();
    SaveFile(d, f.id, MediaPatch(Uploaded, None, None, Some(None)));
    ghost var uploaded, sofar := d.Now(), d.run;
    d.Sound();
    d.DiscardFile(f.id);
    d.WentForward(uploaded, sofar);
    WaitingKeepsFiles(uploaded, d.Now(), f.id);
    StaysAtLeast(uploaded, d.Now(), f.id, 2);
    DeliveryComposes(before, uploaded, d.Now(), f.id);
  }

  /** The uploads. Online, every file that had its slot is settled. */
  method UploadPhase(d: Device, granted: map<Uuid, MediaSlot>, ghost ids: set<Uuid>) returns (offline: bool, reached: bool)
    requires d.Valid() && AreSlots(d.server, granted) && ids <= d.history.captured && AllAtLeast(d.Now().db, ids, 1)
    modifies d
    ensures d.Valid() && d.Budget() == old(d.Budget()) && old(d.run) <= d.run && Undisturbed(old(d.Now()), d.Now())
    ensures old(d.calls) <= d.calls && Told(offline, d.calls, |old(d.calls)|)
    ensures reached ==> SomeAnswered(d.calls, |old(d.calls)|)
    ensures !offline ==> AllAtLeast(d.Now().db, ids, 2)
  {
    ghost var start, made := d.Now(), d.calls;
    offline, reached := false, false;
    NoCall(made);
    var files := ReadOpen(d);
    AllStay(start, d.Now(), ids, 1);
    FilesAreSlotted(d.Now(), files, ids);
    assert Reached(start.history.captured, d.Now().db, files, 0, 2);
    FewerReached(ids, start.history.captured, d.Now().db, files, 2);
    for i := 0 to |files|
      invariant d.Valid() && d.Budget() == old(d.Budget()) && old(d.run) <= d.run
      invariant made <= d.calls && Told(false, d.calls, |made|) && (reached ==> SomeAnswered(d.calls, |made|))
      invariant AreSlots(d.server, granted) && Pass(ids, start, d.Now(), files, i, 2) && SlotsWait(start, d.Now())
      invariant forall j :: i <= j < |files| && files[j].id in ids && files[j].id in d.media ==> files[j].row.state.Slotted?
    {
      ghost var before, asked := d.Now(), d.calls;
      if files[i].row.state.Slotted? && files[i].row.artifact.Some? {
        ghost var outcome, slot;
        offline, outcome, slot := UploadOne(d, files[i], granted);
        Earlier(asked, d.calls, |made|);
        ActionsTransitive(start, before, d.Now());
        SlotsTransitive(start, before, d.Now());
        if offline { return; }
        reached := true;
      } else {
        d.Sound();
        assert IsFile(before, files[i]);
        Untouched(before, files[i].id);
      }
      PassNext(ids, start, before, d.Now(), files, i, 2);
      FilesGo(before, d.Now(), files, ids);
    }
  }

  lemma FilesGo(a: World, b: World, files: seq<File>, ids: set<Uuid>)
    requires Forward(a, b) && ids <= a.history.captured
    ensures forall j :: 0 <= j < |files| && files[j].id in ids && files[j].id in b.db.media ==> files[j].id in a.db.media
  {
  }

  lemma FewerReached(ids: set<Uuid>, all: set<Uuid>, db: Db, files: seq<File>, stage: nat)
    requires ids <= all && Reached(all, db, files, 0, stage)
    ensures Reached(ids, db, files, 0, stage)
  {
  }

  lemma FilesAreSlotted(w: World, files: seq<File>, ids: set<Uuid>)
    requires Still(w, files, 0) && DistinctFiles(files) && AllAtLeast(w.db, ids, 1)
    ensures forall i :: 0 <= i < |files| && files[i].id in ids && files[i].id in w.db.media ==> files[i].row.state.Slotted?
  {
    forall i | 0 <= i < |files| && files[i].id in ids && files[i].id in w.db.media ensures files[i].row.state.Slotted? {
      assert AtLeast(w.db, files[i].id, 1) && IsFile(w, files[i]);
    }
  }

  // ── The whole flush ────────────────────────────────────────────────────────

  lemma DrainedWaits(a: World, b: World, deferred: set<Uuid>, horizon: nat)
    requires Shrinks(a, b) && Drained(a.db, deferred, horizon) && horizon <= a.db.nextOrder
    ensures Drained(b.db, deferred, horizon)
  {
    forall k | k in b.db.rows && b.db.rows[k].state.Pending? && b.db.rows[k].order < horizon ensures b.db.rows[k].subject in deferred {
      assert Awaits(b, k);
    }
  }

  /** The refresh, unless a batch has done it. */
  method RefreshIfDue(d: Device, granted: map<Uuid, MediaSlot>, synced: bool) returns (offline: bool, reached: bool)
    requires d.Valid() && AreSlots(d.server, granted)
    modifies d
    ensures d.Valid() && d.Budget() == old(d.Budget()) && old(d.run) <= d.run && Undisturbed(old(d.Now()), d.Now())
    ensures AreSlots(d.server, granted) && old(d.calls) <= d.calls && Told(offline, d.calls, |old(d.calls)|)
    ensures reached ==> SomeAnswered(d.calls, |old(d.calls)|)
    ensures !offline && !synced ==> Saved(old(d.run), d.run) || SomeSyncRefused(d.calls, |old(d.calls)|)
  {
    ghost var made := d.calls;
    offline, reached := false, false;
    NoCall(made);
    if synced {
      d.Sound();
      Untouched(d.Now(), 0);
    } else {
      ghost var outcome;
      offline, reached, outcome := RefreshPhase(d, granted);
      OneCall(made, SyncCall([], outcome));
    }
  }

  /** After the actions: the refresh if it is still due, then the uploads. */
  method Finish(d: Device, granted: map<Uuid, MediaSlot>, synced: bool, ghost ids: set<Uuid>) returns (offline: bool, reached: bool)
    requires d.Valid() && AreSlots(d.server, granted) && ids <= d.history.captured && AllAtLeast(d.Now().db, ids, 1)
    modifies d
    ensures d.Valid() && d.Budget() == old(d.Budget()) && old(d.run) <= d.run && Undisturbed(old(d.Now()), d.Now())
    ensures old(d.calls) <= d.calls && Told(offline, d.calls, |old(d.calls)|)
    ensures reached ==> SomeAnswered(d.calls, |old(d.calls)|)
    ensures !offline ==> AllAtLeast(d.Now().db, ids, 2)
    ensures !offline && !synced ==> Saved(old(d.run), d.run) || SomeSyncRefused(d.calls, |old(d.calls)|)
  {
    ghost var start, sofar, made := d.Now(), d.run, d.calls;
    offline, reached := RefreshIfDue(d, granted, synced);
    if offline { return; }
    ghost var fetched, asked, refreshed := d.run, d.calls, d.Now();
    d.WentForward(start, sofar);
    AllStay(start, refreshed, ids, 1);
    var delivered;
    offline, delivered := UploadPhase(d, granted, ids);
    reached := reached || delivered;
    Earlier(asked, d.calls, |made|);
    UndisturbedTransitive(start, refreshed, d.Now());
    if Saved(sofar, fetched) { StaysSaved(sofar, sofar, fetched, d.run); }
  }

  lemma SinceEarlier(w: World, calls: seq<Call>, a: Since, b: Since, deferred: set<Uuid>)
    requires a.calls <= b.calls && a.lost <= b.lost && Witnessed(w, calls, b, deferred, [])
    ensures Witnessed(w, calls, a, deferred, [])
  {
    forall s | s in deferred ensures exists k :: Holding(w, calls, a, k, s) && !Has([], k) {
      var k :| Holding(w, calls, b, k, s) && !Has([], k);
      if SomeLeavesOpen(calls, b.calls, k) {
        var i :| b.calls <= i < |calls| && LeavesOpen(calls[i], k);
        assert SomeLeavesOpen(calls, a.calls, k);
      }
      assert Holding(w, calls, a, k, s);
    }
  }

  /** What a flush that went through its actions leaves: see `FlushOutbox`. */
  ghost predicate Flushed(a: World, run: seq<Step>, calls: seq<Call>, b: World, run': seq<Step>, calls': seq<Call>,
                          report: FlushReport, deferred: set<Uuid>, horizon: nat) {
    && calls <= calls' && Progress(a, b, Tally(0, 0, 0), report.tally)
    && (report.offline <==> SomeTransient(calls', |calls|))
    && Witnessed(b, calls', Beginning(a, calls), deferred, [])
    && (!report.offline && !SomeBatchRefused(calls', |calls|) ==> a.db.nextOrder <= horizon && Drained(b.db, deferred, horizon))
    && (!report.offline ==> Saved(run, run') || SomeSyncRefused(calls', |calls|))
    && (report.reachedServer ==> SomeAnswered(calls', |calls|))
  }

  lemma FlushedSooner(a: World, b: World, c: World, run: seq<Step>, run': seq<Step>, run'': seq<Step>,
                      calls: seq<Call>, calls': seq<Call>, calls'': seq<Call>, report: FlushReport, reached: bool,
                      deferred: set<Uuid>, horizon: nat)
    requires ActionsWait(a, b) && run <= run' <= run'' && calls <= calls'
    requires Told(false, calls', |calls|) && (reached ==> SomeAnswered(calls', |calls|))
    requires Flushed(b, run', calls', c, run'', calls'', report, deferred, horizon)
    ensures Flushed(a, run, calls, c, run'', calls'', report.(reachedServer := reached || report.reachedServer), deferred, horizon)
  {
    Earlier(calls', calls'', |calls|);
    SinceEarlier(c, calls'', Beginning(a, calls), Beginning(b, calls'), deferred);
    ShrinksTransitive(a, b, c);
    if Saved(run', run'') { StaysSaved(run, run', run'', run''); }
  }

  /** The actions, and unless they ended the flush, the refresh and the uploads. */
  method ActAndFinish(d: Device, granted: map<Uuid, MediaSlot>, ghost ids: set<Uuid>)
    returns (report: FlushReport, ghost deferred: set<Uuid>, ghost horizon: nat)
    requires d.Valid() && AreSlots(d.server, granted) && ids <= d.history.captured && AllAtLeast(d.Now().db, ids, 1)
    modifies d
    ensures d.Valid() && d.Budget() == old(d.Budget()) && old(d.run) <= d.run
    ensures Flushed(old(d.Now()), old(d.run), old(d.calls), d.Now(), d.run, d.calls, report, deferred, horizon)
    ensures !report.offline ==> AllAtLeast(d.Now().db, ids, 2)
  {
    ghost var start, sofar, made := d.Now(), d.run, d.calls;
    var next, tally, held, reached, synced;
    next, tally, held, reached, synced, horizon := ActionPhase(d);
    deferred := held;
    ghost var acted, done, called := d.Now(), d.run, d.calls;
    if next.Offline? { return FlushReport(tally, reached, true), deferred, horizon; }
    d.WentForward(start, sofar);
    AllStay(start, acted, ids, 1);
    SlotsGrow(start, acted, granted);
    var offline, finished := Finish(d, granted, synced, ids);
    report := FlushReport(tally, reached || finished, offline);
    Earlier(called, d.calls, |made|);
    ShrinksTransitive(start, acted, d.Now());
    WitnessStays(acted, d.Now(), called, d.calls, Beginning(start, made), deferred, []);
    if synced { StaysSaved(sofar, sofar, done, d.run); }
    if Saved(done, d.run) { StaysSaved(sofar, done, d.run, d.run); }
    if next.GoOn? { DrainedWaits(acted, d.Now(), deferred, horizon); }
  }

  lemma SlotsGrow(a: World, b: World, granted: map<Uuid, MediaSlot>)
    requires Forward(a, b) && AreSlots(a.server, granted)
    ensures AreSlots(b.server, granted)
  {
  }

  /**
   * `flushOutbox`. Whatever the server and the screens do, it ends, it takes only steps of the model, it cleans nothing
   * up, and it reports the actions it moved. It is offline exactly if a call was transient. Every subject it deferred has
   * an action that still has no outcome because a call of this flush left it open, a file of it has no slot, or a sign-out
   * took it. If it stayed online and no envelope was refused, an action recorded before it waits only if its subject was
   * deferred. Online, no file of before is on its way, and the routes were saved unless the refresh was refused.
   */
  method FlushOutbox(d: Device) returns (report: FlushReport, ghost deferred: set<Uuid>, ghost horizon: nat)
    requires d.Valid()
    modifies d
    ensures d.Valid() && d.Budget() == old(d.Budget()) && old(d.run) <= d.run && old(d.calls) <= d.calls
    ensures Counts(Tally(0, 0, 0), old(d.history), report.tally, d.history) && d.history.prunes == old(d.history.prunes)
    ensures report.offline <==> SomeTransient(d.calls, |old(d.calls)|)
    ensures report.reachedServer ==> SomeAnswered(d.calls, |old(d.calls)|)
    ensures Witnessed(d.Now(), d.calls, Beginning(old(d.Now()), old(d.calls)), deferred, [])
    ensures !report.offline && !SomeBatchRefused(d.calls, |old(d.calls)|) ==>
              old(d.nextOrder) <= horizon && Drained(d.Now().db, deferred, horizon)
    ensures !report.offline ==> AllAtLeast(d.Now().db, old(d.history.captured), 2)
    ensures !report.offline ==> forall m :: m in old(d.history.captured) && m in d.media ==> d.media[m].state in {Uploaded, Lost}
    ensures !report.offline ==> Saved(old(d.run), d.run) || SomeSyncRefused(d.calls, |old(d.calls)|)
    ensures old(d.history.captured) <= d.history.captured
  {
    ghost var mine, start, sofar, made := d.history.captured, d.Now(), d.run, d.calls;
    deferred, horizon := {}, 0;
    var offline, granted, reached := SlotPhase(d);
    d.WentForward(start, sofar);
    if offline { return FlushReport(Tally(0, 0, 0), reached, true), {}, 0; }
    ghost var slotted, done, asked := d.Now(), d.run, d.calls;
    report, deferred, horizon := ActAndFinish(d, granted, mine);
    FlushedSooner(start, slotted, d.Now(), sofar, done, d.run, made, asked, d.calls, report, reached, deferred, horizon);
    report := report.(reachedServer := reached || report.reachedServer);
    d.WentForward(start, sofar);
  }

  const WEEK_MS := 7 * 24 * 60 * 60000

  /** `runSync`: housekeeping after a flush that stayed online, of what is older than a week and settled, and none otherwise. */
  method RunSync(d: Device, now: int) returns (report: FlushReport)
    requires d.Valid()
    modifies d
    ensures d.Valid() && d.Budget() == old(d.Budget()) && old(d.run) <= d.run
    ensures Counts(Tally(0, 0, 0), old(d.history), report.tally, d.history)
    ensures report.offline <==> SomeTransient(d.calls, |old(d.calls)|)
    ensures d.history.prunes == old(d.history.prunes) + if report.offline then [] else [now - 604800000]
    ensures !report.offline ==>
              && (forall k :: k in d.rows && d.rows[k].state == Done ==> d.rows[k].createdAt >= now - 604800000)
              && (forall m :: m in d.media && d.media[m].state in {Uploaded, Lost} ==> d.media[m].createdAt >= now - 604800000)
              && (forall m :: m in old(d.history.captured) && m in d.media ==> d.media[m].state in {Uploaded, Lost})
  {
    ghost var deferred, horizon;
    report, deferred, horizon := FlushOutbox(d);
    if !report.offline {
      ghost var flushed, sofar := d.Now(), d.run;
      Refetch(d, old(d.history.captured));
      d.Prune(now - WEEK_MS);
    }
  }

  /** The configuration and the shift are fetched, and the screens go on. */
  method Refetch(d: Device, ghost ids: set<Uuid>)
    requires d.Valid() && ids <= d.history.captured && AllAtLeast(d.Now().db, ids, 2)
    modifies d
    ensures d.Valid() && d.Budget() == old(d.Budget()) && d.calls == old(d.calls) && old(d.run) <= d.run
    ensures SameOutcomes(old(d.history), d.history) && d.history.prunes == old(d.history.prunes)
    ensures AllAtLeast(d.Now().db, ids, 2)
  {
    ghost var before, sofar := d.Now(), d.run;
    d.Elapse();
    d.WentForward(before, sofar);
    AllStay(before, d.Now(), ids, 2);
  }
}
