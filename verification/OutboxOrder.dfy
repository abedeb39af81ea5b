/** What order does not mean: actions are first sent in order, but they need not be accepted in order. */
module OutboxOrder {
  import opened Common
  import opened OutboxModel
  import opened OutboxRuns

  // Two corrections of one address.
  const PAYLOAD := Payload("{}", None)
  const FIRST := Step.Enqueue(1, AddressCorrected, 7, PAYLOAD, [], [], 0)
  const SECOND := Step.Enqueue(2, AddressCorrected, 7, PAYLOAD, [], [], 0)
  const ITEMS := [Item(1, AddressCorrected, 7, "{}", None), Item(2, AddressCorrected, 7, "{}", None)]

  /** One batch with both; the server takes the second, and says to retry the first later. */
  const ANSWER := Reply([1, 2], {2}, {}, {}, map[], Some(RouteAnswer([], [])), false)
  const SENDING := Send(ITEMS, {2}, Some(ANSWER))
  const ACCEPTING := WriteAction(2, ActionPatch(Some(Done), None, Some(None), Some(None)))
  const RETRYING := WriteAction(1, ActionPatch(None, Some(1), Some(Some("LATER")), Some(Some(""))))
  const OVERTAKING := [FIRST, SECOND, SENDING, SaveRoutes, RETRYING, ACCEPTING]

  const ROW_1 := Action(0, AddressCorrected, 7, PAYLOAD, [], Pending, 0, None, None, 0)
  const ROW_2 := Action(1, AddressCorrected, 7, PAYLOAD, [], Pending, 0, None, None, 0)

  ghost predicate BothWait(w: World) {
    && w.db.rows == map[1 := ROW_1, 2 := ROW_2] && w.db.media == map[] && w.db.routes == map[]
    && w.server.applied == [] && w.history.accepted == [] && w.history.sends == [] && w.history.lost == map[]
    && w.history.minted == map[1 := IntentOf(ROW_1), 2 := IntentOf(ROW_2)]
  }

  lemma Recording(w: World)
    requires Initial(w)
    ensures Enabled(w, FIRST) && Enabled(Apply(w, FIRST), SECOND) && BothWait(Apply(Apply(w, FIRST), SECOND))
  {
    assert NewMedia(FIRST) == map[] && NewMedia(SECOND) == map[];
    var v := Apply(w, FIRST);
    assert v.db.rows == map[1 := ROW_1] && v.db.nextOrder == 1;
    assert Enabled(v, SECOND);
    assert Apply(v, SECOND).db.rows == map[1 := ROW_1, 2 := ROW_2];
  }

  lemma SendingBoth(w: World)
    requires BothWait(w)
    ensures Enabled(w, SENDING) && BothSent(Apply(w, SENDING))
  {
    assert KeysOf(ITEMS) == [1, 2];
    assert KnownVersions(w.db.routes) == map[];
    assert NothingOvertaken(w.db, ITEMS) by { assert ITEMS[0].key == 1; }
    assert MayItem(w, ITEMS[0]) && MayItem(w, ITEMS[1]);
    assert AppliedKeys(w.server) == {};
  }

  ghost predicate BothSent(w: World) {
    && w.db.rows == map[1 := ROW_1, 2 := ROW_2] && w.reply == Some(ANSWER) && w.history.sends == [1, 2]
    && w.history.accepted == [] && w.history.minted == map[1 := IntentOf(ROW_1), 2 := IntentOf(ROW_2)]
  }

  lemma Settling(w: World)
    requires BothSent(w)
    ensures Enabled(w, SaveRoutes) && Enabled(Apply(w, SaveRoutes), RETRYING)
    ensures Enabled(Apply(Apply(w, SaveRoutes), RETRYING), ACCEPTING)
    ensures var v := Apply(Apply(Apply(w, SaveRoutes), RETRYING), ACCEPTING);
            WaitsBefore(v, 1, 2) && v.history.accepted == [2]
  {
    var v := Apply(w, SaveRoutes);
    assert v.db.rows == w.db.rows && v.history == w.history && 1 in v.history.sends && 2 in v.history.sends;
    assert 2 in Apply(v, RETRYING).db.rows && Apply(v, RETRYING).db.rows[2] == ROW_2;
  }

  lemma Begun(start: World, run: seq<Step>)
    requires Initial(start) && |run| == 6 && run[0] == FIRST && run[1] == SECOND && run[2] == SENDING
    ensures Legal(start, run[..3]) && BothSent(After(start, run[..3]))
  {
    Recording(start);
    NextTwo(start, run, 0);
    SendingBoth(After(start, run[..2]));
    NextStep(start, run, 2);
  }

  /** In one batch the later of two actions about an address can be accepted while the earlier one is told to wait. */
  lemma AcceptanceMayOvertake(start: World)
    requires Initial(start)
    ensures Legal(start, OVERTAKING)
    ensures WaitsBefore(After(start, OVERTAKING), 1, 2) && 2 in After(start, OVERTAKING).history.accepted
  {
    Overtaken(start, OVERTAKING);
  }

  lemma Overtaken(start: World, run: seq<Step>)
    requires Initial(start) && |run| == 6 && run[0] == FIRST && run[1] == SECOND && run[2] == SENDING
    requires run[3] == SaveRoutes && run[4] == RETRYING && run[5] == ACCEPTING
    ensures Legal(start, run) && WaitsBefore(After(start, run), 1, 2) && 2 in After(start, run).history.accepted
  {
    Begun(start, run);
    Settling(After(start, run[..3]));
    LastThree(start, run, 3);
  }

  lemma LastThree(start: World, run: seq<Step>, n: nat)
    requires |run| == n + 3 && Legal(start, run[..n]) && Enabled(After(start, run[..n]), run[n])
    requires Enabled(Apply(After(start, run[..n]), run[n]), run[n + 1])
    requires Enabled(Apply(Apply(After(start, run[..n]), run[n]), run[n + 1]), run[n + 2])
    ensures Legal(start, run)
    ensures After(start, run) == Apply(Apply(Apply(After(start, run[..n]), run[n]), run[n + 1]), run[n + 2])
  {
    NextTwo(start, run, n);
    NextStep(start, run, n + 2);
    WholeRun(run);
  }
}
