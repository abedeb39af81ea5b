/**
 * One `ApiClient`: any number of requests and the one refresh they share, cut at every await.
 *
 * The server exchanges a refresh token once. A token that is presented again looks stolen, and the server then revokes
 * the whole session family.
 */
module SessionModel {
  import opened Common

  type Token = int

  datatype Session = Session(refresh: Token, access: Token, expiresAt: int)

  /** Renew a little before expiry. */
  const EXPIRY_MARGIN_MS := 30000

  /** Where a request is. `retried`: it has had its one retry after a 401. */
  datatype Phase =
    | Loaded(snapshot: Option<Session>)
    | Sent(session: Session, retried: bool)
    | Awaiting(retry: bool)
    | Resumed(result: Option<Session>, retry: bool)

  /** Where the shared refresh is. `issued` is the session the server has exchanged the token for, with its lifetime. */
  datatype Refresh =
    | Loading(stale: Session)
    | Checked(stale: Session, latest: Option<Session>)
    | InFlight(stale: Session, issued: Option<(Token, Token, int)>)
    | Settled(result: Option<Session>)

  /** One sending of a request, with the access token it carried. */
  datatype Sending = Sending(request: int, access: Token)

  /** `spent`: exchanged already. `replayed`: presented although spent. `begun`: the requests there have been. */
  datatype World = World(
    stored: Option<Session>, refreshing: Option<Refresh>, requests: map<int, Phase>, now: int,
    live: set<Token>, spent: set<Token>, replayed: set<Token>, begun: set<int>, sends: seq<Sending>)

  datatype Step =
    // A request, from await to await.
    | Begin(r: int)
    | Decide(r: int)
    | Response(r: int, unauthorized: bool)
    | Resume(r: int)
    // The refresh.
    | LoadLatest
    | DecideRefresh
    | Exchange(refresh: Token, access: Token, expiresIn: int)
    | Deliver
    | Lose
    | Fail
    | Refuse
    | Resolve
    // The rest of the app, and time.
    | SignIn(session: Session)
    | SignOut
    | Tick(ms: nat)

  function Without(m: map<int, Phase>, r: int): map<int, Phase> { map k | k in m && k != r :: m[k] }

  /** `refresh`: joins the refresh there is, or starts one for this session. */
  function Joined(w: World, r: int, stale: Session, retry: bool): World {
    w.(requests := w.requests[r := Awaiting(retry)],
       refreshing := if w.refreshing.Some? then w.refreshing else Some(Loading(stale)))
  }

  function Sends(w: World, r: int, session: Session, retried: bool): World {
    w.(requests := w.requests[r := Sent(session, retried)], sends := w.sends + [Sending(r, session.access)])
  }

  function Woken(requests: map<int, Phase>, result: Option<Session>): map<int, Phase> {
    map r | r in requests :: if requests[r].Awaiting? then Resumed(result, requests[r].retry) else requests[r]
  }

  predicate Enabled(w: World, s: Step) {
    match s
    case Begin(r) => r !in w.begun
    case Decide(r) => r in w.requests && w.requests[r].Loaded?
    case Response(r, _) => r in w.requests && w.requests[r].Sent?
    case Resume(r) => r in w.requests && w.requests[r].Resumed?
    case LoadLatest => w.refreshing.Some? && w.refreshing.value.Loading?
    case DecideRefresh => w.refreshing.Some? && w.refreshing.value.Checked?
    case Exchange(refresh, _, _) =>
      && w.refreshing.Some? && w.refreshing.value.InFlight? && w.refreshing.value.issued.None?
      && w.refreshing.value.stale.refresh in w.live && refresh !in w.live && refresh !in w.spent
    case Deliver => w.refreshing.Some? && w.refreshing.value.InFlight? && w.refreshing.value.issued.Some?
    case Lose => w.refreshing.Some? && w.refreshing.value.InFlight? && w.refreshing.value.issued.Some?
    case Fail => w.refreshing.Some? && w.refreshing.value.InFlight? && w.refreshing.value.issued.None?
    case Refuse => w.refreshing.Some? && w.refreshing.value.InFlight? && w.refreshing.value.issued.None?
    case Resolve => w.refreshing.Some? && w.refreshing.value.Settled?
    case SignIn(session) => session.refresh !in w.live && session.refresh !in w.spent
    case SignOut => true
    case Tick(_) => true
  }

  /** Another caller has refreshed already. */
  predicate UsesLatest(stale: Session, latest: Option<Session>, now: int) {
    latest.Some? && latest.value.refresh != stale.refresh && latest.value.expiresAt > now
  }

  function Apply(w: World, s: Step): World
    requires Enabled(w, s)
  {
    match s
    case Begin(r) => w.(requests := w.requests[r := Loaded(w.stored)], begun := w.begun + {r})
    case Decide(r) =>
      var session := w.requests[r].snapshot;
      if session.None? then w.(requests := Without(w.requests, r))
      else if session.value.expiresAt - EXPIRY_MARGIN_MS > w.now then Sends(w, r, session.value, false)
      else Joined(w, r, session.value, false)
    case Response(r, unauthorized) =>
      if unauthorized && !w.requests[r].retried then Joined(w, r, w.requests[r].session, true)
      else w.(requests := Without(w.requests, r))
    case Resume(r) =>
      var p := w.requests[r];
      if p.result.None? then w.(requests := Without(w.requests, r))
      else Sends(w, r, p.result.value, p.retry)
    case LoadLatest => w.(refreshing := Some(Checked(w.refreshing.value.stale, w.stored)))
    case DecideRefresh =>
      var stale, latest := w.refreshing.value.stale, w.refreshing.value.latest;
      if UsesLatest(stale, latest, w.now) then w.(refreshing := Some(Settled(latest)))
      else w.(refreshing := Some(InFlight(stale, None)),
              replayed := if stale.refresh in w.spent then w.replayed + {stale.refresh} else w.replayed)
    case Exchange(refresh, access, expiresIn) =>
      var stale := w.refreshing.value.stale;
      w.(refreshing := Some(InFlight(stale, Some((refresh, access, expiresIn)))),
         live := w.live - {stale.refresh} + {refresh}, spent := w.spent + {stale.refresh})
    case Deliver =>
      var (refresh, access, expiresIn) := w.refreshing.value.issued.value;
      var session := Session(refresh, access, w.now + expiresIn * 1000);
      w.(stored := Some(session), refreshing := Some(Settled(Some(session))))
    case Lose => w.(refreshing := Some(Settled(None)))
    case Fail => w.(refreshing := Some(Settled(None)))
    case Refuse => w.(stored := None, refreshing := Some(Settled(None)))
    case Resolve => w.(refreshing := None, requests := Woken(w.requests, w.refreshing.value.result))
    case SignIn(session) => w.(stored := Some(session), live := w.live + {session.refresh})
    case SignOut => w.(stored := None)
    case Tick(ms) => w.(now := w.now + ms)
  }

  ghost predicate Initial(w: World) {
    && w.stored.None? && w.refreshing.None? && w.requests == map[] && w.live == {} && w.spent == {} && w.replayed == {}
    && w.begun == {} && w.sends == []
  }

  predicate Legal(w: World, run: seq<Step>)
    decreases |run|
  {
    run == [] || (Enabled(w, run[0]) && Legal(Apply(w, run[0]), run[1..]))
  }

  function After(w: World, run: seq<Step>): World
    requires Legal(w, run)
    decreases |run|
  {
    if run == [] then w else After(Apply(w, run[0]), run[1..])
  }

  // ── What is assumed of a run ───────────────────────────────────────────────

  /** The answer of an exchange arrives, and nothing clears the session. */
  predicate IsCalm(s: Step) { !s.Lose? && !s.SignOut? && !s.Refuse? }

  predicate Calm(run: seq<Step>) { forall i :: 0 <= i < |run| ==> IsCalm(run[i]) }

  /** When a refresh decides, a session renewed meanwhile is still good: it outlived the request that holds the old one. */
  predicate Outlives(w: World) {
    w.refreshing.Some? && w.refreshing.value.Checked? && w.refreshing.value.latest.Some?
    && w.refreshing.value.latest.value.refresh != w.refreshing.value.stale.refresh
    ==> w.refreshing.value.latest.value.expiresAt > w.now
  }

  predicate AlwaysOutlives(w: World, run: seq<Step>)
    requires Legal(w, run)
    decreases |run|
  {
    run == [] || ((run[0].DecideRefresh? ==> Outlives(w)) && AlwaysOutlives(Apply(w, run[0]), run[1..]))
  }

  /** The driver signs in only while signed out. */
  predicate SignsInSignedOut(w: World, run: seq<Step>)
    requires Legal(w, run)
    decreases |run|
  {
    run == [] || ((run[0].SignIn? ==> w.stored.None?) && SignsInSignedOut(Apply(w, run[0]), run[1..]))
  }

  // ── The invariant ──────────────────────────────────────────────────────────

  /** Only between an exchange and the saving of its answer is the stored token a spent one. */
  ghost predicate StoredIsLive(w: World) {
    w.stored.Some? && w.stored.value.refresh in w.spent ==> w.refreshing.Some? && w.refreshing.value.InFlight? && w.refreshing.value.issued.Some?
  }

  ghost predicate RefreshIsSound(w: World) {
    w.refreshing.Some? ==>
      match w.refreshing.value
      case Loading(_) => w.stored.Some?
      case Checked(_, latest) => w.stored.Some? && latest.Some? && latest.value.refresh !in w.spent
      case InFlight(_, issued) => w.stored.Some? && (issued.Some? ==> issued.value.0 in w.live && issued.value.0 !in w.spent)
      case Settled(_) => w.stored.Some?
  }

  /** Who holds a session started when there was one, and a calm run never loses it. */
  ghost predicate HoldersMeanStored(w: World) {
    forall r :: r in w.requests && HoldsSession(w.requests[r]) ==> w.stored.Some?
  }

  predicate HoldsSession(p: Phase) { (p.Loaded? && p.snapshot.Some?) || p.Sent? || (p.Resumed? && p.result.Some?) }

  ghost predicate Inv(w: World) {
    StoredIsLive(w) && RefreshIsSound(w) && HoldersMeanStored(w) && w.live !! w.spent
  }

  lemma CalmKeepsInv(w: World, s: Step)
    requires Inv(w) && Enabled(w, s) && IsCalm(s)
    ensures Inv(Apply(w, s))
  {
  }

  lemma {:induction false} CalmRunsKeepInv(w: World, run: seq<Step>)
    requires Inv(w) && Legal(w, run) && Calm(run)
    ensures Inv(After(w, run))
    decreases |run|
  {
    if run != [] {
      CalmKeepsInv(w, run[0]);
      CalmRunsKeepInv(Apply(w, run[0]), run[1..]);
    }
  }

  // ── The theorems ───────────────────────────────────────────────────────────

  /** The refresh presents its token, and the server has exchanged it before. */
  predicate Replays(w: World)
    requires w.refreshing.Some? && w.refreshing.value.Checked?
  {
    && !UsesLatest(w.refreshing.value.stale, w.refreshing.value.latest, w.now)
    && w.refreshing.value.stale.refresh in w.spent
  }

  /**
   * While answers arrive and the session is kept, a refresh presents a spent token exactly when the one it holds is
   * spent and the session that replaced it has expired too.
   */
  lemma ReplaysTheSpent(w: World, run: seq<Step>)
    requires Initial(w) && Legal(w, run) && Calm(run)
    requires After(w, run).refreshing.Some? && After(w, run).refreshing.value.Checked?
    ensures var v := After(w, run);
            var stale, latest := v.refreshing.value.stale, v.refreshing.value.latest;
            latest.Some? && (Replays(v) <==> stale.refresh in v.spent && latest.value.expiresAt <= v.now)
  {
    CalmRunsKeepInv(w, run);
  }

  /** Somebody still holds the session: a request, or the refresh. */
  ghost predicate Holds(w: World, s: Session) {
    || (exists r :: r in w.requests && HeldBy(w.requests[r]) == Some(s))
    || (w.refreshing.Some? && HeldByRefresh(w.refreshing.value, s))
  }

  function HeldBy(p: Phase): Option<Session> {
    match p
    case Loaded(snapshot) => snapshot
    case Sent(session, _) => Some(session)
    case Awaiting(_) => None
    case Resumed(result, _) => result
  }

  predicate HeldByRefresh(f: Refresh, s: Session) {
    match f
    case Loading(stale) => s == stale
    case Checked(stale, latest) => s == stale || latest == Some(s)
    case InFlight(stale, _) => s == stale
    case Settled(result) => result == Some(s)
  }

  /** Every session anyone holds is the stored one or has been exchanged. */
  ghost predicate OneLine(w: World) {
    && (forall s :: Holds(w, s) ==> w.stored == Some(s) || s.refresh in w.spent)
    && (w.stored.None? ==> w.spent == {})
    && (w.refreshing.Some? && w.refreshing.value.InFlight? && w.refreshing.value.issued.Some?
        ==> w.stored == Some(w.refreshing.value.stale) && w.refreshing.value.stale.refresh in w.spent)
  }

  lemma CalmKeepsOneLine(w: World, s: Step)
    requires Inv(w) && OneLine(w) && Enabled(w, s) && IsCalm(s) && (s.SignIn? ==> w.stored.None?)
    ensures OneLine(Apply(w, s))
  {
    var v := Apply(w, s);
    forall h | Holds(v, h) ensures v.stored == Some(h) || h.refresh in v.spent {
      HeldBefore(w, s, h);
    }
    if s.Exchange? { assert Holds(w, w.refreshing.value.stale); }
  }

  /** Nobody comes to hold a session but the stored one. */
  lemma HeldBefore(w: World, s: Step, h: Session)
    requires Enabled(w, s) && Holds(Apply(w, s), h)
    ensures Holds(w, h) || w.stored == Some(h) || Apply(w, s).stored == Some(h)
  {
    var v := Apply(w, s);
    if r :| r in v.requests && HeldBy(v.requests[r]) == Some(h) {
      assert (r in w.requests && HeldBy(w.requests[r]) == Some(h)) || (w.refreshing.Some? && HeldByRefresh(w.refreshing.value, h))
             || w.stored == Some(h);
    } else if s.Decide? {
      assert HeldBy(w.requests[s.r]) == Some(h) || Holds(w, h);
    } else if s.Response? {
      assert HeldBy(w.requests[s.r]) == Some(h) || Holds(w, h);
    }
  }

  lemma {:induction false} CalmRunsKeepOneLine(w: World, run: seq<Step>)
    requires Inv(w) && OneLine(w) && Legal(w, run) && Calm(run) && SignsInSignedOut(w, run)
    ensures OneLine(After(w, run)) && Inv(After(w, run))
    decreases |run|
  {
    if run != [] {
      CalmKeepsInv(w, run[0]);
      CalmKeepsOneLine(w, run[0]);
      CalmRunsKeepOneLine(Apply(w, run[0]), run[1..]);
    }
  }

  /**
   * What the client can see of it: while answers arrive and the session is kept, a refresh presents a spent token exactly
   * when another session than the one it holds is stored and that one has expired.
   */
  lemma ReplayExactly(w: World, run: seq<Step>)
    requires Initial(w) && Legal(w, run) && Calm(run) && SignsInSignedOut(w, run)
    requires After(w, run).refreshing.Some? && After(w, run).refreshing.value.Checked?
    ensures var v := After(w, run);
            var stale, latest := v.refreshing.value.stale, v.refreshing.value.latest;
            latest.Some? && (Replays(v) <==> latest.value.refresh != stale.refresh && latest.value.expiresAt <= v.now)
  {
    CalmRunsKeepOneLine(w, run);
    var v := After(w, run);
    assert Holds(v, v.refreshing.value.stale) && Holds(v, v.refreshing.value.latest.value);
  }

  lemma {:induction false} StaysUnreplayed(w: World, run: seq<Step>)
    requires Inv(w) && Legal(w, run) && Calm(run) && AlwaysOutlives(w, run)
    ensures After(w, run).replayed == w.replayed
    decreases |run|
  {
    if run != [] {
      CalmKeepsInv(w, run[0]);
      StaysUnreplayed(Apply(w, run[0]), run[1..]);
    }
  }

  /** Over every interleaving of concurrent requests, no token the server has exchanged is presented again. */
  lemma NoReplay(w: World, run: seq<Step>)
    requires Initial(w) && Legal(w, run) && Calm(run) && AlwaysOutlives(w, run)
    ensures After(w, run).replayed == {}
  {
    StaysUnreplayed(w, run);
  }

  // ── Each assumption is needed ──────────────────────────────────────────────

  function Start(): World { World(None, None, map[], 0, {}, {}, {}, {}, []) }

  const OLD := Session(1, 1, 100000)
  const NEW := Session(2, 2, 60000)

  ghost predicate Leads(w: World, run: seq<Step>, v: World) { Legal(w, run) && After(w, run) == v }

  lemma OneStep(w: World, s: Step)
    requires Enabled(w, s)
    ensures Leads(w, [s], Apply(w, s))
  {
    assert [s][1..] == [];
  }

  lemma Chained(w: World, a: seq<Step>, v: World, b: seq<Step>, u: World)
    requires Leads(w, a, v) && Leads(v, b, u)
    ensures Leads(w, a + b, u)
  {
    Join(w, a, b);
  }

  lemma Three(w: World, a: Step, b: Step, c: Step)
    requires Enabled(w, a) && Enabled(Apply(w, a), b) && Enabled(Apply(Apply(w, a), b), c)
    ensures Leads(w, [a, b, c], Apply(Apply(Apply(w, a), b), c))
  {
    OneStep(w, a);
    OneStep(Apply(w, a), b);
    OneStep(Apply(Apply(w, a), b), c);
    Chained(w, [a], Apply(w, a), [b], Apply(Apply(w, a), b));
    assert [a] + [b] == [a, b] && [a, b] + [c] == [a, b, c];
    Chained(w, [a, b], Apply(Apply(w, a), b), [c], Apply(Apply(Apply(w, a), b), c));
  }

  /** Two requests of a driver who has signed in; the first gets a 401, and its refresh is on its way to the server. */
  const REQUESTS := [SignIn(OLD), Begin(1), Begin(2)] + [Tick(0), Decide(1), Decide(2)]
  const REFRESHING := REQUESTS + [Response(1, true), LoadLatest, DecideRefresh]

  function InTheMiddle(): World {
    World(Some(OLD), Some(InFlight(OLD, None)), map[1 := Awaiting(true), 2 := Sent(OLD, false)], 0, {1}, {}, {}, {1, 2},
          [Sending(1, 1), Sending(2, 1)])
  }

  lemma ToTheMiddle()
    ensures Leads(Start(), REFRESHING, InTheMiddle())
  {
    var begun := World(Some(OLD), None, map[1 := Loaded(Some(OLD)), 2 := Loaded(Some(OLD))], 0, {1}, {}, {}, {1, 2}, []);
    var sent := begun.(requests := map[1 := Sent(OLD, false), 2 := Sent(OLD, false)], sends := [Sending(1, 1), Sending(2, 1)]);
    Three(Start(), SignIn(OLD), Begin(1), Begin(2));
    assert Apply(Apply(Apply(Start(), SignIn(OLD)), Begin(1)), Begin(2)) == begun;
    Three(begun, Tick(0), Decide(1), Decide(2));
    assert Apply(Apply(Apply(begun, Tick(0)), Decide(1)), Decide(2)) == sent;
    Chained(Start(), [SignIn(OLD), Begin(1), Begin(2)], begun, [Tick(0), Decide(1), Decide(2)], sent);
    Three(sent, Response(1, true), LoadLatest, DecideRefresh);
    assert Apply(Apply(Apply(sent, Response(1, true)), LoadLatest), DecideRefresh) == InTheMiddle();
    Chained(Start(), REQUESTS, sent, [Response(1, true), LoadLatest, DecideRefresh], InTheMiddle());
  }

  /** The other request gets a 401 for the old session too. */
  const AGAIN := [Response(2, true), LoadLatest, DecideRefresh]

  /** The exchange happens and its answer is lost. */
  const LOST := REFRESHING + [Exchange(2, 2, 60), Lose, Resolve] + AGAIN
  /** The answer arrives, and then the session is cleared. */
  const CLEARED := REFRESHING + [Exchange(2, 2, 60), Deliver, Resolve] + [SignOut] + AGAIN
  /** The answer arrives, and the new session expires. */
  const OUTLIVED := REFRESHING + [Exchange(2, 2, 60), Deliver, Resolve] + [Tick(60000)] + AGAIN

  lemma SecondRequest(before: seq<Step>, v: World)
    requires Leads(Start(), before, v)
    requires v.refreshing.None? && 2 in v.requests && v.requests[2] == Sent(OLD, false) && 1 in v.spent && v.replayed == {}
    requires !UsesLatest(OLD, v.stored, v.now)
    ensures Legal(Start(), before + AGAIN) && After(Start(), before + AGAIN).replayed == {1}
  {
    Three(v, Response(2, true), LoadLatest, DecideRefresh);
    Chained(Start(), before, v, AGAIN, Apply(Apply(Apply(v, Response(2, true)), LoadLatest), DecideRefresh));
  }

  /** With answers that may be lost, a spent token can be presented again. */
  lemma LostAnswersReplay()
    ensures Legal(Start(), LOST) && After(Start(), LOST).replayed == {1}
  {
    ToTheMiddle();
    var tail := [Exchange(2, 2, 60), Lose, Resolve];
    Three(InTheMiddle(), Exchange(2, 2, 60), Lose, Resolve);
    var v := Apply(Apply(Apply(InTheMiddle(), Exchange(2, 2, 60)), Lose), Resolve);
    Chained(Start(), REFRESHING, InTheMiddle(), tail, v);
    SecondRequest(REFRESHING + tail, v);
  }

  /** The renewed session is stored and the first request has its answer. */
  lemma Renewal() returns (v: World)
    ensures Leads(Start(), REFRESHING + [Exchange(2, 2, 60), Deliver, Resolve], v)
    ensures v.refreshing.None? && 2 in v.requests && v.requests[2] == Sent(OLD, false) && 1 in v.spent && v.replayed == {}
    ensures v.stored == Some(NEW) && v.now == 0
  {
    ToTheMiddle();
    Three(InTheMiddle(), Exchange(2, 2, 60), Deliver, Resolve);
    v := Apply(Apply(Apply(InTheMiddle(), Exchange(2, 2, 60)), Deliver), Resolve);
    Chained(Start(), REFRESHING, InTheMiddle(), [Exchange(2, 2, 60), Deliver, Resolve], v);
  }

  /** So it can when the session is cleared while a request is out. */
  lemma ClearedSessionsReplay()
    ensures Legal(Start(), CLEARED) && After(Start(), CLEARED).replayed == {1}
  {
    var v := Renewal();
    OneStep(v, SignOut);
    Chained(Start(), REFRESHING + [Exchange(2, 2, 60), Deliver, Resolve], v, [SignOut], Apply(v, SignOut));
    SecondRequest(REFRESHING + [Exchange(2, 2, 60), Deliver, Resolve] + [SignOut], Apply(v, SignOut));
  }

  /** And when the renewed session expires before a request that still holds the old one is answered. */
  lemma OutlivedSessionsReplay()
    ensures Legal(Start(), OUTLIVED) && Calm(OUTLIVED) && After(Start(), OUTLIVED).replayed == {1}
  {
    var v := Renewal();
    OneStep(v, Tick(60000));
    Chained(Start(), REFRESHING + [Exchange(2, 2, 60), Deliver, Resolve], v, [Tick(60000)], Apply(v, Tick(60000)));
    SecondRequest(REFRESHING + [Exchange(2, 2, 60), Deliver, Resolve] + [Tick(60000)], Apply(v, Tick(60000)));
  }

  lemma {:induction false} Join(w: World, a: seq<Step>, b: seq<Step>)
    requires Legal(w, a) && Legal(After(w, a), b)
    ensures Legal(w, a + b) && After(w, a + b) == After(After(w, a), b)
    decreases |a|
  {
    if a == [] {
      assert a + b == b;
    } else {
      assert (a + b)[1..] == a[1..] + b;
      Join(Apply(w, a[0]), a[1..], b);
    }
  }
}
