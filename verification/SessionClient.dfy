/**
 * The client's methods, cut at their awaits: each piece runs without interruption, and any other piece may run before
 * the next one of the same call. Every piece is one step of the model, so the theorems about its runs are about them.
 */
module SessionClient {
  import opened Common
  import opened SessionModel
  import opened SessionRequests

  class ApiClient {
    /** The one refresh in flight, or none. */
    var refreshing: Option<Refresh>
    var requests: map<int, Phase>
    /** The session store, the clock and the server's tokens. */
    var stored: Option<Session>
    var now: int
    var live: set<Token>
    var spent: set<Token>
    var replayed: set<Token>
    /** The requests there have been, and what was sent for them. */
    var begun: set<int>
    var sends: seq<Sending>
    ghost var run: seq<Step>
    ghost const start: World

    function Now(): World
      reads this
    {
      World(stored, refreshing, requests, now, live, spent, replayed, begun, sends)
    }

    /** The client is where its run has led. */
    ghost predicate Valid()
      reads this
    {
      Initial(start) && Legal(start, run) && After(start, run) == Now()
    }

    constructor (now: int)
      ensures Valid() && run == []
    {
      refreshing, requests, stored, this.now := None, map[], None, now;
      live, spent, replayed, begun, sends, run := {}, {}, {}, {}, [], [];
      start := World(None, None, map[], now, {}, {}, {}, {}, []);
    }

    lemma Extend(s: Step)
      requires Valid() && Enabled(Now(), s)
      ensures Legal(start, run + [s]) && After(start, run + [s]) == Apply(Now(), s)
    {
      Join(start, run, [s]);
    }

    // ── request ──────────────────────────────────────────────────────────────

    /** `validSession` up to the answer of the store. */
    method Request(r: int)
      requires Valid() && r !in begun
      modifies this
      ensures Valid() && run == old(run) + [Begin(r)]
      ensures requests == old(requests)[r := Loaded(old(stored))] && sends == old(sends)
    {
      Extend(Begin(r));
      requests, begun := requests[r := Loaded(stored)], begun + {r};
      run := run + [Begin(r)];
    }

    /** `send`, with the session's access token. */
    method Send(r: int, session: Session, retried: bool)
      modifies this`requests, this`sends
      ensures Now() == Sends(old(Now()), r, session, retried)
      ensures requests == old(requests)[r := Sent(session, retried)] && sends == old(sends) + [Sending(r, session.access)]
    {
      requests, sends := requests[r := Sent(session, retried)], sends + [Sending(r, session.access)];
    }

    /** `refresh`: no await before the shared promise, so two callers cannot both start one. */
    method JoinRefresh(r: int, stale: Session, retry: bool)
      modifies this`refreshing, this`requests
      ensures Now() == Joined(old(Now()), r, stale, retry)
      ensures requests == old(requests)[r := Awaiting(retry)]
      ensures refreshing == if old(refreshing).Some? then old(refreshing) else Some(Loading(stale))
    {
      if refreshing.None? { refreshing := Some(Loading(stale)); }
      requests := requests[r := Awaiting(retry)];
    }

    /** The rest of `validSession`: not signed in, good for now, or to be renewed. */
    method SessionLoaded(r: int)
      requires Valid() && r in requests && requests[r].Loaded?
      modifies this
      ensures Valid() && run == old(run) + [Decide(r)]
      ensures match old(requests)[r].snapshot
              case None => r !in requests && sends == old(sends)
              case Some(session) =>
                if session.expiresAt > now + 30000 then
                  requests == old(requests)[r := Sent(session, false)] && sends == old(sends) + [Sending(r, session.access)]
                else requests == old(requests)[r := Awaiting(false)] && sends == old(sends) && refreshing.Some?
    {
      Extend(Decide(r));
      var session := requests[r].snapshot;
      if session.None? {
        requests := map k | k in requests && k != r :: requests[k];
      } else if session.value.expiresAt - EXPIRY_MARGIN_MS > now {
        Send(r, session.value, false);
      } else {
        JoinRefresh(r, session.value, false);
      }
      run := run + [Decide(r)];
    }

    /** A 401 is retried once, after one shared refresh. */
    method Answered(r: int, unauthorized: bool)
      requires Valid() && r in requests && requests[r].Sent?
      modifies this
      ensures Valid() && run == old(run) + [Step.Response(r, unauthorized)] && sends == old(sends)
      ensures if unauthorized && !old(requests)[r].retried then requests == old(requests)[r := Awaiting(true)] && refreshing.Some?
              else r !in requests
    {
      Extend(Step.Response(r, unauthorized));
      if unauthorized && !requests[r].retried {
        JoinRefresh(r, requests[r].session, true);
      } else {
        requests := map k | k in requests && k != r :: requests[k];
      }
      run := run + [Step.Response(r, unauthorized)];
    }

    /** After the shared refresh: send with its session, or give up. */
    method Refreshed(r: int)
      requires Valid() && r in requests && requests[r].Resumed?
      modifies this
      ensures Valid() && run == old(run) + [Resume(r)]
      ensures match old(requests)[r]
              case Resumed(Some(session), retry) =>
                requests == old(requests)[r := Sent(session, retry)] && sends == old(sends) + [Sending(r, session.access)]
              case _ => r !in requests && sends == old(sends)
    {
      Extend(Resume(r));
      if requests[r].result.None? {
        requests := map k | k in requests && k != r :: requests[k];
      } else {
        Send(r, requests[r].result.value, requests[r].retry);
      }
      run := run + [Resume(r)];
    }

    // ── doRefresh ────────────────────────────────────────────────────────────

    method DoRefresh()
      requires Valid() && refreshing.Some? && refreshing.value.Loading?
      modifies this
      ensures Valid() && run == old(run) + [LoadLatest]
    {
      Extend(LoadLatest);
      refreshing := Some(Checked(refreshing.value.stale, stored));
      run := run + [LoadLatest];
    }

    /** The token is presented unless a newer session has come meanwhile that is still good. */
    method LatestLoaded() returns (presented: Option<Token>)
      requires Valid() && refreshing.Some? && refreshing.value.Checked?
      modifies this
      ensures Valid() && run == old(run) + [Step.DecideRefresh]
      ensures old(Calm(run) && Outlives(Now())) && presented.Some? ==> presented.value !in spent
    {
      Extend(Step.DecideRefresh);
      if Calm(run) { CalmRunsKeepInv(start, run); }
      var stale, latest := refreshing.value.stale, refreshing.value.latest;
      if latest.Some? && latest.value.refresh != stale.refresh && latest.value.expiresAt > now {
        refreshing, presented := Some(Settled(latest)), None;
      } else {
        refreshing, presented := Some(InFlight(stale, None)), Some(stale.refresh);
        if stale.refresh in spent { replayed := replayed + {stale.refresh}; }
      }
      run := run + [Step.DecideRefresh];
    }

    /** The server's side: a live token is exchanged, once. */
    method ServerExchanges(refresh: Token, access: Token, expiresIn: int)
      requires Valid() && Enabled(Now(), Exchange(refresh, access, expiresIn))
      modifies this
      ensures Valid() && run == old(run) + [Exchange(refresh, access, expiresIn)]
    {
      Extend(Exchange(refresh, access, expiresIn));
      var stale := refreshing.value.stale;
      live, spent := live - {stale.refresh} + {refresh}, spent + {stale.refresh};
      refreshing := Some(InFlight(stale, Some((refresh, access, expiresIn))));
      run := run + [Exchange(refresh, access, expiresIn)];
    }

    /** The answer: adopted, refused (which clears the session), or never there. */
    method RefreshAnswered(refused: bool, arrives: bool)
      requires Valid() && refreshing.Some? && refreshing.value.InFlight?
      requires refused ==> refreshing.value.issued.None?
      modifies this
      ensures Valid()
      ensures run == old(run) + [if refused then Refuse else if old(refreshing.value.issued).None? then Fail
                                 else if arrives then Deliver else Lose]
    {
      var issued := refreshing.value.issued;
      ghost var s := if refused then Refuse else if issued.None? then Fail else if arrives then Deliver else Lose;
      Extend(s);
      if refused {
        stored, refreshing := None, Some(Settled(None));
      } else if issued.Some? && arrives {
        var session := Session(issued.value.0, issued.value.1, now + issued.value.2 * 1000);
        stored, refreshing := Some(session), Some(Settled(Some(session)));
      } else {
        refreshing := Some(Settled(None));
      }
      run := run + [s];
    }

    /** Whatever came of it: the next refresh is a new one, and everyone who waited goes on with this one's result. */
    method RefreshSettled() returns (ghost settled: nat)
      requires Valid() && refreshing.Some? && refreshing.value.Settled?
      modifies this
      ensures Valid() && run == old(run) + [Resolve] && refreshing.None? && requests.Keys == old(requests).Keys
      ensures var result := old(refreshing).value.result;
              && SettledAt(start, old(run), settled, result)
              && forall r :: r in old(requests) ==>
                   requests[r] == match old(requests)[r] case Awaiting(retry) => Resumed(result, retry) case other => other
    {
      Extend(Resolve);
      settled := HowItSettled(start, run);
      var result := refreshing.value.result;
      requests := map r | r in requests :: if requests[r].Awaiting? then Resumed(result, requests[r].retry) else requests[r];
      refreshing := None;
      run := run + [Resolve];
    }

    // ── Everything else ──────────────────────────────────────────────────────

    method SignedIn(session: Session)
      requires Valid() && session.refresh !in live && session.refresh !in spent
      modifies this
      ensures Valid() && run == old(run) + [Step.SignIn(session)]
    {
      Extend(Step.SignIn(session));
      stored, live := Some(session), live + {session.refresh};
      run := run + [Step.SignIn(session)];
    }

    method SignedOut()
      requires Valid()
      modifies this
      ensures Valid() && run == old(run) + [Step.SignOut]
    {
      Extend(Step.SignOut);
      stored := None;
      run := run + [Step.SignOut];
    }

    method TimePasses(ms: nat)
      requires Valid()
      modifies this
      ensures Valid() && run == old(run) + [Tick(ms)]
    {
      Extend(Tick(ms));
      now := now + ms;
      run := run + [Tick(ms)];
    }

    /** Runs the piece of the client, or of its surroundings, that a step stands for. */
    method Take(s: Step)
      requires Valid() && Enabled(Now(), s)
      modifies this
      ensures Valid() && run == old(run) + [s]
    {
      match s
      case Begin(r) => Request(r);
      case Decide(r) => SessionLoaded(r);
      case Response(r, unauthorized) => Answered(r, unauthorized);
      case Resume(r) => Refreshed(r);
      case LoadLatest => DoRefresh();
      case DecideRefresh => var presented := LatestLoaded();
      case Exchange(refresh, access, expiresIn) => ServerExchanges(refresh, access, expiresIn);
      case Deliver => RefreshAnswered(false, true);
      case Lose => RefreshAnswered(false, false);
      case Fail => RefreshAnswered(false, false);
      case Refuse => RefreshAnswered(true, true);
      case Resolve => ghost var settled := RefreshSettled();
      case SignIn(session) => SignedIn(session);
      case SignOut => SignedOut();
      case Tick(ms) => TimePasses(ms);
    }

    /**
     * Any number of pieces in any order. While answers arrive, the session is kept and renewed sessions outlive requests,
     * no spent token has been presented.
     */
    method Interleave()
      requires Valid()
      modifies this
      ensures Valid() && old(run) <= run
      ensures Calm(run) && AlwaysOutlives(start, run) ==> replayed == {}
    {
      var n: nat := *;
      while n > 0
        invariant Valid() && old(run) <= run
      {
        var s: Step := *;
        if Enabled(Now(), s) { Take(s); }
        n := n - 1;
      }
      if Calm(run) && AlwaysOutlives(start, run) { NoReplay(start, run); }
    }
  }
}
