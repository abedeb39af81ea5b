/** What a request gets of the session and of the refresh it waits for, over every interleaving. */
module SessionRequests {
  import opened Common
  import opened SessionModel

  // ── One step ───────────────────────────────────────────────────────────────

  /** Where the request `r` is after a step, and what the step sends. */
  ghost predicate GoesOn(w: World, s: Step, r: int, after: Option<Phase>, sent: seq<Sending>)
    requires r in w.requests
  {
    match w.requests[r]
    case Loaded(None) => if s == Decide(r) then after == None && sent == [] else after == Some(Loaded(None))
    case Loaded(Some(session)) =>
      if s != Decide(r) then after == Some(Loaded(Some(session)))
      else if session.expiresAt > w.now + 30000 then after == Some(Sent(session, false)) && sent == [Sending(r, session.access)]
      else after == Some(Awaiting(false)) && sent == []
    case Sent(session, retried) =>
      if s == Response(r, true) && !retried then after == Some(Awaiting(true)) && sent == []
      else if s in {Response(r, true), Response(r, false)} then after == None && sent == []
      else after == Some(Sent(session, retried))
    case Awaiting(retry) =>
      if s == Resolve then w.refreshing.Some? && w.refreshing.value.Settled? && after == Some(Resumed(w.refreshing.value.result, retry))
      else after == Some(Awaiting(retry))
    case Resumed(None, retry) => if s == Resume(r) then after == None && sent == [] else after == Some(Resumed(None, retry))
    case Resumed(Some(session), retry) =>
      if s == Resume(r) then after == Some(Sent(session, retry)) && sent == [Sending(r, session.access)]
      else after == Some(Resumed(Some(session), retry))
  }

  /** A request begins with the stored session, goes on as its answer and the refresh have it, and only its own steps send. */
  lemma RequestAfter(w: World, s: Step, r: int) returns (sent: seq<Sending>)
    requires Enabled(w, s) && (r in w.requests ==> r in w.begun)
    ensures var v := Apply(w, s);
            && v.sends == w.sends + sent && (s !in {Decide(r), Resume(r)} ==> forall i :: 0 <= i < |sent| ==> sent[i].request != r)
            && (r in w.requests ==> GoesOn(w, s, r, if r in v.requests then Some(v.requests[r]) else None, sent))
            && (r !in w.requests && s != Begin(r) ==> r !in v.requests)
            && (s == Begin(r) ==> r !in w.begun && r in v.requests && v.requests[r] == Loaded(w.stored))
            && (r in v.begun <==> r in w.begun || s == Begin(r))
  {
    sent := Apply(w, s).sends[|w.sends|..];
  }

  /** The refresh: started by the first request that needs one, joined by the others, and settled once. */
  lemma RefreshAfter(w: World, s: Step)
    requires Enabled(w, s)
    ensures var v, f := Apply(w, s), w.refreshing;
            match s
            case Decide(r) =>
              if w.requests[r].snapshot.None? || w.requests[r].snapshot.value.expiresAt > w.now + 30000 then v.refreshing == f
              else v.refreshing == if f.Some? then f else Some(Loading(w.requests[r].snapshot.value))
            case Response(r, true) =>
              if w.requests[r].retried then v.refreshing == f
              else v.refreshing == if f.Some? then f else Some(Loading(w.requests[r].session))
            case LoadLatest => v.refreshing == Some(Checked(f.value.stale, w.stored))
            case DecideRefresh =>
              var stale, latest := f.value.stale, f.value.latest;
              if latest.Some? && latest.value.refresh != stale.refresh && latest.value.expiresAt > w.now then
                v.refreshing == Some(Settled(latest)) && v.replayed == w.replayed
              else
                v.refreshing == Some(InFlight(stale, None)) && v.replayed == w.replayed + if stale.refresh in w.spent then {stale.refresh} else {}
            case Exchange(refresh, access, expiresIn) => v.refreshing == Some(InFlight(f.value.stale, Some((refresh, access, expiresIn))))
            case Deliver => v.refreshing == Some(Settled(v.stored)) && v.stored.Some?
            case Lose => v.refreshing == Some(Settled(None))
            case Fail => v.refreshing == Some(Settled(None))
            case Refuse => v.refreshing == Some(Settled(None)) && v.stored == None
            case Resolve => v.refreshing == None
            case _ => v.refreshing == f
  {
  }

  // ── Prefixes of runs ───────────────────────────────────────────────────────

  lemma {:induction false} LastStep(w: World, run: seq<Step>)
    requires Legal(w, run) && run != []
    ensures Legal(w, run[..|run| - 1]) && Enabled(After(w, run[..|run| - 1]), run[|run| - 1])
    ensures After(w, run) == Apply(After(w, run[..|run| - 1]), run[|run| - 1])
    decreases |run|
  {
    if |run| > 1 {
      LastStep(Apply(w, run[0]), run[1..]);
      assert run[..|run| - 1][1..] == run[1..][..|run| - 2];
    } else {
      assert run[1..] == [] && run[..0] == [];
    }
  }

  ghost predicate AreBegun(w: World) { forall r :: r in w.requests ==> r in w.begun }

  lemma StaysBegun(w: World, s: Step)
    requires AreBegun(w) && Enabled(w, s)
    ensures AreBegun(Apply(w, s))
  {
    forall r | r in Apply(w, s).requests ensures r in Apply(w, s).begun { var sent := RequestAfter(w, s, r); }
  }

  lemma {:induction false} RunsBegin(start: World, run: seq<Step>)
    requires Initial(start) && Legal(start, run)
    ensures AreBegun(After(start, run))
  {
    if run != [] {
      LastStep(start, run);
      RunsBegin(start, run[..|run| - 1]);
      StaysBegun(After(start, run[..|run| - 1]), run[|run| - 1]);
    }
  }

  // ── How a refresh came to its result ───────────────────────────────────────

  predicate IsOfRefresh(s: Step) {
    s.LoadLatest? || s.DecideRefresh? || s.Exchange? || s.Deliver? || s.Lose? || s.Fail? || s.Refuse? || s.Resolve?
  }

  /** Step `i` of the run is the last of the refresh. */
  ghost predicate IsLast(run: seq<Step>, i: nat) {
    i < |run| && IsOfRefresh(run[i]) && forall j :: i < j < |run| ==> !IsOfRefresh(run[j])
  }

  /** The refresh looked at the stored session last in step `i`, and found this one. */
  ghost predicate FoundAt(start: World, run: seq<Step>, i: nat, latest: Option<Session>) {
    IsLast(run, i) && run[i] == LoadLatest && Legal(start, run[..i]) && After(start, run[..i]).stored == latest
  }

  /** The server issued these tokens in step `i`, last. */
  ghost predicate IssuedAt(run: seq<Step>, i: nat, refresh: Token, access: Token, expiresIn: int) {
    IsLast(run, i) && run[i] == Exchange(refresh, access, expiresIn)
  }

  /**
   * What step `i` made of the refresh: the session just exchanged, by the clock at its arrival; the stored one, found to be
   * another and still good; or none, as the exchange failed, was refused or lost its answer.
   */
  ghost predicate SettledAt(start: World, run: seq<Step>, i: nat, result: Option<Session>) {
    && IsLast(run, i) && Legal(start, run[..i])
    && var now := After(start, run[..i]).now;
       match run[i]
       case Deliver =>
         exists k: nat, refresh, access, expiresIn ::
           IssuedAt(run[..i], k, refresh, access, expiresIn) && result == Some(Session(refresh, access, now + expiresIn * 1000))
       case DecideRefresh => result.Some? && result.value.expiresAt > now && exists k: nat :: FoundAt(start, run[..i], k, result)
       case Lose => result == None
       case Fail => result == None
       case Refuse => result == None
       case _ => false
  }

  lemma OneLater(run: seq<Step>, s: Step, i: nat)
    requires IsLast(run, i) && !IsOfRefresh(s)
    ensures IsLast(run + [s], i) && (run + [s])[i] == run[i] && (run + [s])[..i] == run[..i]
  {
  }

  lemma {:induction false} Found(start: World, run: seq<Step>) returns (i: nat)
    requires Initial(start) && Legal(start, run)
    requires After(start, run).refreshing.Some? && After(start, run).refreshing.value.Checked?
    ensures FoundAt(start, run, i, After(start, run).refreshing.value.latest)
  {
    i := 0;
    if run != [] {
      LastStep(start, run);
      var before, s := run[..|run| - 1], run[|run| - 1];
      RefreshAfter(After(start, before), s);
      if s.LoadLatest? {
        i := |run| - 1;
      } else {
        i := Found(start, before);
        OneLater(before, s, i);
        assert run == before + [s];
      }
    }
  }

  lemma {:induction false} Issued(start: World, run: seq<Step>) returns (i: nat)
    requires Initial(start) && Legal(start, run)
    requires After(start, run).refreshing.Some? && After(start, run).refreshing.value.InFlight?
    requires After(start, run).refreshing.value.issued.Some?
    ensures var issued := After(start, run).refreshing.value.issued.value; IssuedAt(run, i, issued.0, issued.1, issued.2)
  {
    i := 0;
    if run != [] {
      LastStep(start, run);
      var before, s := run[..|run| - 1], run[|run| - 1];
      RefreshAfter(After(start, before), s);
      if s.Exchange? {
        i := |run| - 1;
      } else {
        i := Issued(start, before);
        OneLater(before, s, i);
        assert run == before + [s];
      }
    }
  }

  lemma {:induction false} HowItSettled(start: World, run: seq<Step>) returns (i: nat)
    requires Initial(start) && Legal(start, run)
    requires After(start, run).refreshing.Some? && After(start, run).refreshing.value.Settled?
    ensures SettledAt(start, run, i, After(start, run).refreshing.value.result)
  {
    i := 0;
    if run != [] {
      LastStep(start, run);
      var before, s := run[..|run| - 1], run[|run| - 1];
      RefreshAfter(After(start, before), s);
      if IsOfRefresh(s) {
        i := |run| - 1;
        SettledLast(start, run);
      } else {
        i := HowItSettled(start, before);
        OneLater(before, s, i);
        assert run == before + [s];
      }
    }
  }

  lemma SettledLast(start: World, run: seq<Step>)
    requires Initial(start) && run != [] && Legal(start, run[..|run| - 1])
    requires Enabled(After(start, run[..|run| - 1]), run[|run| - 1]) && IsOfRefresh(run[|run| - 1])
    requires var v := Apply(After(start, run[..|run| - 1]), run[|run| - 1]); v.refreshing.Some? && v.refreshing.value.Settled?
    ensures SettledAt(start, run, |run| - 1, Apply(After(start, run[..|run| - 1]), run[|run| - 1]).refreshing.value.result)
  {
    var n := |run| - 1;
    var w := After(start, run[..n]);
    if run[n].Deliver? {
      var k := Issued(start, run[..n]);
      var issued := w.refreshing.value.issued.value;
      assert IssuedAt(run[..n], k, issued.0, issued.1, issued.2);
    } else if run[n].DecideRefresh? {
      var k := Found(start, run[..n]);
      assert FoundAt(start, run[..n], k, w.refreshing.value.latest);
    }
  }

  /**
   * Over every interleaving: when a refresh is over, each request that waited for it goes on with exactly the session it
   * settled with, and the others are where they were. They go on with none exactly if the exchange failed, was refused, or
   * lost its answer.
   */
  lemma WaitersAreResumed(start: World, run: seq<Step>) returns (i: nat)
    requires Initial(start) && Legal(start, run + [Resolve])
    ensures Legal(start, run) && After(start, run).refreshing.Some? && After(start, run).refreshing.value.Settled?
    ensures var w, v := After(start, run), After(start, run + [Resolve]);
            var result := w.refreshing.value.result;
            && SettledAt(start, run, i, result) && (result == None <==> run[i] in {Lose, Fail, Refuse})
            && v.refreshing == None && v.requests.Keys == w.requests.Keys
            && forall r :: r in w.requests ==>
                 v.requests[r] == match w.requests[r] case Awaiting(retry) => Resumed(result, retry) case other => other
  {
    var all := run + [Resolve];
    LastStep(start, all);
    assert all[..|all| - 1] == run;
    i := HowItSettled(start, run);
    var w, v := After(start, run), After(start, all);
    RunsBegin(start, run);
    forall r ensures r in w.requests <==> r in v.requests { var sent := RequestAfter(w, Resolve, r); }
  }

  // ── What it sends next ─────────────────────────────────────────────────────

  /** The first sending of `r` among these. */
  ghost predicate IsFirstOf(sends: seq<Sending>, r: int, i: nat) {
    i < |sends| && sends[i].request == r && forall j :: 0 <= j < i ==> sends[j].request != r
  }

  lemma Prefixed(a: seq<Sending>, b: seq<Sending>, c: seq<Sending>, d: seq<Sending>)
    requires a + b <= c && d == c[|a + b|..]
    ensures a <= c && c[|a|..] == b + d
  {
  }

  lemma {:induction false} SendsGrow(w: World, run: seq<Step>)
    requires Legal(w, run) && AreBegun(w)
    ensures w.sends <= After(w, run).sends
    decreases |run|
  {
    if run != [] {
      var sent := RequestAfter(w, run[0], 0);
      StaysBegun(w, run[0]);
      SendsGrow(Apply(w, run[0]), run[1..]);
    }
  }

  /** A request that is over sends no more. */
  lemma {:induction false} OverIsOver(w: World, run: seq<Step>, r: int)
    requires Legal(w, run) && AreBegun(w) && r in w.begun && r !in w.requests
    ensures w.sends <= After(w, run).sends && forall i :: |w.sends| <= i < |After(w, run).sends| ==> After(w, run).sends[i].request != r
    decreases |run|
  {
    if run != [] {
      var sent := RequestAfter(w, run[0], r);
      StaysBegun(w, run[0]);
      OverIsOver(Apply(w, run[0]), run[1..], r);
    }
  }

  /** Over any run from there: the next sending of a resumed request carries the session it was resumed with, and there is none if it was resumed with none. */
  lemma {:induction false} NextSending(w: World, run: seq<Step>, r: int, i: nat)
    requires Legal(w, run) && AreBegun(w) && r in w.requests && w.requests[r].Resumed?
    ensures w.sends <= After(w, run).sends
    ensures IsFirstOf(After(w, run).sends[|w.sends|..], r, i) ==>
              w.requests[r].result.Some? && After(w, run).sends[|w.sends| + i].access == w.requests[r].result.value.access
    decreases |run|
  {
    SendsGrow(w, run);
    if run != [] {
      var s, v := run[0], Apply(w, run[0]);
      var sent := RequestAfter(w, s, r);
      StaysBegun(w, s);
      SendsGrow(v, run[1..]);
      Prefixed(w.sends, sent, After(w, run).sends, After(w, run).sends[|v.sends|..]);
      if s == Resume(r) {
        if w.requests[r].result.None? {
          OverIsOver(v, run[1..], r);
        } else {
          assert After(w, run).sends[|w.sends|] == sent[0];
        }
      } else if i >= |sent| {
        NextSending(v, run[1..], r, i - |sent|);
      }
    }
  }

  /** So what a request sends after a refresh it waited for carries the access token of the session that refresh settled with. */
  lemma WaitersSendWithIt(start: World, run: seq<Step>, later: seq<Step>, r: int, i: nat)
    requires Initial(start) && Legal(start, run + [Resolve]) && Legal(After(start, run + [Resolve]), later)
    requires Legal(start, run) && r in After(start, run).requests && After(start, run).requests[r].Awaiting?
    ensures var v := After(start, run + [Resolve]);
            var f, u := After(start, run).refreshing, After(v, later);
            && f.Some? && f.value.Settled? && v.sends <= u.sends
            && (IsFirstOf(u.sends[|v.sends|..], r, i) ==> f.value.result.Some? && u.sends[|v.sends| + i].access == f.value.result.value.access)
  {
    var settled := WaitersAreResumed(start, run);
    RunsBegin(start, run + [Resolve]);
    NextSending(After(start, run + [Resolve]), later, r, i);
  }

  // ── At most twice ──────────────────────────────────────────────────────────

  ghost function TimesSent(sends: seq<Sending>, r: int): nat {
    if sends == [] then 0 else TimesSent(sends[..|sends| - 1], r) + if sends[|sends| - 1].request == r then 1 else 0
  }

  lemma {:induction false} TimesAppend(a: seq<Sending>, b: seq<Sending>, r: int)
    ensures TimesSent(a + b, r) == TimesSent(a, r) + TimesSent(b, r)
  {
    if b == [] {
      assert a + b == a;
    } else {
      TimesAppend(a, b[..|b| - 1], r);
      assert (a + b)[..|a + b| - 1] == a + b[..|b| - 1];
    }
  }

  lemma {:induction false} NotSent(sends: seq<Sending>, r: int)
    requires forall i :: 0 <= i < |sends| ==> sends[i].request != r
    ensures TimesSent(sends, r) == 0
  {
    if sends != [] { NotSent(sends[..|sends| - 1], r); }
  }

  /** How often a request has been sent, by where it is. */
  ghost predicate SentAs(w: World, r: int) {
    var n := TimesSent(w.sends, r);
    if r !in w.begun then n == 0 && r !in w.requests
    else if r !in w.requests then n <= 2
    else match w.requests[r]
         case Loaded(_) => n == 0
         case Sent(_, retried) => n == if retried then 2 else 1
         case Awaiting(retry) => n == (if retry then 1 else 0) && w.refreshing.Some?
         case Resumed(_, retry) => n == if retry then 1 else 0
  }

  lemma SentOne(w: World, s: Step, r: int)
    requires Enabled(w, s) && SentAs(w, r)
    ensures SentAs(Apply(w, s), r)
  {
    var sent := RequestAfter(w, s, r);
    RefreshAfter(w, s);
    TimesAppend(w.sends, sent, r);
    if s !in {Decide(r), Resume(r)} {
      NotSent(sent, r);
    } else if sent != [] {
      assert sent[..0] == [];
    }
  }

  /** Over every interleaving a request is sent at most twice, and whoever waits has a refresh to wait for. */
  lemma {:induction false} SentAtMostTwice(start: World, run: seq<Step>, r: int)
    requires Initial(start) && Legal(start, run)
    ensures TimesSent(After(start, run).sends, r) <= 2 && SentAs(After(start, run), r)
  {
    if run != [] {
      LastStep(start, run);
      SentAtMostTwice(start, run[..|run| - 1], r);
      SentOne(After(start, run[..|run| - 1]), run[|run| - 1], r);
    }
  }
}
