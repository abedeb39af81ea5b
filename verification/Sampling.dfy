/** The motion classifier, fix by fix and as a statement about the whole stream. */
module Sampling {
  import opened Common

  datatype Motion = Moving | Slow | Stationary

  /** `spd` is in metres per second, when the platform reports it. */
  datatype Fix = Fix(t: int, lat: real, lon: real, spd: Option<real>)

  /** Metres between two fixes; the haversine formula is not looked into. */
  type Distance = (Fix, Fix) -> real

  const MOVING_MPS: real := 4.0
  const STILL_MPS: real := 0.7
  const STILL_FOR_MS := 120000

  // ── The classifier ─────────────────────────────────────────────────────────

  datatype State = State(current: Motion, stillSince: Option<int>, last: Option<Fix>)

  function Start(initial: Motion): State { State(initial, None, None) }

  function IsLater(last: Option<Fix>, fix: Fix): bool { last.None? || fix.t > last.value.t }

  /** The reported speed, or the one since the fix before. */
  function SpeedOf(last: Option<Fix>, fix: Fix, distance: Distance): Option<real> {
    if fix.spd.Some? then fix.spd
    else if last.None? || fix.t <= last.value.t then None
    else
      var seconds := (fix.t - last.value.t) as real / 1000.0;
      Some(distance(last.value, fix) / seconds)
  }

  function Step(s: State, fix: Fix, distance: Distance): State {
    var speed := SpeedOf(s.last, fix, distance);
    if !IsLater(s.last, fix) then s
    else if speed.None? then s.(last := Some(fix))
    else if speed.value >= MOVING_MPS then State(Moving, None, Some(fix))
    else if speed.value >= STILL_MPS then State(Slow, None, Some(fix))
    else
      var since := if s.stillSince.Some? then s.stillSince.value else fix.t;
      State(if fix.t - since >= STILL_FOR_MS then Stationary else s.current, Some(since), Some(fix))
  }

  function Feed(s: State, fixes: seq<Fix>, distance: Distance): State {
    if fixes == [] then s else Step(Feed(s, fixes[..|fixes| - 1], distance), fixes[|fixes| - 1], distance)
  }

  /** The fix shows at least this speed: by its own word, or else by the metres since the last fix in the milliseconds between. */
  ghost predicate GoesAtLeast(mps: real, last: Option<Fix>, fix: Fix, distance: Distance) {
    match fix.spd
    case Some(spd) => spd >= mps
    case None => last.Some? && distance(last.value, fix) * 1000.0 >= mps * (fix.t - last.value.t) as real
  }

  /** What one fix makes of the classifier. */
  ghost predicate Takes(s: State, fix: Fix, distance: Distance, s': State) {
    if s.last.Some? && fix.t <= s.last.value.t then s' == s
    else
      && s'.last == Some(fix)
      && if fix.spd == None && s.last == None then s'.current == s.current && s'.stillSince == s.stillSince
         else if GoesAtLeast(4.0, s.last, fix, distance) then s'.current == Moving && s'.stillSince == None
         else if GoesAtLeast(0.7, s.last, fix, distance) then s'.current == Slow && s'.stillSince == None
         else
           && s'.stillSince == (if s.stillSince == None then Some(fix.t) else s.stillSince)
           && s'.current == if fix.t - s'.stillSince.value >= 120000 then Stationary else s.current
  }

  lemma Quotient(d: real, ms: real, mps: real)
    requires ms > 0.0
    ensures d / (ms / 1000.0) >= mps <==> d * 1000.0 >= mps * ms
  {
    var q, seconds := d / (ms / 1000.0), ms / 1000.0;
    assert q * seconds == d && seconds > 0.0;
    if q >= mps { Times(q, mps, seconds); } else { Times(mps, q, seconds); TimesLess(q, mps, seconds); }
  }

  lemma Times(a: real, b: real, c: real)
    requires a >= b && c > 0.0
    ensures a * c >= b * c
  {
  }

  lemma TimesLess(a: real, b: real, c: real)
    requires a < b && c > 0.0
    ensures a * c < b * c
  {
  }

  /** Late fixes change nothing; an unknown speed only the last fix; 4 m/s is driving, 0.7 m/s slow, and two minutes below that parked. */
  lemma StepMeaning(s: State, fix: Fix, distance: Distance)
    ensures Takes(s, fix, distance, Step(s, fix, distance))
  {
    if s.last.Some? && fix.t > s.last.value.t && fix.spd.None? {
      Quotient(distance(s.last.value, fix), (fix.t - s.last.value.t) as real, 4.0);
      Quotient(distance(s.last.value, fix), (fix.t - s.last.value.t) as real, 0.7);
    }
  }

  class MotionClassifier {
    var current: Motion
    var stillSince: Option<int>
    var last: Option<Fix>
    const distance: Distance

    function Now(): State
      reads this
    {
      State(current, stillSince, last)
    }

    constructor (initial: Motion, distance: Distance)
      ensures Now() == Start(initial) && this.distance == distance
    {
      current, stillSince, last := initial, None, None;
      this.distance := distance;
    }

    /** Feeds fixes in time order; the motion after the last one. */
    method Observe(fixes: seq<Fix>) returns (motion: Motion)
      modifies this
      ensures Now() == Feed(old(Now()), fixes, distance) && motion == current
    {
      for i := 0 to |fixes|
        invariant Now() == Feed(old(Now()), fixes[..i], distance)
      {
        assert fixes[..i + 1][..i] == fixes[..i];
        Take(fixes[i]);
      }
      assert fixes[..|fixes|] == fixes;
      motion := current;
    }

    /** Takes one fix. */
    method Take(fix: Fix)
      modifies this
      ensures Now() == Step(old(Now()), fix, distance) && Takes(old(Now()), fix, distance, Now())
    {
      StepMeaning(Now(), fix, distance);
      var speed := if fix.spd.Some? then fix.spd else DerivedSpeed(fix);
      if last.Some? && fix.t <= last.value.t { return; }
      last := Some(fix);
      if speed.None? { return; }
      if speed.value >= MOVING_MPS {
        current, stillSince := Moving, None;
        return;
      }
      if speed.value >= STILL_MPS {
        current, stillSince := Slow, None;
        return;
      }
      if stillSince.None? { stillSince := Some(fix.t); }
      if fix.t - stillSince.value >= STILL_FOR_MS { current := Stationary; }
    }

    function DerivedSpeed(fix: Fix): Option<real>
      reads this
    {
      if last.None? || fix.t <= last.value.t then None
      else
        var seconds := (fix.t - last.value.t) as real / 1000.0;
        Some(distance(last.value, fix) / seconds)
    }
  }

  // ── The stream as a whole ──────────────────────────────────────────────────

  /** The fixes that are later than every one before. */
  function Kept(fixes: seq<Fix>): seq<Fix> {
    if fixes == [] then []
    else
      var before, fix := Kept(fixes[..|fixes| - 1]), fixes[|fixes| - 1];
      if IsLater(LastOf(before), fix) then before + [fix] else before
  }

  function LastOf(k: seq<Fix>): Option<Fix> { if k == [] then None else Some(k[|k| - 1]) }

  function Speed(k: seq<Fix>, i: nat, distance: Distance): Option<real>
    requires i < |k|
  {
    SpeedOf(LastOf(k[..i]), k[i], distance)
  }

  predicate IsBrisk(speed: Option<real>) { speed.Some? && speed.value >= STILL_MPS }

  /** No brisk fix from `i` on. */
  ghost predicate StillFrom(k: seq<Fix>, i: nat, distance: Distance) {
    forall j :: i <= j < |k| ==> !IsBrisk(Speed(k, j, distance))
  }

  ghost predicate Spans(k: seq<Fix>, i: nat, j: nat, distance: Distance) {
    i <= j < |k| && StillFrom(k, i, distance) && Speed(k, i, distance).Some? && Speed(k, j, distance).Some?
    && k[j].t - k[i].t >= STILL_FOR_MS
  }

  /** Known speeds after the last brisk one span two minutes. */
  ghost predicate IsParked(k: seq<Fix>, distance: Distance) { exists i: nat, j: nat :: Spans(k, i, j, distance) }

  /** The class of the last brisk fix, if there is one. */
  function BriskMotion(initial: Motion, k: seq<Fix>, distance: Distance): Motion {
    if k == [] then initial
    else
      var n := |k| - 1;
      var speed := Speed(k, n, distance);
      if !IsBrisk(speed) then BriskMotion(initial, k[..n], distance)
      else if speed.value >= MOVING_MPS then Moving else Slow
  }

  ghost function Declared(initial: Motion, k: seq<Fix>, distance: Distance): Motion {
    if IsParked(k, distance) then Stationary else BriskMotion(initial, k, distance)
  }

  /** `since` is when the still period after the last brisk fix began, if it has. */
  ghost predicate BeganAt(k: seq<Fix>, since: Option<int>, distance: Distance) {
    match since
    case None => forall i :: 0 <= i < |k| && StillFrom(k, i, distance) ==> Speed(k, i, distance).None?
    case Some(t) => exists i: nat :: Begins(k, i, distance) && k[i].t == t
  }

  ghost predicate Begins(k: seq<Fix>, i: nat, distance: Distance) {
    && i < |k| && StillFrom(k, i, distance) && Speed(k, i, distance).Some?
    && forall h :: 0 <= h < i && StillFrom(k, h, distance) ==> Speed(k, h, distance).None?
  }

  lemma SameSpeeds(k: seq<Fix>, fix: Fix, i: nat, distance: Distance)
    requires i < |k|
    ensures Speed(k + [fix], i, distance) == Speed(k, i, distance)
  {
    assert (k + [fix])[..i] == k[..i];
  }

  lemma StillSnoc(k: seq<Fix>, fix: Fix, i: nat, distance: Distance)
    requires i <= |k|
    ensures StillFrom(k + [fix], i, distance) <==> StillFrom(k, i, distance) && !IsBrisk(SpeedOf(LastOf(k), fix, distance))
  {
    var l := k + [fix];
    assert l[..|k|] == k;
    forall j | i <= j < |k| ensures Speed(l, j, distance) == Speed(k, j, distance) { SameSpeeds(k, fix, j, distance); }
    assert Speed(l, |k|, distance) == SpeedOf(LastOf(k), fix, distance);
    if StillFrom(l, i, distance) {
      forall j | i <= j < |k| ensures !IsBrisk(Speed(k, j, distance)) { assert !IsBrisk(Speed(l, j, distance)); }
    }
  }

  ghost predicate Increasing(k: seq<Fix>) { forall i, j :: 0 <= i < j < |k| ==> k[i].t < k[j].t }

  ghost predicate Describes(s: State, initial: Motion, k: seq<Fix>, distance: Distance) {
    && s.last == LastOf(k) && Increasing(k) && BeganAt(k, s.stillSince, distance) && s.current == Declared(initial, k, distance)
  }

  /** Only a first fix can be of unknown speed. It neither begins nor ends anything. */
  lemma UnknownStep(s: State, initial: Motion, k: seq<Fix>, fix: Fix, distance: Distance)
    requires Describes(s, initial, k, distance) && IsLater(LastOf(k), fix) && SpeedOf(LastOf(k), fix, distance).None?
    ensures Describes(Step(s, fix, distance), initial, k + [fix], distance)
  {
    assert k == [] && s.stillSince.None? && !IsParked(k, distance);
    assert [fix][..0] == [] && Speed([fix], 0, distance).None?;
  }

  lemma BriskStep(s: State, initial: Motion, k: seq<Fix>, fix: Fix, distance: Distance)
    requires Describes(s, initial, k, distance) && IsLater(LastOf(k), fix) && IsBrisk(SpeedOf(LastOf(k), fix, distance))
    ensures Describes(Step(s, fix, distance), initial, k + [fix], distance)
  {
    var l := k + [fix];
    assert l[..|k|] == k;
    forall i | 0 <= i <= |k| ensures !StillFrom(l, i, distance) { StillSnoc(k, fix, i, distance); }
  }

  lemma StillStep(s: State, initial: Motion, k: seq<Fix>, fix: Fix, distance: Distance)
    requires Describes(s, initial, k, distance) && IsLater(LastOf(k), fix)
    requires var v := SpeedOf(LastOf(k), fix, distance); v.Some? && !IsBrisk(v)
    ensures Describes(Step(s, fix, distance), initial, k + [fix], distance)
  {
    var l, n := k + [fix], |k|;
    assert l[..n] == k;
    StillGoesOn(k, fix, distance);
    var b := Beginning(s, k, l, fix, distance);
    assert Increasing(l);
    StillParks(k, l, b, distance);
    assert BriskMotion(initial, l, distance) == BriskMotion(initial, k, distance);
    StillOutcome(s, Step(s, fix, distance), initial, k, l, b, distance);
  }

  lemma StillOutcome(s: State, s': State, initial: Motion, k: seq<Fix>, l: seq<Fix>, b: nat, distance: Distance)
    requires s.current == Declared(initial, k, distance) && |l| == |k| + 1 && b <= |k| && Increasing(l)
    requires BeganAt(l, Some(l[b].t), distance) && BriskMotion(initial, l, distance) == BriskMotion(initial, k, distance)
    requires IsParked(l, distance) <==> l[|k|].t - l[b].t >= STILL_FOR_MS
    requires IsParked(k, distance) ==> IsParked(l, distance)
    requires s' == State(if l[|k|].t - l[b].t >= STILL_FOR_MS then Stationary else s.current, Some(l[b].t), Some(l[|k|]))
    ensures Describes(s', initial, l, distance)
  {
  }

  /** The last fix changes nothing about the speeds before it, nor about where the brisk ones end. */
  ghost predicate GoesOn(k: seq<Fix>, l: seq<Fix>, distance: Distance) {
    && |l| == |k| + 1
    && (forall i :: 0 <= i < |k| ==> Speed(l, i, distance) == Speed(k, i, distance))
    && (forall i :: 0 <= i <= |k| ==> (StillFrom(l, i, distance) <==> StillFrom(k, i, distance)))
  }

  lemma StillGoesOn(k: seq<Fix>, fix: Fix, distance: Distance)
    requires !IsBrisk(SpeedOf(LastOf(k), fix, distance))
    ensures GoesOn(k, k + [fix], distance)
  {
    var l := k + [fix];
    forall i | 0 <= i < |k| ensures Speed(l, i, distance) == Speed(k, i, distance) { SameSpeeds(k, fix, i, distance); }
    forall i | 0 <= i <= |k| ensures StillFrom(l, i, distance) <==> StillFrom(k, i, distance) { StillSnoc(k, fix, i, distance); }
  }

  /** The still period that `fix` is in began at the fix `b`. */
  lemma Beginning(s: State, k: seq<Fix>, l: seq<Fix>, fix: Fix, distance: Distance) returns (b: nat)
    requires BeganAt(k, s.stillSince, distance) && l == k + [fix] && Speed(l, |k|, distance).Some?
    requires GoesOn(k, l, distance)
    ensures Begins(l, b, distance) && l[b].t == if s.stillSince.Some? then s.stillSince.value else fix.t
    ensures BeganAt(l, Some(l[b].t), distance)
  {
    match s.stillSince
    case None => b := |k|;
    case Some(t) => b :| Begins(k, b, distance) && k[b].t == t;
  }

  /** Parked, once the period that began at `b` is long enough: it was before, or this fix makes it so. */
  lemma StillParks(k: seq<Fix>, l: seq<Fix>, b: nat, distance: Distance)
    requires |l| == |k| + 1 && l[..|k|] == k && Increasing(l) && Begins(l, b, distance)
    requires var v := Speed(l, |k|, distance); v.Some? && !IsBrisk(v)
    requires GoesOn(k, l, distance)
    ensures IsParked(l, distance) <==> l[|k|].t - l[b].t >= STILL_FOR_MS
    ensures IsParked(k, distance) ==> IsParked(l, distance)
  {
    if l[|k|].t - l[b].t >= STILL_FOR_MS { assert Spans(l, b, |k|, distance); }
    if IsParked(l, distance) {
      var i: nat, j: nat :| Spans(l, i, j, distance);
      assert b <= i;
    }
    if IsParked(k, distance) {
      var i: nat, j: nat :| Spans(k, i, j, distance);
      assert Spans(l, i, j, distance);
    }
  }

  lemma KeepsDescribing(s: State, initial: Motion, k: seq<Fix>, fix: Fix, distance: Distance)
    requires Describes(s, initial, k, distance)
    ensures Describes(Step(s, fix, distance), initial, if IsLater(LastOf(k), fix) then k + [fix] else k, distance)
  {
    if IsLater(LastOf(k), fix) {
      var v := SpeedOf(LastOf(k), fix, distance);
      if v.None? { UnknownStep(s, initial, k, fix, distance); }
      else if IsBrisk(v) { BriskStep(s, initial, k, fix, distance); }
      else { StillStep(s, initial, k, fix, distance); }
    }
  }

  /**
   * Fed one by one, the classifier says what the stream says as a whole: over the strictly later fixes, parked if known
   * speeds after the last brisk one span two minutes, else the class of that one, else what it started from.
   */
  lemma {:induction false} FeedMeaning(initial: Motion, fixes: seq<Fix>, distance: Distance)
    ensures Describes(Feed(Start(initial), fixes, distance), initial, Kept(fixes), distance)
  {
    if fixes != [] {
      FeedMeaning(initial, fixes[..|fixes| - 1], distance);
      KeepsDescribing(Feed(Start(initial), fixes[..|fixes| - 1], distance), initial, Kept(fixes[..|fixes| - 1]), fixes[|fixes| - 1], distance);
    }
  }

  /** On one instance, a stream may be fed in pieces. */
  lemma {:induction false} FeedComposes(s: State, a: seq<Fix>, b: seq<Fix>, distance: Distance)
    ensures Feed(Feed(s, a, distance), b, distance) == Feed(s, a + b, distance)
  {
    if b == [] {
      assert a + b == a;
    } else {
      assert (a + b)[..|a + b| - 1] == a + b[..|b| - 1];
      FeedComposes(s, a, b[..|b| - 1], distance);
    }
  }

  // ── Rebuilt from the motion alone ──────────────────────────────────────────

  /** The speed of fix `i` of a chunk that follows `last`. */
  function ChunkSpeed(last: Option<Fix>, b: seq<Fix>, i: nat, distance: Distance): Option<real>
    requires i < |b|
  {
    SpeedOf(if i == 0 then last else Some(b[i - 1]), b[i], distance)
  }

  ghost predicate HasBrisk(last: Option<Fix>, b: seq<Fix>, distance: Distance) {
    exists i: nat :: i < |b| && IsBrisk(ChunkSpeed(last, b, i, distance))
  }

  ghost predicate Follows(last: Option<Fix>, b: seq<Fix>) { Increasing(b) && (b != [] ==> IsLater(last, b[0])) }

  /** A still period from `since` on, up to the last of the fixes. */
  predicate Lasts(since: int, b: seq<Fix>) { b != [] && b[|b| - 1].t - since >= STILL_FOR_MS }

  function Began(since: Option<int>, b: seq<Fix>): int
    requires b != []
  {
    if since.Some? then since.value else b[0].t
  }

  /** Fixes of known speed, none of them brisk: parked once the period lasts. */
  lemma {:induction false} FeedStill(s: State, b: seq<Fix>, distance: Distance)
    requires s.last.Some? && b != [] && Follows(s.last, b) && !HasBrisk(s.last, b, distance)
    requires s.stillSince.Some? ==> s.stillSince.value <= s.last.value.t
    ensures Feed(s, b, distance)
            == State(if Lasts(Began(s.stillSince, b), b) then Stationary else s.current, Some(Began(s.stillSince, b)), Some(b[|b| - 1]))
  {
    var n := |b| - 1;
    var before := b[..n];
    assert !IsBrisk(ChunkSpeed(s.last, b, n, distance));
    if before == [] {
      assert Feed(s, before, distance) == s;
    } else {
      NoBriskBefore(s.last, b, distance);
      FeedStill(s, before, distance);
    }
  }

  lemma NoBriskBefore(last: Option<Fix>, b: seq<Fix>, distance: Distance)
    requires b != [] && !HasBrisk(last, b, distance)
    ensures !HasBrisk(last, b[..|b| - 1], distance)
  {
    var before := b[..|b| - 1];
    forall i: nat | i < |before| ensures !IsBrisk(ChunkSpeed(last, before, i, distance)) {
      assert !IsBrisk(ChunkSpeed(last, b, i, distance));
    }
  }

  lemma {:induction false} LastIsKept(s: State, b: seq<Fix>, distance: Distance)
    requires Follows(s.last, b)
    ensures Feed(s, b, distance).last == if b == [] then s.last else Some(b[|b| - 1])
  {
    if b != [] {
      var before := b[..|b| - 1];
      LastIsKept(s, before, distance);
      assert IsLater(Feed(s, before, distance).last, b[|b| - 1]);
    }
  }

  lemma BriskStepForgets(f: State, r: State, fix: Fix, distance: Distance)
    requires f.last == r.last && IsLater(f.last, fix) && IsBrisk(SpeedOf(f.last, fix, distance))
    ensures Step(f, fix, distance) == Step(r, fix, distance)
  {
  }

  /** After a brisk fix nothing is left of what was before. */
  lemma {:induction false} BriskForgets(f: State, r: State, b: seq<Fix>, distance: Distance)
    requires f.last == r.last && Follows(f.last, b) && HasBrisk(f.last, b, distance)
    ensures Feed(f, b, distance) == Feed(r, b, distance)
  {
    var n := |b| - 1;
    var before := b[..n];
    if HasBrisk(f.last, before, distance) {
      BriskForgets(f, r, before, distance);
    } else {
      LastIsBrisk(f.last, b, distance);
      LastIsKept(f, before, distance);
      LastIsKept(r, before, distance);
      BriskStepForgets(Feed(f, before, distance), Feed(r, before, distance), b[n], distance);
    }
  }

  lemma LastIsBrisk(last: Option<Fix>, b: seq<Fix>, distance: Distance)
    requires b != [] && HasBrisk(last, b, distance) && !HasBrisk(last, b[..|b| - 1], distance)
    ensures IsBrisk(ChunkSpeed(last, b, |b| - 1, distance))
  {
    var before := b[..|b| - 1];
    var i: nat :| i < |b| && IsBrisk(ChunkSpeed(last, b, i, distance));
    forall j: nat | j < |before| ensures !IsBrisk(ChunkSpeed(last, b, j, distance)) {
      assert !IsBrisk(ChunkSpeed(last, before, j, distance));
    }
    assert i == |b| - 1;
  }

  /** The still period so far began no later than the last fix. */
  lemma {:induction false} BeganBefore(initial: Motion, a: seq<Fix>, distance: Distance)
    ensures var s := Feed(Start(initial), a, distance);
            s.stillSince.Some? ==> s.last.Some? && s.stillSince.value <= s.last.value.t
  {
    if a != [] { BeganBefore(initial, a[..|a| - 1], distance); }
  }

  lemma HeadThenRest(s: State, b: seq<Fix>, distance: Distance)
    requires b != []
    ensures Feed(s, b, distance) == Feed(Step(s, b[0], distance), b[1..], distance)
  {
    assert [b[0]] + b[1..] == b && [b[0]][..0] == [];
    FeedComposes(s, [b[0]], b[1..], distance);
    assert Feed(s, [b[0]], distance) == Step(s, b[0], distance);
  }

  /** What the fixes after the first make of a state. */
  lemma AfterFirst(s: State, b: seq<Fix>, distance: Distance)
    requires b != [] && s.last == Some(b[0]) && Increasing(b) && (s.stillSince.Some? ==> s.stillSince.value <= b[0].t)
    requires !HasBrisk(s.last, b[1..], distance)
    ensures Feed(s, b[1..], distance).current
            == if |b| > 1 && Lasts(Began(s.stillSince, b[1..]), b) then Stationary else s.current
  {
    var rest := b[1..];
    if rest != [] { FeedStill(s, rest, distance); }
  }

  /** The first of increasing fixes, up to those later than `last`. */
  function Stale(last: Option<Fix>, k: seq<Fix>): (r: seq<Fix>)
    ensures r <= k && (|r| < |k| ==> IsLater(last, k[|r|])) && forall i :: 0 <= i < |r| ==> !IsLater(last, r[i])
  {
    if k == [] || IsLater(last, k[0]) then []
    else
      var r := Stale(last, k[1..]);
      assert [k[0]] + r <= k;
      [k[0]] + r
  }

  /** The fixes of a delivery that are later than `last` and than every one before. */
  function Fresh(last: Option<Fix>, b: seq<Fix>): seq<Fix> { Kept(b)[|Stale(last, Kept(b))|..] }

  lemma {:induction false} StaleSnoc(last: Option<Fix>, k: seq<Fix>, fix: Fix)
    ensures Stale(last, k + [fix])
            == if |Stale(last, k)| == |k| && !IsLater(last, fix) then Stale(last, k) + [fix] else Stale(last, k)
  {
    if k != [] {
      assert (k + [fix])[1..] == k[1..] + [fix];
      StaleSnoc(last, k[1..], fix);
    }
  }

  lemma KeptIncreases(b: seq<Fix>)
    ensures Increasing(Kept(b))
  {
    FeedMeaning(Moving, b, (x, y) => 0.0);
  }

  lemma FreshFollows(last: Option<Fix>, b: seq<Fix>)
    ensures Follows(last, Fresh(last, b)) && Stale(last, Kept(b)) + Fresh(last, b) == Kept(b)
  {
    KeptIncreases(b);
  }

  /** A classifier that has seen `last` takes the later ones of a delivery and no others. */
  lemma {:induction false} FeedTakesFresh(s: State, b: seq<Fix>, distance: Distance)
    ensures Feed(s, b, distance) == Feed(s, Fresh(s.last, b), distance)
  {
    if b != [] {
      var n := |b| - 1;
      var k, fix := Kept(b[..n]), b[n];
      FeedTakesFresh(s, b[..n], distance);
      FreshFollows(s.last, b[..n]);
      LastIsKept(s, Fresh(s.last, b[..n]), distance);
      FreshSnoc(s.last, b);
      if Fresh(s.last, b) != Fresh(s.last, b[..n]) {
        assert (Fresh(s.last, b[..n]) + [fix])[..|Fresh(s.last, b[..n])|] == Fresh(s.last, b[..n]);
      }
    }
  }

  /** The fixes of an increasing list behind the stale ones. */
  function Behind(last: Option<Fix>, k: seq<Fix>): seq<Fix> { k[|Stale(last, k)|..] }

  lemma BehindSnoc(last: Option<Fix>, k: seq<Fix>, fix: Fix)
    ensures Behind(last, k + [fix])
            == if Behind(last, k) == [] && !IsLater(last, fix) then [] else Behind(last, k) + [fix]
  {
    StaleSnoc(last, k, fix);
  }

  lemma FreshSnoc(last: Option<Fix>, b: seq<Fix>)
    requires b != []
    ensures var before, fix := Fresh(last, b[..|b| - 1]), b[|b| - 1];
            Fresh(last, b) == if IsLater(if before == [] then last else LastOf(before), fix) then before + [fix] else before
  {
    var k, fix := Kept(b[..|b| - 1]), b[|b| - 1];
    if IsLater(LastOf(k), fix) {
      assert Fresh(last, b) == Behind(last, k + [fix]);
      BehindSnoc(last, k, fix);
      LastBehind(last, k);
    } else {
      assert Fresh(last, b) == Behind(last, k);
      LastBehind(last, k);
    }
  }

  /** What is behind the stale ones ends with the last of all, which is stale itself if there is nothing behind. */
  lemma LastBehind(last: Option<Fix>, k: seq<Fix>)
    ensures Behind(last, k) != [] ==> LastOf(Behind(last, k)) == LastOf(k)
    ensures Behind(last, k) == [] && k != [] ==> !IsLater(last, k[|k| - 1])
  {
    var stale := Stale(last, k);
    if Behind(last, k) == [] && k != [] { assert stale[|k| - 1] == k[|k| - 1]; }
  }

  lemma {:induction false} KeptAll(k: seq<Fix>)
    requires Increasing(k)
    ensures Kept(k) == k
  {
    if k != [] {
      KeptAll(k[..|k| - 1]);
      assert k[..|k| - 1] + [k[|k| - 1]] == k;
    }
  }

  /** A rebuilt classifier takes the stale fixes too. */
  lemma RebuiltTakes(current: Motion, last: Option<Fix>, b: seq<Fix>, distance: Distance)
    ensures Feed(Start(current), b, distance)
            == Feed(Feed(Start(current), Stale(last, Kept(b)), distance), Fresh(last, b), distance)
  {
    FreshFollows(last, b);
    FeedTakesFresh(Start(current), b, distance);
    assert Stale(None, Kept(b)) == [] && Fresh(None, b) == Kept(b);
    FeedComposes(Start(current), Stale(last, Kept(b)), Fresh(last, b), distance);
  }

  lemma StaleMeaning(current: Motion, stale: seq<Fix>, distance: Distance)
    requires Increasing(stale)
    ensures var rebuilt := Feed(Start(current), stale, distance);
            && rebuilt.last == LastOf(stale) && rebuilt.current == Declared(current, stale, distance)
            && (rebuilt.stillSince.Some? ==> rebuilt.last.Some? && rebuilt.stillSince.value <= rebuilt.last.value.t)
  {
    FeedMeaning(current, stale, distance);
    KeptAll(stale);
    BeganBefore(current, stale, distance);
  }

  /** What a state that has just taken the first of the fixes makes of the others, if none of those is brisk. */
  function Ends(s: State, k: seq<Fix>): Motion
    requires k != []
  {
    if |k| > 1 && Lasts(Began(s.stillSince, k[1..]), k) then Stationary else s.current
  }

  /**
   * A classifier rebuilt from its motion forgets the last fix and when the van came to a stop. After any fixes `a`, and a
   * delivery `b` of any fixes, it agrees with the one that was kept exactly so: if nothing is later than the last fix, the
   * rebuilt one must not have changed its mind over the stale ones; else there is a brisk fix behind the first later one,
   * or the two states after that fix end alike.
   */
  lemma RebuiltAgrees(initial: Motion, a: seq<Fix>, b: seq<Fix>, distance: Distance)
    ensures var s := Feed(Start(initial), a, distance);
            var stale, later := Stale(s.last, Kept(b)), Fresh(s.last, b);
            Feed(Start(s.current), b, distance).current == Feed(s, b, distance).current
            <==> if later == [] then Declared(s.current, stale, distance) == s.current
                 else HasBrisk(Some(later[0]), later[1..], distance)
                      || Ends(Step(s, later[0], distance), later)
                         == Ends(Step(Feed(Start(s.current), stale, distance), later[0], distance), later)
  {
    var s := Feed(Start(initial), a, distance);
    var later := Fresh(s.last, b);
    FeedTakesFresh(s, b, distance);
    RebuiltTakes(s.current, s.last, b, distance);
    FreshFollows(s.last, b);
    KeptIncreases(b);
    StaleMeaning(s.current, Stale(s.last, Kept(b)), distance);
    if later != [] {
      BeganBefore(initial, a, distance);
      StaleIsBefore(s.last, b);
      AgreeBehindFirst(s, Feed(Start(s.current), Stale(s.last, Kept(b)), distance), later, distance);
    }
  }

  lemma StaleIsBefore(last: Option<Fix>, b: seq<Fix>)
    requires Fresh(last, b) != []
    ensures IsLater(LastOf(Stale(last, Kept(b))), Fresh(last, b)[0])
  {
    KeptIncreases(b);
  }

  lemma AgreeBehindFirst(s: State, r: State, k: seq<Fix>, distance: Distance)
    requires k != [] && Increasing(k) && IsLater(s.last, k[0]) && IsLater(r.last, k[0])
    requires s.stillSince.Some? ==> s.last.Some? && s.stillSince.value <= s.last.value.t
    requires r.stillSince.Some? ==> r.last.Some? && r.stillSince.value <= r.last.value.t
    ensures Feed(r, k, distance).current == Feed(s, k, distance).current
            <==> HasBrisk(Some(k[0]), k[1..], distance) || Ends(Step(s, k[0], distance), k) == Ends(Step(r, k[0], distance), k)
  {
    AfterHead(s, k, distance);
    AfterHead(r, k, distance);
    assert Follows(Some(k[0]), k[1..]);
    if HasBrisk(Some(k[0]), k[1..], distance) {
      BriskForgets(Step(s, k[0], distance), Step(r, k[0], distance), k[1..], distance);
    }
  }

  lemma AfterHead(s: State, k: seq<Fix>, distance: Distance)
    requires k != [] && Increasing(k) && IsLater(s.last, k[0])
    requires s.stillSince.Some? ==> s.last.Some? && s.stillSince.value <= s.last.value.t
    ensures Step(s, k[0], distance).last == Some(k[0])
    ensures Feed(s, k, distance) == Feed(Step(s, k[0], distance), k[1..], distance)
    ensures !HasBrisk(Some(k[0]), k[1..], distance) ==> Feed(s, k, distance).current == Ends(Step(s, k[0], distance), k)
  {
    HeadThenRest(s, k, distance);
    if !HasBrisk(Some(k[0]), k[1..], distance) { AfterFirst(Step(s, k[0], distance), k, distance); }
  }

  /** If every fix is later than the last one, the rebuilt classifier starts where the first leads it. */
  lemma RebuiltOnLater(initial: Motion, a: seq<Fix>, b: seq<Fix>, distance: Distance)
    requires var s := Feed(Start(initial), a, distance); s.last.Some? && forall f :: f in b ==> IsLater(s.last, f)
    requires b != []
    ensures var s, k := Feed(Start(initial), a, distance), Kept(b);
            && k != [] && k[0] == b[0] && Increasing(k) && IsLater(s.last, k[0])
            && (s.stillSince.Some? ==> s.stillSince.value <= s.last.value.t)
            && (Feed(Start(s.current), b, distance).current == Feed(s, b, distance).current
                <==> HasBrisk(Some(k[0]), k[1..], distance)
                     || Ends(Step(s, k[0], distance), k) == Ends(Step(Start(s.current), k[0], distance), k))
  {
    var s := Feed(Start(initial), a, distance);
    AllFresh(s.last, b);
    RebuiltAgrees(initial, a, b, distance);
    BeganBefore(initial, a, distance);
    KeptIncreases(b);
    assert Feed(Start(s.current), [], distance) == Start(s.current);
  }

  lemma EndWithSpeed(s: State, k: seq<Fix>, distance: Distance)
    requires k != [] && Increasing(k) && s.last.Some? && IsLater(s.last, k[0]) && k[0].spd.Some?
    requires s.stillSince.Some? ==> s.stillSince.value <= s.last.value.t
    ensures Ends(Step(s, k[0], distance), k) == Ends(Step(Start(s.current), k[0], distance), k)
            <==> IsBrisk(k[0].spd) || s.current.Stationary? || s.stillSince.None?
                 || !Lasts(s.stillSince.value, k) || Lasts(k[0].t, k)
  {
  }

  lemma EndWithoutSpeed(s: State, k: seq<Fix>, distance: Distance)
    requires k != [] && Increasing(k) && s.last.Some? && IsLater(s.last, k[0]) && k[0].spd.None?
    requires s.stillSince.Some? ==> s.stillSince.value <= s.last.value.t
    ensures var v := SpeedOf(s.last, k[0], distance);
            Ends(Step(s, k[0], distance), k) == Ends(Step(Start(s.current), k[0], distance), k)
            <==> (|k| > 1 && Lasts(k[1].t, k))
                 || if IsBrisk(v) then s.current == if v.value >= MOVING_MPS then Moving else Slow
                    else s.current.Stationary? || !Lasts(if s.stillSince.Some? then s.stillSince.value else k[0].t, k)
  {
  }

  /**
   * If every fix is later than the last one and the first carries its speed, that comes to this: the rebuilt one
   * disagrees when the van was standing but not yet parked, stayed so, and the two minutes were full only counting from
   * before the break.
   */
  lemma RebuiltWithSpeed(initial: Motion, a: seq<Fix>, b: seq<Fix>, distance: Distance)
    requires var s := Feed(Start(initial), a, distance); s.last.Some? && forall f :: f in b ==> IsLater(s.last, f)
    requires b != [] && b[0].spd.Some?
    ensures var s, k := Feed(Start(initial), a, distance), Kept(b);
            Feed(Start(s.current), b, distance).current == Feed(s, b, distance).current
            <==> || IsBrisk(b[0].spd) || HasBrisk(Some(b[0]), k[1..], distance)
                 || s.current.Stationary? || s.stillSince.None?
                 || !Lasts(s.stillSince.value, k) || Lasts(b[0].t, k)
  {
    var s := Feed(Start(initial), a, distance);
    RebuiltOnLater(initial, a, b, distance);
    EndWithSpeed(s, Kept(b), distance);
  }

  /** And if the first fix carries none: it is lost on the rebuilt one, which has nothing to derive it from. */
  lemma RebuiltWithoutSpeed(initial: Motion, a: seq<Fix>, b: seq<Fix>, distance: Distance)
    requires var s := Feed(Start(initial), a, distance); s.last.Some? && forall f :: f in b ==> IsLater(s.last, f)
    requires b != [] && b[0].spd.None?
    ensures var s, k := Feed(Start(initial), a, distance), Kept(b);
            var v := SpeedOf(s.last, b[0], distance);
            Feed(Start(s.current), b, distance).current == Feed(s, b, distance).current
            <==> || HasBrisk(Some(b[0]), k[1..], distance) || (|k| > 1 && Lasts(k[1].t, k))
                 || if IsBrisk(v) then s.current == if v.value >= MOVING_MPS then Moving else Slow
                    else s.current.Stationary? || !Lasts(if s.stillSince.Some? then s.stillSince.value else b[0].t, k)
  {
    var s := Feed(Start(initial), a, distance);
    RebuiltOnLater(initial, a, b, distance);
    EndWithoutSpeed(s, Kept(b), distance);
  }

  lemma {:induction false} KeptMembers(b: seq<Fix>)
    ensures (b != [] ==> Kept(b) != [] && Kept(b)[0] == b[0]) && forall f :: f in Kept(b) ==> f in b
  {
    if b != [] {
      KeptMembers(b[..|b| - 1]);
      assert |b| == 1 ==> b[..0] == [];
    }
  }

  lemma AllFresh(last: Option<Fix>, b: seq<Fix>)
    requires b != [] && forall f :: f in b ==> IsLater(last, f)
    ensures Stale(last, Kept(b)) == [] && Fresh(last, b) == Kept(b) && Kept(b) != [] && Kept(b)[0] == b[0]
  {
    KeptMembers(b);
    assert Kept(b)[0] in Kept(b);
  }

  // ── A whole day of deliveries, each on a rebuilt classifier ────────────────

  /** The motion after each delivery is stored, and the next delivery starts from it. */
  function Rebuilding(initial: Motion, deliveries: seq<seq<Fix>>, distance: Distance): Motion {
    if deliveries == [] then initial
    else
      var n := |deliveries| - 1;
      Feed(Start(Rebuilding(initial, deliveries[..n], distance)), deliveries[n], distance).current
  }

  /** The delivery's own still fixes span two minutes. */
  ghost predicate Parks(delivery: seq<Fix>, distance: Distance) { IsParked(Kept(delivery), distance) }

  ghost predicate AnyBrisk(k: seq<Fix>, distance: Distance) { exists i: nat :: i < |k| && IsBrisk(Speed(k, i, distance)) }

  lemma {:induction false} BriskMotionMeaning(initial: Motion, k: seq<Fix>, distance: Distance)
    ensures BriskMotion(initial, k, distance).Stationary? <==> initial.Stationary? && !AnyBrisk(k, distance)
  {
    if k != [] {
      var n := |k| - 1;
      var before := k[..n];
      BriskMotionMeaning(initial, before, distance);
      forall i | 0 <= i < n ensures Speed(before, i, distance) == Speed(k, i, distance) { assert before[..i] == k[..i]; }
      if AnyBrisk(before, distance) {
        var i: nat :| i < |before| && IsBrisk(Speed(before, i, distance));
        assert IsBrisk(Speed(k, i, distance));
      } else if AnyBrisk(k, distance) {
        var i: nat :| i < |k| && IsBrisk(Speed(k, i, distance));
        assert i == n;
      }
    }
  }

  /** From position `from` on no delivery has a brisk fix. */
  ghost predicate CalmFrom(deliveries: seq<seq<Fix>>, from: nat, distance: Distance) {
    forall j :: from <= j < |deliveries| ==> !AnyBrisk(Kept(deliveries[j]), distance)
  }

  ghost predicate ParkedAt(deliveries: seq<seq<Fix>>, i: nat, distance: Distance) {
    i < |deliveries| && Parks(deliveries[i], distance) && CalmFrom(deliveries, i + 1, distance)
  }

  /**
   * Over a whole day, the van counts as parked exactly if one delivery's own fixes show two minutes of standing and no
   * brisk fix came in a later one, or it was parked to begin with and none came at all. Standing that is spread over
   * deliveries, however long, never counts.
   */
  lemma {:induction false} ParkedWithinOneDelivery(initial: Motion, deliveries: seq<seq<Fix>>, distance: Distance)
    ensures Rebuilding(initial, deliveries, distance).Stationary?
            <==> (initial.Stationary? && CalmFrom(deliveries, 0, distance)) || exists i :: ParkedAt(deliveries, i, distance)
  {
    if deliveries != [] {
      var n := |deliveries| - 1;
      var before, last := deliveries[..n], deliveries[n];
      ParkedWithinOneDelivery(initial, before, distance);
      FeedMeaning(Rebuilding(initial, before, distance), last, distance);
      BriskMotionMeaning(Rebuilding(initial, before, distance), Kept(last), distance);
      OneMoreDelivery(before, last, distance);
      assert before + [last] == deliveries;
    }
  }

  lemma OneMoreDelivery(before: seq<seq<Fix>>, last: seq<Fix>, distance: Distance)
    ensures CalmFrom(before + [last], 0, distance) <==> CalmFrom(before, 0, distance) && !AnyBrisk(Kept(last), distance)
    ensures (exists i :: ParkedAt(before + [last], i, distance))
            <==> Parks(last, distance) || (!AnyBrisk(Kept(last), distance) && exists i :: ParkedAt(before, i, distance))
  {
    var all, n := before + [last], |before|;
    forall from: nat | from <= n ensures CalmFrom(all, from, distance) <==> CalmFrom(before, from, distance) && !AnyBrisk(Kept(last), distance) {
      assert all[n] == last;
      if CalmFrom(all, from, distance) {
        forall j | from <= j < n ensures !AnyBrisk(Kept(before[j]), distance) { assert all[j] == before[j]; }
      }
    }
    assert ParkedAt(all, n, distance) <==> Parks(last, distance);
    forall i: nat | i < n ensures ParkedAt(all, i, distance) <==> ParkedAt(before, i, distance) && !AnyBrisk(Kept(last), distance) {
      assert all[i] == before[i];
    }
    if i :| ParkedAt(before, i, distance) { assert ParkedAt(all, i, distance) <==> !AnyBrisk(Kept(last), distance); }
  }

  /** Standing for two minutes, cut in two by a restart: the kept classifier parks the van and the rebuilt one does not. */
  lemma RestartUnparks(distance: Distance)
    ensures var a := [Fix(0, 0.0, 0.0, Some(5.0)), Fix(1000, 0.0, 0.0, Some(0.0))];
            var b := [Fix(61000, 0.0, 0.0, Some(0.0)), Fix(121000, 0.0, 0.0, Some(0.0))];
            var s := Feed(Start(Moving), a, distance);
            Feed(s, b, distance).current == Stationary && Feed(Start(s.current), b, distance).current == Moving
  {
    var a := [Fix(0, 0.0, 0.0, Some(5.0)), Fix(1000, 0.0, 0.0, Some(0.0))];
    var b := [Fix(61000, 0.0, 0.0, Some(0.0)), Fix(121000, 0.0, 0.0, Some(0.0))];
    assert a[..1] == [a[0]] && b[..1] == [b[0]] && a[..1][..0] == [] && b[..1][..0] == [];
    var s := Feed(Start(Moving), a, distance);
    assert Feed(Start(Moving), a[..1], distance) == State(Moving, None, Some(a[0]));
    assert s == State(Moving, Some(1000), Some(a[1]));
    assert Feed(s, b[..1], distance) == State(Moving, Some(1000), Some(b[0]));
    assert Feed(Start(Moving), b[..1], distance) == State(Moving, Some(61000), Some(b[0]));
  }
}
