/** The calls of a flush: what each one carried, how it ended, and what its answer says about each action. */
module OutboxCalls {
  import opened Common
  import opened OutboxModel

  /** A call's outcome as data: a lost or unauthenticated call is transient, any other refusal is about this request. */
  datatype Attempt<+T> = Ok(value: T) | Transient | RefusedCall(code: string, detail: string)

  /** A call that answers nothing has one way to succeed. */
  lemma OnlyOk(outcome: Attempt<()>)
    requires outcome.Ok?
    ensures outcome == Ok(())
  {
    var nothing: () := outcome.value;
    assert nothing == ();
  }

  datatype Verdict = DiscardAndRefresh | RetryLater | EscalateToDispatcher

  datatype SyncResult =
    | Accepted(key: Option<Uuid>)
    | Rejected(key: Option<Uuid>, code: string, detail: string, verdict: Verdict)
  datatype SyncResponse = SyncResponse(results: seq<SyncResult>, active: seq<RouteRef>, updates: seq<RouteUpdate>)
  datatype ScanResult = ScanResult(index: int, status: string, verdict: Option<Verdict>, reason: Option<string>)
  datatype MediaSlot = MediaSlot(slot: Slot, uploadUrl: Option<string>)

  // ── What an answer says about one action ───────────────────────────────────

  datatype Ruling = Missing | Took(patch: ActionPatch) | Ruled(verdict: Verdict, code: string, detail: string)

  /** The action must be sent again, and its subject's later ones wait behind it. */
  predicate Holds(ruling: Ruling) { ruling.Missing? || (ruling.Ruled? && ruling.verdict.RetryLater?) }

  const TAKEN_BY_SYNC := ActionPatch(Some(Done), None, Some(None), Some(None))
  const TAKEN_BY_PICKUP := ActionPatch(Some(Done), None, None, None)

  function OfSync(result: SyncResult): Ruling {
    match result
    case Accepted(_) => Took(TAKEN_BY_SYNC)
    case Rejected(_, code, detail, verdict) => Ruled(verdict, code, detail)
  }

  /** An accepted action is done and keeps no error; a rejected one has its verdict. */
  ghost predicate Rules(result: SyncResult, ruling: Ruling) {
    match result
    case Accepted(_) => ruling == Took(ActionPatch(Some(Done), None, Some(None), Some(None)))
    case Rejected(_, code, detail, verdict) => ruling == Ruled(verdict, code, detail)
  }

  predicate IsFirstFor(results: seq<SyncResult>, key: Uuid, i: int) {
    && 0 <= i < |results| && results[i].key == Some(key)
    && forall j :: 0 <= j < i ==> results[j].key != Some(key)
  }

  /** The first result under the key. */
  function SyncRuling(results: seq<SyncResult>, key: Uuid): (r: Ruling)
    ensures if forall i :: 0 <= i < |results| ==> results[i].key != Some(key) then r.Missing?
            else exists i :: IsFirstFor(results, key, i) && Rules(results[i], r)
  {
    if results == [] then Missing
    else if results[0].key == Some(key) then assert IsFirstFor(results, key, 0); OfSync(results[0])
    else
      var r := SyncRuling(results[1..], key);
      assert forall i :: IsFirstFor(results[1..], key, i) ==> IsFirstFor(results, key, i + 1) && results[i + 1] == results[1..][i];
      assert forall i :: 0 < i < |results| ==> results[i] == results[1..][i - 1];
      r
  }

  function OfScan(result: ScanResult): Ruling {
    match result.verdict
    case None => Took(TAKEN_BY_PICKUP)
    case Some(verdict) => Ruled(verdict, result.status, Or(result.reason, ""))
  }

  /** A scan without a verdict is done; one with a verdict says its status, and its reason if it has one. */
  ghost predicate RulesScan(result: ScanResult, ruling: Ruling) {
    match result.verdict
    case None => ruling == Took(ActionPatch(Some(Done), None, None, None))
    case Some(verdict) => ruling == Ruled(verdict, result.status, match result.reason case Some(reason) => reason case None => "")
  }

  predicate IsFirstAt(results: seq<ScanResult>, index: nat, i: int) {
    && 0 <= i < |results| && results[i].index == index
    && forall j :: 0 <= j < i ==> results[j].index != index
  }

  /** The first result at the position. */
  function ScanRuling(results: seq<ScanResult>, index: nat): (r: Ruling)
    ensures if forall i :: 0 <= i < |results| ==> results[i].index != index then r.Missing?
            else exists i :: IsFirstAt(results, index, i) && RulesScan(results[i], r)
  {
    if results == [] then Missing
    else if results[0].index == index then assert IsFirstAt(results, index, 0); OfScan(results[0])
    else
      var r := ScanRuling(results[1..], index);
      assert forall i :: IsFirstAt(results[1..], index, i) ==> IsFirstAt(results, index, i + 1) && results[i + 1] == results[1..][i];
      assert forall i :: 0 < i < |results| ==> results[i] == results[1..][i - 1];
      r
  }

  function SyncRulings(results: seq<SyncResult>, keys: seq<Uuid>): (r: seq<Ruling>)
    ensures |r| == |keys| && forall i :: 0 <= i < |r| ==> r[i] == SyncRuling(results, keys[i])
  {
    seq(|keys|, i requires 0 <= i < |keys| => SyncRuling(results, keys[i]))
  }

  function ScanRulings(results: seq<ScanResult>, n: nat): (r: seq<Ruling>)
    ensures |r| == n && forall i :: 0 <= i < n ==> r[i] == ScanRuling(results, i)
  {
    seq(n, i requires 0 <= i < n => ScanRuling(results, i))
  }

  /** One verdict on a whole batch. */
  function AllRuled(n: nat, verdict: Verdict, code: string, detail: string): (r: seq<Ruling>)
    ensures |r| == n && forall i :: 0 <= i < n ==> r[i] == Ruled(verdict, code, detail)
  {
    seq(n, i => Ruled(verdict, code, detail))
  }

  /** What a scan call comes to: a refused one discards all its scans. */
  function ScanOutcomes(outcome: Attempt<seq<ScanResult>>, n: nat): (r: seq<Ruling>)
    requires !outcome.Transient?
    ensures |r| == n
    ensures forall i :: 0 <= i < n ==>
              if outcome.RefusedCall? then r[i] == Ruled(DiscardAndRefresh, outcome.code, outcome.detail)
              else r[i] == ScanRuling(outcome.value, i)
  {
    if outcome.RefusedCall? then AllRuled(n, DiscardAndRefresh, outcome.code, outcome.detail) else ScanRulings(outcome.value, n)
  }

  /** What a collection or a completion comes to: a refused one is discarded, any other is done. */
  function PickupRuling(outcome: Attempt<()>): (r: Ruling)
    requires !outcome.Transient?
    ensures outcome.Ok? ==> r == Took(ActionPatch(Some(Done), None, None, None))
    ensures outcome.RefusedCall? ==> r == Ruled(DiscardAndRefresh, outcome.code, outcome.detail)
  {
    if outcome.RefusedCall? then Ruled(DiscardAndRefresh, outcome.code, outcome.detail) else Took(TAKEN_BY_PICKUP)
  }

  predicate IsRuling(reply: Reply, key: Uuid, ruling: Ruling) {
    && (key in reply.acks <==> ruling.Took?)
    && (key in reply.discards <==> ruling.Ruled? && ruling.verdict.DiscardAndRefresh?)
    && (key in reply.escalates <==> ruling.Ruled? && ruling.verdict.EscalateToDispatcher?)
  }

  /** The model's answer says what the rulings say. */
  predicate Says(reply: Reply, keys: seq<Uuid>, rulings: seq<Ruling>) {
    reply.batch == keys && |rulings| == |keys| && forall i :: 0 <= i < |keys| ==> IsRuling(reply, keys[i], rulings[i])
  }

  // ── The log of calls ───────────────────────────────────────────────────────

  datatype Call =
    | SyncCall(keys: seq<Uuid>, sync: Attempt<SyncResponse>)
    | ScanCall(keys: seq<Uuid>, scans: Attempt<seq<ScanResult>>)
    | PickupCall(key: Uuid, pickup: Attempt<()>)
    | PresignCall(m: Uuid, slot: Attempt<MediaSlot>)
    | UploadCall(m: Uuid, url: string, upload: Attempt<()>)
    | CompleteCall(artifact: Uuid, completion: Attempt<()>)

  predicate IsTransient(c: Call) {
    match c
    case SyncCall(_, outcome) => outcome.Transient?
    case ScanCall(_, outcome) => outcome.Transient?
    case PickupCall(_, outcome) => outcome.Transient?
    case PresignCall(_, outcome) => outcome.Transient?
    case UploadCall(_, _, outcome) => outcome.Transient?
    case CompleteCall(_, outcome) => outcome.Transient?
  }

  /** The envelope of a sync with actions was refused. */
  predicate RefusesBatch(c: Call) { c.SyncCall? && c.keys != [] && c.sync.RefusedCall? }

  predicate RefusesSync(c: Call) { c.SyncCall? && c.sync.RefusedCall? }

  /** The call was answered, and the answer has no result for the key or says to retry later. */
  predicate LeavesOpen(c: Call, key: Uuid) {
    match c
    case SyncCall(keys, outcome) => key in keys && outcome.Ok? && Holds(SyncRuling(outcome.value.results, key))
    case ScanCall(keys, outcome) =>
      outcome.Ok? && exists i :: 0 <= i < |keys| && keys[i] == key && Holds(ScanRuling(outcome.value, i))
    case _ => false
  }

  /** Among the calls from number `from` on there is a transient one. */
  ghost predicate SomeTransient(calls: seq<Call>, from: nat) { exists i :: from <= i < |calls| && IsTransient(calls[i]) }

  ghost predicate SomeAnswered(calls: seq<Call>, from: nat) { exists i :: from <= i < |calls| && !IsTransient(calls[i]) }

  ghost predicate SomeBatchRefused(calls: seq<Call>, from: nat) { exists i :: from <= i < |calls| && RefusesBatch(calls[i]) }

  ghost predicate SomeSyncRefused(calls: seq<Call>, from: nat) { exists i :: from <= i < |calls| && RefusesSync(calls[i]) }

  ghost predicate SomeLeavesOpen(calls: seq<Call>, from: nat, key: Uuid) {
    exists i :: from <= i < |calls| && LeavesOpen(calls[i], key)
  }

  lemma Earlier(a: seq<Call>, b: seq<Call>, from: nat)
    requires a <= b && from <= |a|
    ensures SomeTransient(b, from) <==> SomeTransient(a, from) || SomeTransient(b, |a|)
    ensures SomeAnswered(b, from) <==> SomeAnswered(a, from) || SomeAnswered(b, |a|)
    ensures SomeBatchRefused(b, from) <==> SomeBatchRefused(a, from) || SomeBatchRefused(b, |a|)
    ensures SomeSyncRefused(b, from) <==> SomeSyncRefused(a, from) || SomeSyncRefused(b, |a|)
    ensures forall key :: SomeLeavesOpen(a, from, key) ==> SomeLeavesOpen(b, from, key)
    ensures forall key :: SomeLeavesOpen(b, |a|, key) ==> SomeLeavesOpen(b, from, key)
  {
    assert forall i :: 0 <= i < |a| ==> a[i] == b[i];
    forall key | SomeLeavesOpen(a, from, key) ensures SomeLeavesOpen(b, from, key) {
      var i :| from <= i < |a| && LeavesOpen(a[i], key);
      assert LeavesOpen(b[i], key);
    }
    if SomeTransient(a, from) {
      var i :| from <= i < |a| && IsTransient(a[i]);
      assert IsTransient(b[i]);
    }
    if SomeAnswered(a, from) {
      var i :| from <= i < |a| && !IsTransient(a[i]);
      assert !IsTransient(b[i]);
    }
    if SomeBatchRefused(a, from) {
      var i :| from <= i < |a| && RefusesBatch(a[i]);
      assert RefusesBatch(b[i]);
    }
    if SomeSyncRefused(a, from) {
      var i :| from <= i < |a| && RefusesSync(a[i]);
      assert RefusesSync(b[i]);
    }
  }

  /** What one more call adds. */
  lemma OneCall(a: seq<Call>, c: Call)
    ensures SomeTransient(a + [c], |a|) <==> IsTransient(c)
    ensures SomeAnswered(a + [c], |a|) <==> !IsTransient(c)
    ensures SomeBatchRefused(a + [c], |a|) <==> RefusesBatch(c)
    ensures SomeSyncRefused(a + [c], |a|) <==> RefusesSync(c)
    ensures forall key :: SomeLeavesOpen(a + [c], |a|, key) <==> LeavesOpen(c, key)
  {
    var b := a + [c];
    assert b[|a|] == c;
    forall key ensures SomeLeavesOpen(b, |a|, key) <==> LeavesOpen(c, key) {
      if LeavesOpen(c, key) { assert LeavesOpen(b[|a|], key); }
    }
  }

  lemma TwoCalls(a: seq<Call>, c: Call, e: Call)
    ensures SomeTransient(a + [c] + [e], |a|) <==> IsTransient(c) || IsTransient(e)
    ensures SomeAnswered(a + [c] + [e], |a|) <==> !IsTransient(c) || !IsTransient(e)
    ensures SomeBatchRefused(a + [c] + [e], |a|) <==> RefusesBatch(c) || RefusesBatch(e)
  {
    OneCall(a, c);
    OneCall(a + [c], e);
    Earlier(a + [c], a + [c] + [e], |a|);
  }

  lemma NoCall(a: seq<Call>)
    ensures !SomeTransient(a, |a|) && !SomeAnswered(a, |a|) && !SomeBatchRefused(a, |a|) && !SomeSyncRefused(a, |a|)
  {
  }
}
