/** The driver's day: the server's manifests with the device's unconfirmed outcomes laid over them. */
module Manifests {
  import opened Common
  import opened MoneySums

  /** A shipment status; only the settled ones are told apart. */
  datatype Status = Delivered | AttemptFailed | ReturnPending | Returned | Cancelled | Unsettled(name: string)
  datatype StopType = Delivery | OtherStop(name: string)
  datatype StopStatus = Waiting | Arrived | Closed(name: string)
  datatype RouteStatus = InProgress | Published | OtherRoute(name: string)

  datatype Shipment = Shipment(id: Uuid, tracking: string, status: Status, cod: Money)
  datatype Stop = Stop(id: Uuid, sequence: int, kind: StopType, status: StopStatus, shipments: seq<Shipment>)
  datatype Manifest = Manifest(routeId: Uuid, code: string, status: RouteStatus, plannedDate: int, stops: seq<Stop>)

  /** What the device recorded and has not seen confirmed. */
  datatype Outcome = WasDelivered | WasFailed | WasReturned
  datatype Pending = Pending(shipment: Uuid, outcome: Outcome)

  datatype ParcelState = Todo | IsDelivered | IsFailed | IsReturned | Other
  datatype ParcelView = ParcelView(shipment: Shipment, state: ParcelState, unsent: bool)
  datatype StopView = StopView(routeId: Uuid, stop: Stop, parcels: seq<ParcelView>, open: bool, cod: seq<Money>)

  // ── One parcel ─────────────────────────────────────────────────────────────

  /** The first outcome recorded for the parcel. */
  function FirstPending(pending: seq<Pending>, id: Uuid): Option<Outcome> {
    if pending == [] then None
    else if pending[0].shipment == id then Some(pending[0].outcome)
    else FirstPending(pending[1..], id)
  }

  function StateOf(status: Status): ParcelState {
    match status
    case Delivered => IsDelivered
    case AttemptFailed => IsFailed
    case ReturnPending => IsFailed
    case Returned => IsReturned
    case Cancelled => Other
    case Unsettled(_) => Todo
  }

  function StateOfOutcome(outcome: Outcome): ParcelState {
    match outcome
    case WasDelivered => IsDelivered
    case WasFailed => IsFailed
    case WasReturned => IsReturned
  }

  function ViewParcel(shipment: Shipment, pending: seq<Pending>): ParcelView {
    var local := FirstPending(pending, shipment.id);
    if local.Some? && shipment.status.Unsettled? then ParcelView(shipment, StateOfOutcome(local.value), true)
    else ParcelView(shipment, StateOf(shipment.status), false)
  }

  // ── Stops and routes ───────────────────────────────────────────────────────

  function Views(shipments: seq<Shipment>, pending: seq<Pending>): (r: seq<ParcelView>)
    ensures |r| == |shipments| && forall i :: 0 <= i < |r| ==> r[i] == ViewParcel(shipments[i], pending)
  {
    seq(|shipments|, i requires 0 <= i < |shipments| => ViewParcel(shipments[i], pending))
  }

  /** The COD of the views in one state, in order. */
  function CodWhere(views: seq<ParcelView>, state: ParcelState): seq<Money> {
    if views == [] then []
    else
      CodWhere(views[..|views| - 1], state)
      + (if views[|views| - 1].state == state then [views[|views| - 1].shipment.cod] else [])
  }

  function NonZero(list: seq<Money>): seq<Money> {
    if list == [] then [] else (if IsZero(list[0]) then [] else [list[0]]) + NonZero(list[1..])
  }

  predicate OpenStop(status: StopStatus) { status.Waiting? || status.Arrived? }

  function ViewStop(routeId: Uuid, stop: Stop, pending: seq<Pending>): StopView {
    var parcels := Views(stop.shipments, pending);
    var open := OpenStop(stop.status) && (stop.kind.Delivery? ==> exists p :: p in parcels && p.state.Todo?);
    StopView(routeId, stop, parcels, open, NonZero(SumByCurrency(CodWhere(parcels, Todo))))
  }

  /** `sort` of JavaScript: stable, with the order given by `leq`. */
  function SortBy<T(!new)>(s: seq<T>, leq: (T, T) -> bool): (r: seq<T>)
    ensures forall x :: x in r <==> x in s
  {
    if s == [] then [] else InsertBy(SortBy(s[..|s| - 1], leq), s[|s| - 1], leq)
  }

  function InsertBy<T(!new)>(s: seq<T>, x: T, leq: (T, T) -> bool): (r: seq<T>)
    ensures forall y :: y in r <==> y in s || y == x
  {
    if s == [] then [x] else if leq(s[0], x) then [s[0]] + InsertBy(s[1..], x, leq) else [x] + s
  }

  function Rank(status: RouteStatus): int {
    match status
    case InProgress => 0
    case Published => 1
    case OtherRoute(_) => 2
  }

  /** The order of routes; `collate` is the device's collation of route codes. */
  function RouteOrder(collate: (string, string) -> bool): (Manifest, Manifest) -> bool {
    (a: Manifest, b: Manifest) =>
      if Rank(a.status) != Rank(b.status) then Rank(a.status) < Rank(b.status)
      else if a.plannedDate != b.plannedDate then a.plannedDate < b.plannedDate
      else collate(a.code, b.code)
  }

  const BySequence: (Stop, Stop) -> bool := (a: Stop, b: Stop) => a.sequence <= b.sequence

  function RouteStops(m: Manifest, pending: seq<Pending>): (r: seq<StopView>) {
    var stops := SortBy(m.stops, BySequence);
    seq(|stops|, i requires 0 <= i < |stops| => ViewStop(m.routeId, stops[i], pending))
  }

  function AllStops(ordered: seq<Manifest>, pending: seq<Pending>): seq<StopView> {
    if ordered == [] then [] else RouteStops(ordered[0], pending) + AllStops(ordered[1..], pending)
  }

  function DayStops(manifests: seq<Manifest>, pending: seq<Pending>, collate: (string, string) -> bool): seq<StopView> {
    AllStops(SortBy(manifests, RouteOrder(collate)), pending)
  }

  function FirstOpen(stops: seq<StopView>): Option<StopView> {
    if stops == [] then None else if stops[0].open then Some(stops[0]) else FirstOpen(stops[1..])
  }

  function NextStop(manifests: seq<Manifest>, pending: seq<Pending>, collate: (string, string) -> bool): Option<StopView> {
    FirstOpen(DayStops(manifests, pending, collate))
  }

  predicate CanComplete(m: Manifest, pending: seq<Pending>) {
    m.status.InProgress? && forall stop :: stop in m.stops ==> !ViewStop(m.routeId, stop, pending).open
  }

  // ── Distinct parcels, progress and cash ────────────────────────────────────

  /** Every shipment on a delivery stop, as listed. */
  function ListedOn(stops: seq<Stop>): seq<Shipment> {
    if stops == [] then []
    else ListedOn(stops[..|stops| - 1]) + if stops[|stops| - 1].kind.Delivery? then stops[|stops| - 1].shipments else []
  }

  function Listed(manifests: seq<Manifest>): seq<Shipment> {
    if manifests == [] then []
    else Listed(manifests[..|manifests| - 1]) + ListedOn(manifests[|manifests| - 1].stops)
  }

  ghost predicate HasId(list: seq<Shipment>, id: Uuid) {
    exists i :: 0 <= i < |list| && list[i].id == id
  }

  /** The first listing of each shipment. */
  ghost function Firsts(list: seq<Shipment>): seq<Shipment> {
    if list == [] then []
    else
      var before, last := list[..|list| - 1], list[|list| - 1];
      Firsts(before) + if HasId(before, last.id) then [] else [last]
  }

  ghost function Parcels(manifests: seq<Manifest>, pending: seq<Pending>): seq<ParcelView> {
    Views(Firsts(Listed(manifests)), pending)
  }

  function CountWhere(views: seq<ParcelView>, state: ParcelState): nat {
    if views == [] then 0
    else CountWhere(views[..|views| - 1], state) + if views[|views| - 1].state == state then 1 else 0
  }

  datatype Progress = Progress(done: int, total: int, delivered: int, failed: int)

  function ProgressOf(parcels: seq<ParcelView>): Progress {
    Progress(|parcels| - CountWhere(parcels, Todo), |parcels|,
             CountWhere(parcels, IsDelivered), CountWhere(parcels, IsFailed))
  }

  ghost function DayProgress(manifests: seq<Manifest>, pending: seq<Pending>): Progress {
    ProgressOf(Parcels(manifests, pending))
  }

  ghost function CashCollected(manifests: seq<Manifest>, pending: seq<Pending>): seq<Money> {
    SumByCurrency(CodWhere(Parcels(manifests, pending), IsDelivered))
  }

  /** The Map after `list` has gone through it: its keys, and its values in insertion order. */
  ghost predicate Reflects(list: seq<Shipment>, pending: seq<Pending>, seen: set<Uuid>, views: seq<ParcelView>) {
    views == Views(Firsts(list), pending) && forall id :: id in seen <==> HasId(list, id)
  }

  /** The source's nested loops over a Map that remembers insertion order. */
  method UniqueParcels(manifests: seq<Manifest>, pending: seq<Pending>) returns (views: seq<ParcelView>)
    ensures views == Parcels(manifests, pending)
  {
    views := [];
    var seen: set<Uuid> := {};
    for i := 0 to |manifests|
      invariant Reflects(Listed(manifests[..i]), pending, seen, views)
    {
      seen, views := AddStops(manifests[i].stops, pending, seen, views, Listed(manifests[..i]));
      assert manifests[..i + 1][..i] == manifests[..i];
    }
    assert manifests[..|manifests|] == manifests;
  }

  method AddStops(stops: seq<Stop>, pending: seq<Pending>, seen: set<Uuid>, views: seq<ParcelView>, ghost list: seq<Shipment>)
    returns (seen': set<Uuid>, views': seq<ParcelView>)
    requires Reflects(list, pending, seen, views)
    ensures Reflects(list + ListedOn(stops), pending, seen', views')
  {
    seen', views' := seen, views;
    assert list + [] == list;
    for j := 0 to |stops|
      invariant Reflects(list + ListedOn(stops[..j]), pending, seen', views')
    {
      ghost var sofar := list + ListedOn(stops[..j]);
      assert stops[..j + 1][..j] == stops[..j];
      if stops[j].kind.Delivery? {
        seen', views' := AddShipments(stops[j].shipments, pending, seen', views', sofar);
        assert list + ListedOn(stops[..j + 1]) == sofar + stops[j].shipments;
      } else {
        assert list + ListedOn(stops[..j + 1]) == sofar;
      }
    }
    assert stops[..|stops|] == stops;
  }

  method AddShipments(shipments: seq<Shipment>, pending: seq<Pending>, seen: set<Uuid>, views: seq<ParcelView>, ghost list: seq<Shipment>)
    returns (seen': set<Uuid>, views': seq<ParcelView>)
    requires Reflects(list, pending, seen, views)
    ensures Reflects(list + shipments, pending, seen', views')
  {
    seen', views' := seen, views;
    assert list + [] == list;
    for k := 0 to |shipments|
      invariant Reflects(list + shipments[..k], pending, seen', views')
    {
      var shipment := shipments[k];
      FirstsStep(list + shipments[..k], shipment, pending);
      OneMoreShipment(list, shipments, k);
      if shipment.id !in seen' {
        seen' := seen' + {shipment.id};
        views' := views' + [ViewParcel(shipment, pending)];
      }
    }
    assert shipments[..|shipments|] == shipments;
  }

  lemma OneMoreShipment(list: seq<Shipment>, shipments: seq<Shipment>, k: nat)
    requires k < |shipments|
    ensures list + shipments[..k + 1] == (list + shipments[..k]) + [shipments[k]]
  {
  }

  lemma FirstsStep(list: seq<Shipment>, s: Shipment, pending: seq<Pending>)
    ensures Firsts(list + [s]) == Firsts(list) + if HasId(list, s.id) then [] else [s]
    ensures Views(Firsts(list + [s]), pending)
            == Views(Firsts(list), pending) + if HasId(list, s.id) then [] else [ViewParcel(s, pending)]
    ensures forall id :: HasId(list + [s], id) <==> HasId(list, id) || s.id == id
  {
    assert (list + [s])[..|list|] == list;
    forall id ensures HasId(list + [s], id) <==> HasId(list, id) || s.id == id {
      if HasId(list, id) {
        var i :| 0 <= i < |list| && list[i].id == id;
        assert (list + [s])[i].id == id;
      }
      assert (list + [s])[|list|] == s;
    }
  }

  // ── Each parcel counts once ────────────────────────────────────────────────

  /** `at` is where a shipment is listed first. */
  ghost predicate FirstAt(list: seq<Shipment>, at: int) {
    0 <= at < |list| && !HasId(list[..at], list[at].id)
  }

  /** The distinct parcels are the listed ones, each once... */
  lemma {:induction false} FirstsAreDistinct(list: seq<Shipment>)
    ensures forall i, j :: 0 <= i < j < |Firsts(list)| ==> Firsts(list)[i].id != Firsts(list)[j].id
    ensures forall id :: HasId(Firsts(list), id) <==> HasId(list, id)
  {
    if list != [] {
      var before, last := list[..|list| - 1], list[|list| - 1];
      FirstsAreDistinct(before);
      assert list == before + [last];
      assert HasId(before, last.id) ==> Firsts(list) == Firsts(before);
      forall id ensures HasId(Firsts(list), id) <==> HasId(list, id) {
        HasIdSnoc(before, last, id);
        HasIdSnoc(Firsts(before), last, id);
      }
      forall i | 0 <= i < |Firsts(before)| ensures HasId(Firsts(before), Firsts(before)[i].id) { }
    }
  }

  lemma HasIdSnoc(list: seq<Shipment>, s: Shipment, id: Uuid)
    ensures HasId(list + [s], id) <==> HasId(list, id) || s.id == id
  {
    FirstsStep(list, s, []);
  }

  /** ...and as first listed. */
  lemma {:induction false} FirstsAreFirst(list: seq<Shipment>, i: nat) returns (at: int)
    requires i < |Firsts(list)|
    ensures FirstAt(list, at) && list[at] == Firsts(list)[i]
  {
    var before := list[..|list| - 1];
    if i < |Firsts(before)| {
      at := FirstsAreFirst(before, i);
      assert list[..at] == before[..at];
    } else {
      at := |before|;
    }
  }

  lemma HasIdAppend(a: seq<Shipment>, b: seq<Shipment>, id: Uuid)
    ensures HasId(a + b, id) <==> HasId(a, id) || HasId(b, id)
  {
    if HasId(a, id) {
      var i :| 0 <= i < |a| && a[i].id == id;
      assert (a + b)[i].id == id;
    }
    if HasId(b, id) {
      var i :| 0 <= i < |b| && b[i].id == id;
      assert (a + b)[|a| + i].id == id;
    }
    if HasId(a + b, id) {
      var i :| 0 <= i < |a + b| && (a + b)[i].id == id;
      if i < |a| { assert a[i].id == id; } else { assert b[i - |a|].id == id; }
    }
  }

  lemma {:induction false} FirstsOfRepeats(list: seq<Shipment>, again: seq<Shipment>)
    requires forall s :: s in again ==> HasId(list, s.id)
    ensures Firsts(list + again) == Firsts(list)
  {
    if again == [] {
      assert list + again == list;
    } else {
      var before, last := again[..|again| - 1], again[|again| - 1];
      FirstsOfRepeats(list, before);
      assert list + again == (list + before) + [last];
      FirstsStep(list + before, last, []);
      HasIdAppend(list, before, last.id);
      assert last in again;
    }
  }

  lemma {:induction false} ListedAppend(a: seq<Manifest>, b: seq<Manifest>)
    ensures Listed(a + b) == Listed(a) + Listed(b)
  {
    if b == [] {
      assert a + b == a;
    } else {
      var all, before, last := a + b, b[..|b| - 1], b[|b| - 1];
      assert all[..|all| - 1] == a + before && all[|all| - 1] == last;
      ListedAppend(a, before);
      Regroup(Listed(a), Listed(before), ListedOn(last.stops));
    }
  }

  lemma Regroup(a: seq<Shipment>, b: seq<Shipment>, c: seq<Shipment>)
    ensures (a + b) + c == a + (b + c)
  {
  }

  /** However many further routes list the same parcels, the day, the cash and the progress stay the same. */
  lemma EachParcelCountsOnce(manifests: seq<Manifest>, more: seq<Manifest>, pending: seq<Pending>)
    requires forall s :: s in Listed(more) ==> HasId(Listed(manifests), s.id)
    ensures Parcels(manifests + more, pending) == Parcels(manifests, pending)
    ensures CashCollected(manifests + more, pending) == CashCollected(manifests, pending)
    ensures DayProgress(manifests + more, pending) == DayProgress(manifests, pending)
  {
    ListedAppend(manifests, more);
    FirstsOfRepeats(Listed(manifests), Listed(more));
  }

  // ── Cash is a sum over the set of delivered parcels ────────────────────────

  ghost function SumOver(ids: set<Uuid>, amount: Uuid -> int): int {
    if !(exists id :: id in ids) then 0 else var id :| id in ids; amount(id) + SumOver(ids - {id}, amount)
  }

  lemma {:induction false} SumOverAny(ids: set<Uuid>, amount: Uuid -> int, id: Uuid)
    requires id in ids
    ensures SumOver(ids, amount) == amount(id) + SumOver(ids - {id}, amount)
    decreases ids
  {
    var first :| first in ids && SumOver(ids, amount) == amount(first) + SumOver(ids - {first}, amount);
    if first != id {
      SumOverAny(ids - {first}, amount, id);
      SumOverAny(ids - {id}, amount, first);
      assert ids - {first} - {id} == ids - {id} - {first};
    }
  }

  /** The ids of the views in one state. */
  ghost function IdsWhere(views: seq<ParcelView>, state: ParcelState): set<Uuid> {
    set i | 0 <= i < |views| && views[i].state == state :: views[i].shipment.id
  }

  /** COD of one parcel in one currency, as first listed. */
  ghost function CodOf(views: seq<ParcelView>, currency: string): Uuid -> int {
    (id: Uuid) =>
      if exists i :: 0 <= i < |views| && views[i].shipment.id == id then
        var i :| 0 <= i < |views| && views[i].shipment.id == id;
        if Counts(views[i].shipment.cod, currency) then BigInt(views[i].shipment.cod.amountMinor) else 0
      else 0
  }

  ghost predicate DistinctViews(views: seq<ParcelView>) {
    forall i, j :: 0 <= i < j < |views| ==> views[i].shipment.id != views[j].shipment.id
  }

  lemma IdsStep(views: seq<ParcelView>, state: ParcelState)
    requires views != []
    ensures var before, last := views[..|views| - 1], views[|views| - 1];
            IdsWhere(views, state) == IdsWhere(before, state) + if last.state == state then {last.shipment.id} else {}
  {
    var before, last := views[..|views| - 1], views[|views| - 1];
    forall id | id in IdsWhere(before, state) ensures id in IdsWhere(views, state) {
      var i :| 0 <= i < |before| && before[i].state == state && before[i].shipment.id == id;
      assert views[i] == before[i];
    }
    forall id | id in IdsWhere(views, state)
      ensures id in IdsWhere(before, state) || (last.state == state && id == last.shipment.id)
    {
      var i :| 0 <= i < |views| && views[i].state == state && views[i].shipment.id == id;
      if i < |before| { assert before[i] == views[i]; }
    }
  }

  lemma CodOfAt(views: seq<ParcelView>, i: nat, currency: string)
    requires i < |views| && DistinctViews(views)
    ensures CodOf(views, currency)(views[i].shipment.id) == Total([views[i].shipment.cod], currency)
  {
    var cod := views[i].shipment.cod;
    assert [cod][..0] == [];
  }

  lemma TotalSnoc(items: seq<Money>, m: Money, currency: string)
    ensures Total(items + [m], currency) == Total(items, currency) + Total([m], currency)
  {
    assert (items + [m])[..|items|] == items;
    assert [m][..0] == [];
  }

  lemma {:induction false} TotalIsSumOver(views: seq<ParcelView>, all: seq<ParcelView>, state: ParcelState, currency: string)
    requires views <= all && DistinctViews(all)
    ensures Total(CodWhere(views, state), currency) == SumOver(IdsWhere(views, state), CodOf(all, currency))
  {
    if views != [] {
      var before, last := views[..|views| - 1], views[|views| - 1];
      TotalIsSumOver(before, all, state, currency);
      IdsStep(views, state);
      var ids := IdsWhere(before, state);
      if last.state == state {
        assert last.shipment.id !in ids;
        assert (ids + {last.shipment.id}) - {last.shipment.id} == ids;
        SumOverAny(ids + {last.shipment.id}, CodOf(all, currency), last.shipment.id);
        CodOfAt(all, |before|, currency);
        TotalSnoc(CodWhere(before, state), last.shipment.cod, currency);
      } else {
        assert CodWhere(views, state) == CodWhere(before, state);
        assert IdsWhere(views, state) == ids;
      }
    }
  }

  /** The cash in each currency is the sum of COD over the set of distinct delivered parcels. */
  lemma CashMeaning(manifests: seq<Manifest>, pending: seq<Pending>, currency: string)
    ensures var parcels := Parcels(manifests, pending);
            AmountIn(CashCollected(manifests, pending), currency)
            == SumOver(IdsWhere(parcels, IsDelivered), CodOf(parcels, currency))
  {
    var parcels := Parcels(manifests, pending);
    FirstsAreDistinct(Listed(manifests));
    SumMeaning(CodWhere(parcels, IsDelivered));
    TotalIsSumOver(parcels, parcels, IsDelivered, currency);
  }

  lemma {:induction false} CountsFit(views: seq<ParcelView>)
    ensures CountWhere(views, Todo) + CountWhere(views, IsDelivered) + CountWhere(views, IsFailed) <= |views|
  {
    if views != [] { CountsFit(views[..|views| - 1]); }
  }

  lemma {:induction false} CountIsSize(views: seq<ParcelView>, state: ParcelState)
    requires DistinctViews(views)
    ensures CountWhere(views, state) == |IdsWhere(views, state)|
  {
    if views != [] {
      var before, last := views[..|views| - 1], views[|views| - 1];
      CountIsSize(before, state);
      IdsStep(views, state);
      if last.state == state { assert last.shipment.id !in IdsWhere(before, state); }
    }
  }

  /** Every id listed, once. */
  ghost function ListedIds(list: seq<Shipment>): set<Uuid> { set i | 0 <= i < |list| :: list[i].id }

  lemma IdsSnoc(list: seq<Shipment>)
    requires list != []
    ensures ListedIds(list) == ListedIds(list[..|list| - 1]) + {list[|list| - 1].id}
  {
    var before := list[..|list| - 1];
    forall id | id in ListedIds(before) ensures id in ListedIds(list) {
      var i :| 0 <= i < |before| && before[i].id == id;
      assert list[i].id == id;
    }
    forall id | id in ListedIds(list) ensures id in ListedIds(before) || id == list[|list| - 1].id {
      var i :| 0 <= i < |list| && list[i].id == id;
      if i < |before| { assert before[i].id == id; }
    }
  }

  lemma {:induction false} DistinctSize(list: seq<Shipment>)
    requires forall i, j :: 0 <= i < j < |list| ==> list[i].id != list[j].id
    ensures |ListedIds(list)| == |list|
  {
    if list != [] {
      DistinctSize(list[..|list| - 1]);
      IdsSnoc(list);
      assert list[|list| - 1].id !in ListedIds(list[..|list| - 1]);
    }
  }

  /** The numbers count distinct parcels: all that are listed, and by the state each reads as. */
  lemma ProgressMeaning(manifests: seq<Manifest>, pending: seq<Pending>)
    ensures var p, parcels := DayProgress(manifests, pending), Parcels(manifests, pending);
            && p.total == |ListedIds(Listed(manifests))| && p.total - p.done == |IdsWhere(parcels, Todo)|
            && p.delivered == |IdsWhere(parcels, IsDelivered)| && p.failed == |IdsWhere(parcels, IsFailed)|
  {
    var list, parcels := Listed(manifests), Parcels(manifests, pending);
    FirstsAreDistinct(list);
    DistinctSize(Firsts(list));
    forall id ensures id in ListedIds(list) <==> id in ListedIds(Firsts(list)) {
      assert HasId(list, id) <==> HasId(Firsts(list), id);
    }
    assert ListedIds(list) == ListedIds(Firsts(list));
    CountIsSize(parcels, Todo);
    CountIsSize(parcels, IsDelivered);
    CountIsSize(parcels, IsFailed);
  }

  /** A shipment is listed if it is on a delivery stop, and on no other. */
  lemma {:induction false} ListedMeaning(manifests: seq<Manifest>, s: Shipment)
    ensures s in Listed(manifests)
            <==> exists m, stop :: m in manifests && stop in m.stops && stop.kind == Delivery && s in stop.shipments
  {
    if manifests != [] {
      var before, last := manifests[..|manifests| - 1], manifests[|manifests| - 1];
      ListedMeaning(before, s);
      ListedOnMeaning(last.stops, s);
      assert forall m :: m in manifests <==> m in before || m == last;
    }
  }

  lemma {:induction false} ListedOnMeaning(stops: seq<Stop>, s: Shipment)
    ensures s in ListedOn(stops) <==> exists stop :: stop in stops && stop.kind == Delivery && s in stop.shipments
  {
    if stops != [] {
      var before, last := stops[..|stops| - 1], stops[|stops| - 1];
      ListedOnMeaning(before, s);
      assert forall stop :: stop in stops <==> stop in before || stop == last;
    }
  }

  lemma ProgressBounds(manifests: seq<Manifest>, pending: seq<Pending>)
    ensures var p := DayProgress(manifests, pending);
            0 <= p.delivered + p.failed <= p.done <= p.total
  {
    CountsFit(Parcels(manifests, pending));
  }

  // ── Confirming a delivery changes nothing the driver counts ────────────────

  /** The server's manifests once it has taken the delivery of `id`. */
  function ConfirmShipment(s: Shipment, id: Uuid): Shipment {
    if s.id == id && s.status.Unsettled? then s.(status := Delivered) else s
  }

  function ConfirmShipments(list: seq<Shipment>, id: Uuid): (r: seq<Shipment>)
    ensures |r| == |list| && forall i :: 0 <= i < |list| ==> r[i] == ConfirmShipment(list[i], id)
  {
    seq(|list|, i requires 0 <= i < |list| => ConfirmShipment(list[i], id))
  }

  function ConfirmStops(stops: seq<Stop>, id: Uuid): (r: seq<Stop>)
    ensures |r| == |stops|
  {
    if stops == [] then []
    else
      var last := stops[|stops| - 1];
      ConfirmStops(stops[..|stops| - 1], id) + [last.(shipments := ConfirmShipments(last.shipments, id))]
  }

  function Confirm(manifests: seq<Manifest>, id: Uuid): (r: seq<Manifest>)
    ensures |r| == |manifests|
  {
    if manifests == [] then []
    else
      var last := manifests[|manifests| - 1];
      Confirm(manifests[..|manifests| - 1], id) + [last.(stops := ConfirmStops(last.stops, id))]
  }

  lemma ConfirmShipmentsAppend(a: seq<Shipment>, b: seq<Shipment>, id: Uuid)
    ensures ConfirmShipments(a + b, id) == ConfirmShipments(a, id) + ConfirmShipments(b, id)
  {
  }

  lemma {:induction false} ListedOnConfirm(stops: seq<Stop>, id: Uuid)
    ensures ListedOn(ConfirmStops(stops, id)) == ConfirmShipments(ListedOn(stops), id)
  {
    if stops != [] {
      var before, last := stops[..|stops| - 1], stops[|stops| - 1];
      ListedOnConfirm(before, id);
      var r := ConfirmStops(stops, id);
      assert r[..|r| - 1] == ConfirmStops(before, id);
      ConfirmShipmentsAppend(ListedOn(before), if last.kind.Delivery? then last.shipments else [], id);
    }
  }

  lemma {:induction false} ListedConfirm(manifests: seq<Manifest>, id: Uuid)
    ensures Listed(Confirm(manifests, id)) == ConfirmShipments(Listed(manifests), id)
  {
    if manifests != [] {
      var before, last := manifests[..|manifests| - 1], manifests[|manifests| - 1];
      ListedConfirm(before, id);
      var r := Confirm(manifests, id);
      assert r[..|r| - 1] == Confirm(before, id);
      ListedOnConfirm(last.stops, id);
      ConfirmShipmentsAppend(Listed(before), ListedOn(last.stops), id);
    }
  }

  lemma HasIdConfirm(list: seq<Shipment>, id: Uuid, other: Uuid)
    ensures HasId(ConfirmShipments(list, id), other) <==> HasId(list, other)
  {
    var r := ConfirmShipments(list, id);
    if HasId(list, other) {
      var i :| 0 <= i < |list| && list[i].id == other;
      assert r[i].id == other;
    }
  }

  lemma {:induction false} FirstsConfirm(list: seq<Shipment>, id: Uuid)
    ensures Firsts(ConfirmShipments(list, id)) == ConfirmShipments(Firsts(list), id)
  {
    if list != [] {
      var before, last := list[..|list| - 1], list[|list| - 1];
      FirstsConfirm(before, id);
      var r := ConfirmShipments(list, id);
      assert r[..|r| - 1] == ConfirmShipments(before, id);
      HasIdConfirm(before, id, last.id);
      ConfirmShipmentsAppend(Firsts(before), if HasId(before, last.id) then [] else [last], id);
    }
  }

  lemma {:induction false} FirstPendingAppend(a: seq<Pending>, b: seq<Pending>, id: Uuid)
    ensures FirstPending(a + b, id)
            == if FirstPending(a, id).Some? then FirstPending(a, id) else FirstPending(b, id)
  {
    if a == [] {
      assert a + b == b;
    } else {
      assert (a + b)[1..] == a[1..] + b;
      FirstPendingAppend(a[1..], b, id);
    }
  }

  /** Two lists of views that agree on state and COD give the same cash and the same progress. */
  lemma {:induction false} SameCounts(a: seq<ParcelView>, b: seq<ParcelView>, state: ParcelState)
    requires |a| == |b|
    requires forall i :: 0 <= i < |a| ==> a[i].state == b[i].state && a[i].shipment.cod == b[i].shipment.cod
    ensures CountWhere(a, state) == CountWhere(b, state) && CodWhere(a, state) == CodWhere(b, state)
  {
    if a != [] { SameCounts(a[..|a| - 1], b[..|b| - 1], state); }
  }

  /** When the server confirms a parcel's only unconfirmed outcome, a delivery, cash and progress do not move. */
  lemma ConfirmingKeepsTheDay(manifests: seq<Manifest>, pre: seq<Pending>, id: Uuid, post: seq<Pending>)
    requires FirstPending(pre, id).None? && FirstPending(post, id).None?
    ensures var before := pre + [Pending(id, WasDelivered)] + post;
            && CashCollected(Confirm(manifests, id), pre + post) == CashCollected(manifests, before)
            && DayProgress(Confirm(manifests, id), pre + post) == DayProgress(manifests, before)
  {
    var entry := [Pending(id, WasDelivered)];
    var before, after := pre + entry + post, pre + post;
    ListedConfirm(manifests, id);
    FirstsConfirm(Listed(manifests), id);
    var list := Firsts(Listed(manifests));
    forall i | 0 <= i < |list|
      ensures ViewParcel(list[i], before).state == ViewParcel(ConfirmShipment(list[i], id), after).state
    {
      FirstPendingAppend(pre + entry, post, list[i].id);
      FirstPendingAppend(pre, entry, list[i].id);
      FirstPendingAppend(pre, post, list[i].id);
      assert entry[1..] == [];
    }
    var a, b := Parcels(manifests, before), Parcels(Confirm(manifests, id), after);
    SameCounts(a, b, Todo);
    SameCounts(a, b, IsDelivered);
    SameCounts(a, b, IsFailed);
  }

  // ── The next stop and completing a route ───────────────────────────────────

  /** A parcel the server has not settled and the device has no outcome for. */
  ghost predicate IsToDo(s: Shipment, pending: seq<Pending>) {
    s.status.Unsettled? && forall p :: p in pending ==> p.shipment != s.id
  }

  /** The stop still needs the driver: it is pending or arrived, and a delivery stop has a parcel to do. */
  ghost predicate StopOpen(stop: Stop, pending: seq<Pending>) {
    && stop.status in {Waiting, Arrived}
    && (stop.kind == Delivery ==> exists s :: s in stop.shipments && IsToDo(s, pending))
  }

  lemma ToDoMeaning(s: Shipment, pending: seq<Pending>)
    ensures ViewParcel(s, pending).state.Todo? <==> IsToDo(s, pending)
  {
    FirstPendingMeaning(pending, s.id);
  }

  /** What the parcels to do on a stop still bring in one currency. */
  ghost function Due(shipments: seq<Shipment>, pending: seq<Pending>, currency: string): int {
    if shipments == [] then 0
    else
      var last := shipments[|shipments| - 1];
      Due(shipments[..|shipments| - 1], pending, currency)
      + if IsToDo(last, pending) && IsAmount(last.cod.amountMinor) && last.cod.currency == currency
        then BigInt(last.cod.amountMinor) else 0
  }

  lemma {:induction false} DueIsTotal(shipments: seq<Shipment>, pending: seq<Pending>, currency: string)
    ensures Total(CodWhere(Views(shipments, pending), Todo), currency) == Due(shipments, pending, currency)
  {
    if shipments != [] {
      var n := |shipments| - 1;
      var views := Views(shipments, pending);
      DueIsTotal(shipments[..n], pending, currency);
      ToDoMeaning(shipments[n], pending);
      assert views[..n] == Views(shipments[..n], pending);
      if views[n].state == Todo {
        TotalSnoc(CodWhere(views[..n], Todo), shipments[n].cod, currency);
        assert [shipments[n].cod][..0] == [];
      } else {
        assert CodWhere(views, Todo) == CodWhere(views[..n], Todo);
      }
    }
  }

  ghost predicate AreAmounts(list: seq<Money>) { forall i :: 0 <= i < |list| ==> IsAmount(list[i].amountMinor) }

  lemma {:induction false} NonZeroMeaning(list: seq<Money>, currency: string)
    requires Ascending(list) && AreAmounts(list)
    ensures var r := NonZero(list); AreAmounts(r) && AmountIn(r, currency) == AmountIn(list, currency)
    ensures forall m :: m in NonZero(list) ==> !IsZero(m)
  {
    if list != [] {
      NonZeroMeaning(list[1..], currency);
      if IsZero(list[0]) {
        assert NonZero(list) == NonZero(list[1..]);
        if list[0].currency == currency { AbsentLater(list); }
      } else {
        assert NonZero(list)[0] == list[0] && NonZero(list)[1..] == NonZero(list[1..]);
      }
    }
  }

  lemma AbsentLater(list: seq<Money>)
    requires Ascending(list) && AreAmounts(list) && list != []
    ensures AmountIn(list[1..], list[0].currency) == 0
  {
    forall i | 0 <= i < |list| - 1 ensures list[1..][i].currency != list[0].currency {
      LessTotal(list[0].currency, list[i + 1].currency);
    }
    AmountOfAbsent(list[1..], list[0].currency);
  }

  /** A stop of the day: its parcels in order, open while it needs the driver, and the cash its parcels to do still bring. */
  lemma StopViewMeaning(routeId: Uuid, stop: Stop, pending: seq<Pending>, currency: string)
    ensures var v := ViewStop(routeId, stop, pending);
            && v.routeId == routeId && v.stop == stop && (v.open <==> StopOpen(stop, pending))
            && |v.parcels| == |stop.shipments|
            && (forall i :: 0 <= i < |v.parcels| ==> v.parcels[i] == ViewParcel(stop.shipments[i], pending))
            && (forall m :: m in v.cod ==> !IsZero(m))
            && AreAmounts(v.cod) && AmountIn(v.cod, currency) == Due(stop.shipments, pending, currency)
  {
    OpenMeaning(stop, pending, Views(stop.shipments, pending));
    DueMeaning(stop.shipments, pending, currency);
  }

  lemma DueMeaning(shipments: seq<Shipment>, pending: seq<Pending>, currency: string)
    ensures var cod := NonZero(SumByCurrency(CodWhere(Views(shipments, pending), Todo)));
            (forall m :: m in cod ==> !IsZero(m)) && AreAmounts(cod) && AmountIn(cod, currency) == Due(shipments, pending, currency)
  {
    var items := CodWhere(Views(shipments, pending), Todo);
    SumMeaning(items);
    NonZeroMeaning(SumByCurrency(items), currency);
    DueIsTotal(shipments, pending, currency);
  }

  lemma OpenMeaning(stop: Stop, pending: seq<Pending>, parcels: seq<ParcelView>)
    requires parcels == Views(stop.shipments, pending)
    ensures (exists p :: p in parcels && p.state.Todo?) <==> exists s :: s in stop.shipments && IsToDo(s, pending)
  {
    forall s | s in stop.shipments ensures IsToDo(s, pending) <==> ViewParcel(s, pending).state.Todo? { ToDoMeaning(s, pending); }
    if p :| p in parcels && p.state.Todo? {
      var i :| 0 <= i < |parcels| && parcels[i] == p;
      assert stop.shipments[i] in stop.shipments;
    }
    if s :| s in stop.shipments && IsToDo(s, pending) {
      var i :| 0 <= i < |stop.shipments| && stop.shipments[i] == s;
      assert parcels[i] in parcels;
    }
  }

  lemma {:induction false} AllStopsHas(ordered: seq<Manifest>, pending: seq<Pending>, v: StopView)
    ensures v in AllStops(ordered, pending)
            <==> exists m, stop :: m in ordered && stop in m.stops && v == ViewStop(m.routeId, stop, pending)
  {
    if ordered != [] {
      var m, rest := ordered[0], ordered[1..];
      AllStopsHas(rest, pending, v);
      var here := RouteStops(m, pending);
      var stops := SortBy(m.stops, BySequence);
      assert v in here <==> exists stop :: stop in m.stops && v == ViewStop(m.routeId, stop, pending) by {
        if v in here {
          var i :| 0 <= i < |here| && here[i] == v;
          assert stops[i] in m.stops;
        }
        if stop :| stop in m.stops && v == ViewStop(m.routeId, stop, pending) {
          assert stop in stops;
          var i :| 0 <= i < |stops| && stops[i] == stop;
          assert here[i] == v;
        }
      }
      assert forall x :: x in ordered <==> x == m || x in rest;
    }
  }

  lemma OpenAs(routeId: Uuid, stop: Stop, pending: seq<Pending>)
    ensures ViewStop(routeId, stop, pending).open <==> StopOpen(stop, pending)
  {
    StopViewMeaning(routeId, stop, pending, "");
  }

  /** A route can be completed exactly when it is running and none of its stops needs the driver any more. */
  lemma CanCompleteMeaning(m: Manifest, pending: seq<Pending>, collate: (string, string) -> bool)
    ensures CanComplete(m, pending) <==> m.status == InProgress && forall stop :: stop in m.stops ==> !StopOpen(stop, pending)
    ensures m.status == InProgress ==> (CanComplete(m, pending) <==> NextStop([m], pending, collate).None?)
  {
    forall stop | stop in m.stops ensures ViewStop(m.routeId, stop, pending).open <==> StopOpen(stop, pending) {
      OpenAs(m.routeId, stop, pending);
    }
    var day := DayStops([m], pending, collate);
    forall v ensures v in day <==> exists stop :: stop in m.stops && v == ViewStop(m.routeId, stop, pending) {
      AllStopsHas(SortBy([m], RouteOrder(collate)), pending, v);
    }
    if forall v :: v in day ==> !v.open {
      forall stop | stop in m.stops ensures !ViewStop(m.routeId, stop, pending).open {
        assert ViewStop(m.routeId, stop, pending) in day;
      }
    }
    FirstOpenMeaning(day);
  }

  lemma {:induction false} FirstOpenMeaning(stops: seq<StopView>)
    ensures FirstOpen(stops).None? <==> forall v :: v in stops ==> !v.open
    ensures FirstOpen(stops).Some? ==> FirstOpen(stops).value in stops && FirstOpen(stops).value.open
  {
    if stops != [] {
      FirstOpenMeaning(stops[1..]);
      assert forall v :: v in stops <==> v == stops[0] || v in stops[1..];
    }
  }

  /** `collate` orders the codes: any two compare, and transitively. */
  ghost predicate IsCollation(collate: (string, string) -> bool) {
    && (forall a, b :: collate(a, b) || collate(b, a))
    && (forall a, b, c :: collate(a, b) && collate(b, c) ==> collate(a, c))
  }

  ghost predicate InRouteOrder(s: seq<Manifest>, collate: (string, string) -> bool) {
    forall i, j :: 0 <= i < j < |s| ==> RouteOrder(collate)(s[i], s[j])
  }

  /** `m'` comes before `m`: the running route, then those to start, then others; by planned date; by code. */
  predicate IsAhead(m': Manifest, m: Manifest, collate: (string, string) -> bool) {
    match m'.status
    case InProgress => m.status != InProgress || IsSooner(m', m, collate)
    case Published => m.status != InProgress && (m.status != Published || IsSooner(m', m, collate))
    case OtherRoute(_) => m.status.OtherRoute? && IsSooner(m', m, collate)
  }

  predicate IsSooner(m': Manifest, m: Manifest, collate: (string, string) -> bool) {
    m'.plannedDate < m.plannedDate || (m'.plannedDate == m.plannedDate && !collate(m.code, m'.code))
  }

  lemma NotAhead(m': Manifest, m: Manifest, collate: (string, string) -> bool)
    requires IsCollation(collate) && (m' == m || RouteOrder(collate)(m, m'))
    ensures !IsAhead(m', m, collate)
  {
    assert collate(m.code, m.code);
    if m' != m {
      assert Rank(m.status) <= Rank(m'.status);
      if Rank(m.status) == Rank(m'.status) {
        assert m.plannedDate <= m'.plannedDate;
        assert m.plannedDate == m'.plannedDate ==> collate(m.code, m'.code);
        assert !IsSooner(m', m, collate);
      }
    }
  }

  lemma {:induction false} InsertKeepsRoutes(s: seq<Manifest>, x: Manifest, collate: (string, string) -> bool)
    requires IsCollation(collate) && InRouteOrder(s, collate)
    ensures InRouteOrder(InsertBy(s, x, RouteOrder(collate)), collate)
  {
    if s != [] {
      if RouteOrder(collate)(s[0], x) {
        InsertKeepsRoutes(s[1..], x, collate);
        var rest := InsertBy(s[1..], x, RouteOrder(collate));
        forall i | 0 <= i < |rest| ensures RouteOrder(collate)(s[0], rest[i]) { assert rest[i] in rest; }
      } else {
        forall i | 0 <= i < |s| ensures RouteOrder(collate)(x, s[i]) { Through(x, s[0], s[i], collate); }
      }
    }
  }

  lemma Through(a: Manifest, b: Manifest, c: Manifest, collate: (string, string) -> bool)
    requires IsCollation(collate) && !RouteOrder(collate)(b, a) && (b == c || RouteOrder(collate)(b, c))
    ensures RouteOrder(collate)(a, c)
  {
    assert collate(a.code, b.code) || collate(b.code, a.code);
  }

  lemma {:induction false} RoutesAreOrdered(s: seq<Manifest>, collate: (string, string) -> bool)
    requires IsCollation(collate)
    ensures InRouteOrder(SortBy(s, RouteOrder(collate)), collate)
  {
    if s != [] {
      RoutesAreOrdered(s[..|s| - 1], collate);
      InsertKeepsRoutes(SortBy(s[..|s| - 1], RouteOrder(collate)), s[|s| - 1], collate);
    }
  }

  /** No stop of a route ahead of `m` is open, and no stop of `m` itself that comes before its stop `i`. */
  ghost predicate NothingBefore(
    manifests: seq<Manifest>, pending: seq<Pending>, collate: (string, string) -> bool, m: Manifest, i: nat)
    requires i < |m.stops|
  {
    && (forall m', s' :: m' in manifests && s' in m'.stops && IsAhead(m', m, collate) ==> !StopOpen(s', pending))
    && NoneSooner(m.stops, pending, i)
  }

  /** Stops go by sequence number, and with the same number as they were listed. */
  ghost predicate ComesFirst(s: Stop, at: nat, s': Stop, at': nat) {
    s.sequence < s'.sequence || (s.sequence == s'.sequence && at < at')
  }

  ghost predicate NoneSooner(stops: seq<Stop>, pending: seq<Pending>, i: nat)
    requires i < |stops|
  {
    forall j :: 0 <= j < |stops| && ComesFirst(stops[j], j, stops[i], i) ==> !StopOpen(stops[j], pending)
  }

  ghost predicate IsNextOn(manifests: seq<Manifest>, pending: seq<Pending>, collate: (string, string) -> bool,
                           v: StopView, m: Manifest, i: nat) {
    && m in manifests && i < |m.stops| && v == ViewStop(m.routeId, m.stops[i], pending) && StopOpen(m.stops[i], pending)
    && NothingBefore(manifests, pending, collate, m, i)
  }

  /** `v` is the next stop: open, with nothing open on a route ahead of its own, and first on its route. */
  ghost predicate IsNext(manifests: seq<Manifest>, pending: seq<Pending>, collate: (string, string) -> bool, v: StopView) {
    exists m, i :: IsNextOn(manifests, pending, collate, v, m, i)
  }

  // ── Sorting is stable ──────────────────────────────────────────────────────

  /** Where each stop of the sorted list was: by sequence number, and among equals by position. */
  ghost predicate Places(stops: seq<Stop>, sorted: seq<Stop>, at: seq<nat>) {
    && |at| == |sorted| && (forall k :: 0 <= k < |at| ==> at[k] < |stops| && sorted[k] == stops[at[k]])
    && (forall k, l :: 0 <= k < l < |at| ==> ComesFirst(sorted[k], at[k], sorted[l], at[l]))
  }

  lemma {:induction false} PlacesInsert(stops: seq<Stop>, x: Stop, sorted: seq<Stop>, at: seq<nat>) returns (at': seq<nat>)
    requires Places(stops, sorted, at)
    ensures Places(stops + [x], InsertBy(sorted, x, BySequence), at')
    ensures forall j :: j in at' <==> j in at || j == |stops|
  {
    var n := |stops|;
    if sorted == [] || !BySequence(sorted[0], x) {
      at' := [n] + at;
      PlacesHead(stops, x, sorted, at);
    } else {
      var rest := PlacesInsert(stops, x, sorted[1..], at[1..]);
      at' := [at[0]] + rest;
      assert at == [at[0]] + at[1..];
      PlacesLater(stops, x, sorted, at, rest);
    }
  }

  lemma PlacesHead(stops: seq<Stop>, x: Stop, sorted: seq<Stop>, at: seq<nat>)
    requires Places(stops, sorted, at) && (sorted == [] || x.sequence < sorted[0].sequence)
    ensures Places(stops + [x], [x] + sorted, [|stops|] + at)
  {
    forall l | 0 <= l < |sorted| ensures x.sequence < sorted[l].sequence {
      if l > 0 { assert sorted[0].sequence <= sorted[l].sequence; }
    }
  }

  lemma PlacesLater(stops: seq<Stop>, x: Stop, sorted: seq<Stop>, at: seq<nat>, rest: seq<nat>)
    requires Places(stops, sorted, at) && sorted != [] && sorted[0].sequence <= x.sequence
    requires Places(stops + [x], InsertBy(sorted[1..], x, BySequence), rest)
    requires forall j :: j in rest ==> j in at[1..] || j == |stops|
    ensures Places(stops + [x], [sorted[0]] + InsertBy(sorted[1..], x, BySequence), [at[0]] + rest)
  {
    var inserted := InsertBy(sorted[1..], x, BySequence);
    forall l | 0 <= l < |rest| ensures ComesFirst(sorted[0], at[0], inserted[l], rest[l]) {
      assert rest[l] in rest;
      AfterHead(stops, x, sorted, at, inserted[l], rest[l]);
    }
    PlacesCons(stops + [x], sorted[0], at[0], inserted, rest);
  }

  lemma AfterHead(stops: seq<Stop>, x: Stop, sorted: seq<Stop>, at: seq<nat>, y: Stop, j: nat)
    requires Places(stops, sorted, at) && sorted != [] && sorted[0].sequence <= x.sequence
    requires (j in at[1..] || j == |stops|) && j <= |stops| && y == (stops + [x])[j]
    ensures ComesFirst(sorted[0], at[0], y, j)
  {
    if j != |stops| {
      var k :| 0 <= k < |at[1..]| && at[1..][k] == j;
      assert at[k + 1] == j && sorted[k + 1] == y;
    }
  }

  lemma PlacesCons(stops: seq<Stop>, s: Stop, at: nat, sorted: seq<Stop>, rest: seq<nat>)
    requires Places(stops, sorted, rest) && at < |stops| && stops[at] == s
    requires forall l :: 0 <= l < |rest| ==> ComesFirst(s, at, sorted[l], rest[l])
    ensures Places(stops, [s] + sorted, [at] + rest)
  {
  }

  ghost predicate Covers(at: seq<nat>, n: nat) { forall j: nat :: j < n ==> j in at }

  ghost predicate StablySorted(stops: seq<Stop>, sorted: seq<Stop>, at: seq<nat>) {
    Places(stops, sorted, at) && Covers(at, |stops|)
  }

  lemma StablyInserted(stops: seq<Stop>, x: Stop, sorted: seq<Stop>, places: seq<nat>) returns (at: seq<nat>)
    requires StablySorted(stops, sorted, places)
    ensures StablySorted(stops + [x], InsertBy(sorted, x, BySequence), at)
  {
    at := PlacesInsert(stops, x, sorted, places);
  }

  lemma SortStep(stops: seq<Stop>, x: Stop)
    ensures SortBy(stops + [x], BySequence) == InsertBy(SortBy(stops, BySequence), x, BySequence)
  {
    assert (stops + [x])[..|stops|] == stops;
  }

  /** Sorting keeps stops with the same sequence number in the order they are listed, and loses none. */
  lemma {:induction false} SortIsStable(stops: seq<Stop>) returns (at: seq<nat>)
    ensures StablySorted(stops, SortBy(stops, BySequence), at)
  {
    if stops == [] {
      at := [];
    } else {
      var before, x := stops[..|stops| - 1], stops[|stops| - 1];
      at := SortIsStable(before);
      at := StablyInserted(before, x, SortBy(before, BySequence), at);
      SortStep(before, x);
      assert stops == before + [x];
    }
  }

  /** The first open stop of one route comes first on it. */
  lemma FirstOpenOfRoute(m: Manifest, pending: seq<Pending>)
    ensures var found := FirstOpen(RouteStops(m, pending));
            match found
            case None => forall s :: s in m.stops ==> !StopOpen(s, pending)
            case Some(v) => exists i: nat :: i < |m.stops| && v == ViewStop(m.routeId, m.stops[i], pending)
                              && StopOpen(m.stops[i], pending) && NoneSooner(m.stops, pending, i)
  {
    var here := RouteStops(m, pending);
    if FirstOpen(here).Some? {
      var k := FirstOpenIndex(here);
      var i := FirstOnRoute(m, pending, k);
    } else {
      FirstOpenMeaning(here);
      forall s | s in m.stops ensures !StopOpen(s, pending) {
        var stops := SortBy(m.stops, BySequence);
        assert s in stops;
        var k :| 0 <= k < |stops| && stops[k] == s;
        assert here[k] in here;
        OpenAs(m.routeId, s, pending);
      }
    }
  }

  lemma FirstOnRoute(m: Manifest, pending: seq<Pending>, k: nat) returns (i: nat)
    requires k < |RouteStops(m, pending)| && RouteStops(m, pending)[k].open
    requires forall l :: 0 <= l < k ==> !RouteStops(m, pending)[l].open
    ensures i < |m.stops| && RouteStops(m, pending)[k] == ViewStop(m.routeId, m.stops[i], pending)
    ensures StopOpen(m.stops[i], pending) && NoneSooner(m.stops, pending, i)
  {
    var stops := SortBy(m.stops, BySequence);
    var at := SortIsStable(m.stops);
    i := at[k];
    OpenAs(m.routeId, m.stops[i], pending);
    forall j: nat | j < |m.stops| && ComesFirst(m.stops[j], j, m.stops[i], i)
      ensures !StopOpen(m.stops[j], pending)
    {
      assert j in at;
      var l: nat :| l < |at| && at[l] == j;
      SoonerIsAhead(m.stops, stops, at, l, k);
      assert !RouteStops(m, pending)[l].open;
      OpenAs(m.routeId, m.stops[j], pending);
    }
  }

  lemma SoonerIsAhead(stops: seq<Stop>, sorted: seq<Stop>, at: seq<nat>, l: nat, k: nat)
    requires Places(stops, sorted, at) && l < |at| && k < |at|
    requires ComesFirst(stops[at[l]], at[l], stops[at[k]], at[k])
    ensures l < k
  {
  }

  lemma {:induction false} FirstOpenOfDay(ordered: seq<Manifest>, pending: seq<Pending>, collate: (string, string) -> bool)
    requires IsCollation(collate) && InRouteOrder(ordered, collate)
    ensures var found := FirstOpen(AllStops(ordered, pending)); found.Some? ==> IsNext(ordered, pending, collate, found.value)
  {
    if ordered != [] {
      FirstOpenAppend(RouteStops(ordered[0], pending), AllStops(ordered[1..], pending));
      if FirstOpen(RouteStops(ordered[0], pending)).Some? {
        OpenOnHead(ordered, pending, collate);
      } else {
        FirstOpenOfDay(ordered[1..], pending, collate);
        OpenOnRest(ordered, pending, collate);
      }
    }
  }

  lemma OpenOnHead(ordered: seq<Manifest>, pending: seq<Pending>, collate: (string, string) -> bool)
    requires IsCollation(collate) && InRouteOrder(ordered, collate) && ordered != []
    requires FirstOpen(RouteStops(ordered[0], pending)).Some?
    ensures IsNext(ordered, pending, collate, FirstOpen(RouteStops(ordered[0], pending)).value)
  {
    var m, v := ordered[0], FirstOpen(RouteStops(ordered[0], pending)).value;
    FirstOpenOfRoute(m, pending);
    var i: nat :| i < |m.stops| && v == ViewStop(m.routeId, m.stops[i], pending)
      && StopOpen(m.stops[i], pending) && NoneSooner(m.stops, pending, i);
    forall m' | m' in ordered ensures !IsAhead(m', m, collate) {
      var k :| 0 <= k < |ordered| && ordered[k] == m';
      assert k > 0 ==> RouteOrder(collate)(ordered[0], ordered[k]);
      NotAhead(m', m, collate);
    }
    assert IsNextOn(ordered, pending, collate, v, m, i);
  }

  lemma OpenOnRest(ordered: seq<Manifest>, pending: seq<Pending>, collate: (string, string) -> bool)
    requires ordered != [] && FirstOpen(RouteStops(ordered[0], pending)).None?
    requires var found := FirstOpen(AllStops(ordered[1..], pending)); found.Some? ==> IsNext(ordered[1..], pending, collate, found.value)
    ensures var found := FirstOpen(AllStops(ordered[1..], pending)); found.Some? ==> IsNext(ordered, pending, collate, found.value)
  {
    var found := FirstOpen(AllStops(ordered[1..], pending));
    FirstOpenOfRoute(ordered[0], pending);
    if found.Some? {
      var n, i :| IsNextOn(ordered[1..], pending, collate, found.value, n, i);
      forall m', s' | m' in ordered && s' in m'.stops && IsAhead(m', n, collate) ensures !StopOpen(s', pending) {
        assert m' == ordered[0] || m' in ordered[1..];
      }
      assert IsNextOn(ordered, pending, collate, found.value, n, i);
    }
  }

  lemma {:induction false} FirstOpenAppend(a: seq<StopView>, b: seq<StopView>)
    ensures FirstOpen(a + b) == if FirstOpen(a).Some? then FirstOpen(a) else FirstOpen(b)
  {
    if a == [] {
      assert a + b == b;
    } else {
      assert (a + b)[1..] == a[1..] + b;
      FirstOpenAppend(a[1..], b);
    }
  }

  lemma {:induction false} FirstOpenIndex(stops: seq<StopView>) returns (i: nat)
    requires FirstOpen(stops).Some?
    ensures i < |stops| && FirstOpen(stops).value == stops[i] && stops[i].open
    ensures forall k :: 0 <= k < i ==> !stops[k].open
  {
    if stops[0].open {
      i := 0;
    } else {
      var j := FirstOpenIndex(stops[1..]);
      i := j + 1;
    }
  }

  /** The next stop is missing exactly when nothing is open; otherwise it respects the order of routes and of stops. */
  lemma NextStopMeaning(manifests: seq<Manifest>, pending: seq<Pending>, collate: (string, string) -> bool)
    requires IsCollation(collate)
    ensures match NextStop(manifests, pending, collate)
            case None => forall m, stop :: m in manifests && stop in m.stops ==> !StopOpen(stop, pending)
            case Some(v) => IsNext(manifests, pending, collate, v)
  {
    var ordered := SortBy(manifests, RouteOrder(collate));
    RoutesAreOrdered(manifests, collate);
    FirstOpenOfDay(ordered, pending, collate);
    FirstOpenMeaning(AllStops(ordered, pending));
    match NextStop(manifests, pending, collate)
    case None =>
      forall m, stop | m in manifests && stop in m.stops ensures !StopOpen(stop, pending) {
        AllStopsHas(ordered, pending, ViewStop(m.routeId, stop, pending));
        assert m in ordered;
        OpenAs(m.routeId, stop, pending);
      }
    case Some(v) =>
      var m, i :| IsNextOn(ordered, pending, collate, v, m, i);
      assert IsNextOn(manifests, pending, collate, v, m, i);
  }

  // ── What the overlay shows ─────────────────────────────────────────────────

  /** The device's first unconfirmed outcome of a parcel. */
  ghost predicate IsFirstPending(pending: seq<Pending>, id: Uuid, i: nat) {
    i < |pending| && pending[i].shipment == id && forall j :: 0 <= j < i ==> pending[j].shipment != id
  }

  lemma {:induction false} FirstPendingMeaning(pending: seq<Pending>, id: Uuid)
    ensures match FirstPending(pending, id)
            case None => forall i :: 0 <= i < |pending| ==> pending[i].shipment != id
            case Some(outcome) => exists i: nat :: IsFirstPending(pending, id, i) && pending[i].outcome == outcome
  {
    if pending != [] {
      var rest := pending[1..];
      FirstPendingMeaning(rest, id);
      assert forall i :: 0 < i < |pending| ==> pending[i] == rest[i - 1];
      if pending[0].shipment == id {
        assert IsFirstPending(pending, id, 0);
      } else if FirstPending(rest, id).Some? {
        var i: nat :| IsFirstPending(rest, id, i) && rest[i].outcome == FirstPending(rest, id).value;
        assert IsFirstPending(pending, id, i + 1) && pending[i + 1].outcome == rest[i].outcome;
      }
    }
  }

  /**
   * While the server has not settled a parcel, the first unconfirmed outcome decides what it reads as, and marks it as
   * unsent; otherwise the server's status does.
   */
  lemma OverlayMeaning(shipment: Shipment, pending: seq<Pending>)
    ensures var v, local := ViewParcel(shipment, pending), FirstPending(pending, shipment.id);
            var shows := if shipment.status.Unsettled? then local else None;
            && v.shipment == shipment && (v.unsent <==> shows.Some?)
            && (v.state.IsDelivered? <==> shipment.status.Delivered? || shows == Some(WasDelivered))
            && (v.state.IsFailed? <==> shipment.status.AttemptFailed? || shipment.status.ReturnPending? || shows == Some(WasFailed))
            && (v.state.IsReturned? <==> shipment.status.Returned? || shows == Some(WasReturned))
            && (v.state.Other? <==> shipment.status.Cancelled?)
            && (v.state.Todo? <==> shipment.status.Unsettled? && forall p :: p in pending ==> p.shipment != shipment.id)
  {
    FirstPendingMeaning(pending, shipment.id);
  }

  ghost predicate InCash(manifests: seq<Manifest>, pending: seq<Pending>, id: Uuid) {
    id in IdsWhere(Parcels(manifests, pending), IsDelivered)
  }

  /** A parcel listed on a delivery stop whose every listing reads as delivered is in the cash view. */
  lemma DeliveredEverywhereIsInCash(manifests: seq<Manifest>, pending: seq<Pending>, id: Uuid)
    requires HasId(Listed(manifests), id)
    requires forall s :: s in Listed(manifests) && s.id == id ==> ViewParcel(s, pending).state.IsDelivered?
    ensures InCash(manifests, pending, id)
  {
    FirstsAreDistinct(Listed(manifests));
    var firsts := Firsts(Listed(manifests));
    var i :| 0 <= i < |firsts| && firsts[i].id == id;
    var at := FirstsAreFirst(Listed(manifests), i);
    assert firsts[i] in Listed(manifests);
    assert Parcels(manifests, pending)[i] == ViewParcel(firsts[i], pending);
  }

  /** And one whose every listing reads as something else is not. */
  lemma InCashExactly(manifests: seq<Manifest>, pending: seq<Pending>, id: Uuid, delivered: bool)
    requires HasId(Listed(manifests), id)
    requires forall s :: s in Listed(manifests) && s.id == id ==> (ViewParcel(s, pending).state.IsDelivered? <==> delivered)
    ensures InCash(manifests, pending, id) <==> delivered
  {
    if delivered {
      DeliveredEverywhereIsInCash(manifests, pending, id);
    } else {
      var views, firsts := Parcels(manifests, pending), Firsts(Listed(manifests));
      forall i | 0 <= i < |views| && views[i].shipment.id == id ensures !views[i].state.IsDelivered? {
        var at := FirstsAreFirst(Listed(manifests), i);
        assert firsts[i] in Listed(manifests) && views[i] == ViewParcel(firsts[i], pending);
      }
    }
  }
}
