/** Totals per currency: the Map-and-sort loop of the driver app's money.ts, and what it means. */
module MoneySums {
  import opened Common
  import opened MoneyText

  /** An amount in minor units, written as a decimal string. */
  datatype Money = Money(amountMinor: string, currency: string, exponent: int)

  /** Digits with an optional minus sign. */
  predicate IsAmount(s: string) {
    IsNumeral(s) || (|s| > 0 && s[0] == '-' && IsNumeral(s[1..]))
  }

  /** The integer a text of digits with an optional sign denotes. */
  function BigInt(s: string): int
    requires IsAmount(s)
  {
    if s[0] == '-' then 0 - Value(s[1..]) else Value(s)
  }

  lemma BigIntOfSigned(n: int)
    ensures IsAmount(Signed(n)) && BigInt(Signed(n)) == n
  {
    DigitsValue(if n < 0 then -n else n);
    if n < 0 { assert Signed(n)[1..] == Digits(-n); }
  }

  /** Nothing but zeros, with an optional minus sign. */
  predicate IsZero(money: Money) {
    IsAmount(money.amountMinor) && BigInt(money.amountMinor) == 0
  }

  // ── The order of currency codes ────────────────────────────────────────────

  /** JavaScript's `a < b` on strings. */
  predicate Less(a: string, b: string) {
    b != [] && (a == [] || (if a[0] != b[0] then a[0] < b[0] else Less(a[1..], b[1..])))
  }

  lemma {:induction false} LessTotal(a: string, b: string)
    ensures a == b || Less(a, b) || Less(b, a)
    ensures !(Less(a, b) && Less(b, a)) && !Less(a, a)
  {
    if a != [] && b != [] {
      LessTotal(a[1..], b[1..]);
      if a[0] == b[0] { assert a == [a[0]] + a[1..] && b == [b[0]] + b[1..]; }
    }
    if a != [] { LessTotal(a[1..], a[1..]); }
  }

  lemma {:induction false} LessTransitive(a: string, b: string, c: string)
    requires Less(a, b) && Less(b, c)
    ensures Less(a, c)
  {
    if a != [] && a[0] == b[0] == c[0] { LessTransitive(a[1..], b[1..], c[1..]); }
  }

  /** The codes agree on their first `k` characters, and then the one ends or has the smaller character. */
  ghost predicate Parts(a: string, b: string, k: nat) {
    k <= |a| && k < |b| && a[..k] == b[..k] && (k < |a| ==> a[k] < b[k])
  }

  /** One code is less than another exactly if it is a proper prefix or has the smaller character where they first differ. */
  lemma {:induction false} LessMeaning(a: string, b: string)
    ensures Less(a, b) <==> exists k: nat :: Parts(a, b, k)
  {
    if b != [] {
      if a == [] || a[0] != b[0] {
        assert Less(a, b) ==> Parts(a, b, 0);
        assert forall k: nat :: Parts(a, b, k) && k > 0 ==> a[..k][0] == b[..k][0];
      } else {
        LessMeaning(a[1..], b[1..]);
        if k: nat :| Parts(a[1..], b[1..], k) {
          assert a[..k + 1] == [a[0]] + a[1..][..k] && b[..k + 1] == [b[0]] + b[1..][..k];
          assert Parts(a, b, k + 1);
        }
        if k: nat :| Parts(a, b, k) {
          assert k > 0;
          assert a[1..][..k - 1] == a[..k][1..] && b[1..][..k - 1] == b[..k][1..];
          assert Parts(a[1..], b[1..], k - 1);
        }
      }
    }
  }

  predicate Ascending(list: seq<Money>) {
    forall i, j :: 0 <= i < j < |list| ==> Less(list[i].currency, list[j].currency)
  }

  // ── The meaning of a total ─────────────────────────────────────────────────

  predicate Counts(item: Money, currency: string) {
    IsAmount(item.amountMinor) && item.currency == currency
  }

  /** The sum of the readable amounts in one currency. */
  function Total(items: seq<Money>, currency: string): int {
    if items == [] then 0
    else
      var last := items[|items| - 1];
      Total(items[..|items| - 1], currency) + if Counts(last, currency) then BigInt(last.amountMinor) else 0
  }

  /** The exponent of the last readable item in a currency. */
  function LastExponent(items: seq<Money>, currency: string): int {
    if items == [] then 0
    else
      var last := items[|items| - 1];
      if Counts(last, currency) then last.exponent else LastExponent(items[..|items| - 1], currency)
  }

  ghost predicate Occurs(items: seq<Money>, currency: string) {
    exists i :: 0 <= i < |items| && Counts(items[i], currency)
  }

  /** The entry of one currency in a list of totals. */
  ghost predicate Holds(list: seq<Money>, m: Money) {
    exists i :: 0 <= i < |list| && list[i] == m
  }

  function Entry(items: seq<Money>, currency: string): Money {
    Money(Signed(Total(items, currency)), currency, LastExponent(items, currency))
  }

  /** The totals of `items`: one entry per occurring currency, ascending. */
  ghost predicate IsSum(items: seq<Money>, list: seq<Money>) {
    && Ascending(list)
    && (forall i :: 0 <= i < |list| ==> Occurs(items, list[i].currency) && list[i] == Entry(items, list[i].currency))
    && (forall c :: Occurs(items, c) ==> Holds(list, Entry(items, c)))
  }

  // ── sumByCurrency as a function, for the read models ───────────────────────

  function InsertCode(codes: seq<string>, c: string): seq<string> {
    if codes == [] || Less(c, codes[0]) then [c] + codes
    else if c == codes[0] then codes
    else [codes[0]] + InsertCode(codes[1..], c)
  }

  /** The occurring currencies, ascending. */
  function Codes(items: seq<Money>): seq<string> {
    if items == [] then []
    else
      var before, last := Codes(items[..|items| - 1]), items[|items| - 1];
      if IsAmount(last.amountMinor) then InsertCode(before, last.currency) else before
  }

  function SumByCurrency(items: seq<Money>): (r: seq<Money>)
    ensures forall i :: 0 <= i < |r| ==> IsAmount(r[i].amountMinor)
  {
    var codes := Codes(items);
    (forall n: int {:trigger Signed(n)} ensures IsAmount(Signed(n)) { BigIntOfSigned(n); }
    seq(|codes|, i requires 0 <= i < |codes| => Entry(items, codes[i])))
  }

  predicate AscendingCodes(codes: seq<string>) {
    forall i, j :: 0 <= i < j < |codes| ==> Less(codes[i], codes[j])
  }

  lemma {:induction false} InsertCodeMeaning(codes: seq<string>, c: string)
    requires AscendingCodes(codes)
    ensures AscendingCodes(InsertCode(codes, c))
    ensures forall d :: d in InsertCode(codes, c) <==> d in codes || d == c
  {
    if codes != [] {
      LessTotal(c, codes[0]);
      if Less(c, codes[0]) {
        forall i | 0 < i < |codes| ensures Less(c, codes[i]) { LessTransitive(c, codes[0], codes[i]); }
      } else if c != codes[0] {
        InsertCodeMeaning(codes[1..], c);
        var rest := InsertCode(codes[1..], c);
        forall i | 0 <= i < |rest| ensures Less(codes[0], rest[i]) { assert rest[i] in rest; }
      }
    }
  }

  lemma {:induction false} CodesMeaning(items: seq<Money>)
    ensures AscendingCodes(Codes(items)) && forall c :: c in Codes(items) <==> Occurs(items, c)
  {
    if items != [] {
      var before, last := items[..|items| - 1], items[|items| - 1];
      CodesMeaning(before);
      if IsAmount(last.amountMinor) { InsertCodeMeaning(Codes(before), last.currency); }
      forall c ensures c in Codes(items) <==> Occurs(items, c) { OccursStep(items, c); }
    }
  }

  /** The amount a list of totals holds in one currency; none is zero. */
  ghost function AmountIn(list: seq<Money>, currency: string): int
    requires forall i :: 0 <= i < |list| ==> IsAmount(list[i].amountMinor)
  {
    if list == [] then 0
    else if list[0].currency == currency then BigInt(list[0].amountMinor)
    else AmountIn(list[1..], currency)
  }

  lemma {:induction false} AmountOfAbsent(list: seq<Money>, currency: string)
    requires forall i :: 0 <= i < |list| ==> IsAmount(list[i].amountMinor) && list[i].currency != currency
    ensures AmountIn(list, currency) == 0
  {
    if list != [] { AmountOfAbsent(list[1..], currency); }
  }

  lemma {:induction false} AmountOfEntry(list: seq<Money>, i: nat)
    requires i < |list| && Ascending(list)
    requires forall i :: 0 <= i < |list| ==> IsAmount(list[i].amountMinor)
    ensures AmountIn(list, list[i].currency) == BigInt(list[i].amountMinor)
  {
    if i > 0 {
      LessTotal(list[0].currency, list[i].currency);
      AmountOfEntry(list[1..], i - 1);
    }
  }

  lemma OccursStep(items: seq<Money>, c: string)
    requires items != []
    ensures Occurs(items, c) <==> Occurs(items[..|items| - 1], c) || Counts(items[|items| - 1], c)
  {
    var before := items[..|items| - 1];
    if Occurs(items, c) && !Counts(items[|items| - 1], c) {
      var i :| 0 <= i < |items| && Counts(items[i], c);
      assert Counts(before[i], c);
    }
    if Occurs(before, c) {
      var i :| 0 <= i < |before| && Counts(before[i], c);
      assert Counts(items[i], c);
    }
  }

  lemma {:induction false} TotalOfAbsent(items: seq<Money>, c: string)
    requires !Occurs(items, c)
    ensures Total(items, c) == 0
  {
    if items != [] {
      OccursStep(items, c);
      assert Counts(items[|items| - 1], c) ==> Occurs(items, c);
      TotalOfAbsent(items[..|items| - 1], c);
    }
  }

  /** The last readable item in the currency. */
  ghost predicate IsLastIn(items: seq<Money>, c: string, j: nat) {
    && j < |items| && IsAmount(items[j].amountMinor) && items[j].currency == c
    && forall k :: j < k < |items| ==> !(IsAmount(items[k].amountMinor) && items[k].currency == c)
  }

  lemma {:induction false} LastExponentMeaning(items: seq<Money>, c: string) returns (j: nat)
    requires Occurs(items, c)
    ensures IsLastIn(items, c, j) && LastExponent(items, c) == items[j].exponent
  {
    var n := |items| - 1;
    if Counts(items[n], c) {
      j := n;
    } else {
      OccursStep(items, c);
      j := LastExponentMeaning(items[..n], c);
      assert forall k :: j < k < n ==> items[k] == items[..n][k];
    }
  }

  /** The totals list says what it should: per currency the exact sum, never across, unreadable items skipped. */
  lemma SumMeaning(items: seq<Money>)
    ensures IsSum(items, SumByCurrency(items))
    ensures forall m :: m in SumByCurrency(items) ==> exists j: nat :: IsLastIn(items, m.currency, j) && m.exponent == items[j].exponent
    ensures forall c :: AmountIn(SumByCurrency(items), c) == Total(items, c)
  {
    CodesMeaning(items);
    var codes, r := Codes(items), SumByCurrency(items);
    forall i | 0 <= i < |r| ensures Occurs(items, r[i].currency) { assert codes[i] in codes; }
    forall c | Occurs(items, c) ensures Holds(r, Entry(items, c)) {
      var i :| 0 <= i < |codes| && codes[i] == c;
      assert r[i] == Entry(items, c);
    }
    SumAmounts(items, r);
    forall m | m in r ensures exists j: nat :: IsLastIn(items, m.currency, j) && m.exponent == items[j].exponent {
      var i :| 0 <= i < |r| && r[i] == m;
      assert codes[i] in codes;
      var j := LastExponentMeaning(items, m.currency);
    }
  }

  lemma SumAmounts(items: seq<Money>, list: seq<Money>)
    requires IsSum(items, list) && forall i :: 0 <= i < |list| ==> IsAmount(list[i].amountMinor)
    ensures forall c :: AmountIn(list, c) == Total(items, c)
  {
    forall c ensures AmountIn(list, c) == Total(items, c) {
      if Occurs(items, c) {
        var i :| 0 <= i < |list| && list[i] == Entry(items, c);
        AmountOfEntry(list, i);
        BigIntOfSigned(Total(items, c));
      } else {
        TotalOfAbsent(items, c);
        AmountOfAbsent(list, c);
      }
    }
  }

  // ── The source's own loop ──────────────────────────────────────────────────

  datatype Running = Running(sum: int, exponent: int)

  /** The Map, filled item by item. */
  method Tally(items: seq<Money>) returns (totals: map<string, Running>)
    ensures forall c :: c in totals <==> Occurs(items, c)
    ensures forall c :: c in totals ==> totals[c] == Running(Total(items, c), LastExponent(items, c))
  {
    totals := map[];
    for i := 0 to |items|
      invariant forall c :: c in totals <==> Occurs(items[..i], c)
      invariant forall c :: c in totals ==> totals[c] == Running(Total(items[..i], c), LastExponent(items[..i], c))
    {
      var item := items[i];
      ghost var seen := items[..i + 1];
      assert seen[..i] == items[..i];
      forall c ensures Occurs(seen, c) <==> Occurs(items[..i], c) || Counts(item, c) { OccursStep(seen, c); }
      if IsAmount(item.amountMinor) {
        if item.currency !in totals { TotalOfAbsent(items[..i], item.currency); }
        var current := if item.currency in totals then totals[item.currency].sum else 0;
        totals := totals[item.currency := Running(current + BigInt(item.amountMinor), item.exponent)];
      }
    }
    assert items[..|items|] == items;
  }

  /** Its entries, written out in currency order. */
  method SumLoop(items: seq<Money>) returns (r: seq<Money>)
    ensures r == SumByCurrency(items)
  {
    var totals := Tally(items);
    var codes := SortCodes(totals.Keys);
    CodesMeaning(items);
    AscendingIsUnique(codes, Codes(items));
    r := [];
    for i := 0 to |codes|
      invariant |r| == i && r == SumByCurrency(items)[..i]
    {
      assert codes[i] in codes;
      r := r + [Money(Signed(totals[codes[i]].sum), codes[i], totals[codes[i]].exponent)];
    }
  }

  method SortCodes(codes: set<string>) returns (sorted: seq<string>)
    ensures AscendingCodes(sorted) && forall c :: c in sorted <==> c in codes
  {
    sorted := [];
    var left := codes;
    while left != {}
      invariant left <= codes && forall c :: c in sorted <==> c in codes && c !in left
      invariant AscendingCodes(sorted)
      invariant forall c, d :: c in sorted && d in left ==> Less(c, d)
      decreases left
    {
      var c := First(left);
      forall i | 0 <= i < |sorted| ensures Less(sorted[i], c) { assert sorted[i] in sorted; }
      sorted := sorted + [c];
      left := left - {c};
    }
  }

  /** Two ascending sequences with the same elements are the same. */
  lemma {:induction false} AscendingIsUnique(a: seq<string>, b: seq<string>)
    requires AscendingCodes(a) && AscendingCodes(b) && forall c :: c in a <==> c in b
    ensures a == b
  {
    if a == [] {
      if b != [] { HasElement(b); }
    } else {
      assert a[0] in b;
      assert b[0] in a;
      LessTotal(a[0], b[0]);
      assert a[0] == b[0];
      forall c ensures c in a[1..] <==> c in b[1..] { InTail(a, c); InTail(b, c); }
      AscendingIsUnique(a[1..], b[1..]);
    }
  }

  lemma HasElement(a: seq<string>)
    requires a != []
    ensures exists c :: c in a
  {
    assert a[0] in a;
  }

  lemma InTail(a: seq<string>, c: string)
    requires a != [] && AscendingCodes(a)
    ensures c in a[1..] <==> c in a && c != a[0]
  {
    LessTotal(a[0], a[0]);
  }

  /** The least currency code of a non-empty set. */
  method First(codes: set<string>) returns (first: string)
    requires codes != {}
    ensures first in codes && forall c :: c in codes && c != first ==> Less(first, c)
  {
    var left := codes;
    first :| first in left;
    left := left - {first};
    while left != {}
      invariant first in codes && left <= codes
      invariant forall c :: c in codes && c !in left && c != first ==> Less(first, c)
      decreases left
    {
      var c :| c in left;
      left := left - {c};
      LessTotal(first, c);
      if Less(c, first) {
        forall d | d in codes && d !in left && d != c ensures Less(c, d) {
          if d != first { LessTransitive(c, first, d); }
        }
        first := c;
      }
    }
  }

  // ── remaining ──────────────────────────────────────────────────────────────

  function Paid(handed: seq<Money>, currency: string): int
    requires forall h :: h in handed ==> IsAmount(h.amountMinor)
  {
    if handed == [] then 0
    else
      var last := handed[|handed| - 1];
      Paid(handed[..|handed| - 1], currency) + if last.currency == currency then BigInt(last.amountMinor) else 0
  }

  /** What is left to hand over per currency; settled currencies are not listed. */
  function Remaining(collected: seq<Money>, handed: seq<Money>): (r: seq<Money>)
    requires forall m :: m in collected || m in handed ==> IsAmount(m.amountMinor)
  {
    if collected == [] then []
    else
      var m := collected[0];
      var left := BigInt(m.amountMinor) - Paid(handed, m.currency);
      var shown := m.(amountMinor := Signed(if left > 0 then left else 0));
      (if IsZero(shown) then [] else [shown]) + Remaining(collected[1..], handed)
  }

  lemma {:induction false} PaidIsTotal(handed: seq<Money>, currency: string)
    requires forall h :: h in handed ==> IsAmount(h.amountMinor)
    ensures Paid(handed, currency) == Total(handed, currency)
  {
    if handed != [] { PaidIsTotal(handed[..|handed| - 1], currency); }
  }

  ghost function Owed(collected: seq<Money>, handed: seq<Money>, c: string): int
    requires forall i :: 0 <= i < |collected| ==> IsAmount(collected[i].amountMinor)
  {
    var left := AmountIn(collected, c) - Total(handed, c);
    if Lists(collected, c) && left > 0 then left else 0
  }

  ghost predicate Lists(list: seq<Money>, c: string) {
    exists i :: 0 <= i < |list| && list[i].currency == c
  }

  lemma ListsStep(list: seq<Money>, c: string)
    requires list != []
    ensures Lists(list, c) <==> list[0].currency == c || Lists(list[1..], c)
  {
    if Lists(list[1..], c) {
      var i :| 0 <= i < |list[1..]| && list[1..][i].currency == c;
      assert list[i + 1].currency == c;
    }
  }

  lemma {:induction false} RemainingIsPositive(collected: seq<Money>, handed: seq<Money>)
    requires forall m :: m in collected || m in handed ==> IsAmount(m.amountMinor)
    ensures var r := Remaining(collected, handed);
            forall i :: 0 <= i < |r| ==> IsAmount(r[i].amountMinor) && BigInt(r[i].amountMinor) > 0
  {
    if collected != [] {
      var left := BigInt(collected[0].amountMinor) - Paid(handed, collected[0].currency);
      BigIntOfSigned(if left > 0 then left else 0);
      RemainingIsPositive(collected[1..], handed);
      RemainingStep(collected, handed);
    }
  }

  lemma AmountOfCons(x: Money, rest: seq<Money>, c: string)
    requires IsAmount(x.amountMinor) && forall i :: 0 <= i < |rest| ==> IsAmount(rest[i].amountMinor)
    ensures AmountIn([x] + rest, c) == if x.currency == c then BigInt(x.amountMinor) else AmountIn(rest, c)
  {
    assert ([x] + rest)[1..] == rest;
  }

  lemma {:induction false} TotalCons(x: Money, rest: seq<Money>, c: string)
    ensures Total([x] + rest, c) == (if Counts(x, c) then BigInt(x.amountMinor) else 0) + Total(rest, c)
  {
    if rest == [] {
      assert [x] + rest == [x] && [x][..0] == [];
    } else {
      var n := |rest| - 1;
      assert ([x] + rest)[..n + 1] == [x] + rest[..n];
      TotalCons(x, rest[..n], c);
    }
  }

  /** What each entry of a currency leaves after everything declared in it, summed up. */
  ghost function LeftIn(collected: seq<Money>, handed: seq<Money>, c: string): int
    requires forall m :: m in collected ==> IsAmount(m.amountMinor)
  {
    if collected == [] then 0
    else
      var left := BigInt(collected[0].amountMinor) - Total(handed, c);
      (if collected[0].currency == c && left > 0 then left else 0) + LeftIn(collected[1..], handed, c)
  }

  /** For any list: each entry minus all that was declared in its currency, never below zero, and only what is owed is listed. */
  lemma {:induction false} RemainingMeaning(collected: seq<Money>, handed: seq<Money>, c: string)
    requires forall m :: m in collected || m in handed ==> IsAmount(m.amountMinor)
    ensures var r := Remaining(collected, handed);
            && (forall i :: 0 <= i < |r| ==> IsAmount(r[i].amountMinor) && BigInt(r[i].amountMinor) > 0)
            && Total(r, c) == LeftIn(collected, handed, c)
  {
    RemainingIsPositive(collected, handed);
    if collected != [] {
      var m, later := collected[0], collected[1..];
      PaidIsTotal(handed, m.currency);
      RemainingMeaning(later, handed, c);
      RemainingStep(collected, handed);
      var left := BigInt(m.amountMinor) - Paid(handed, m.currency);
      if left > 0 {
        BigIntOfSigned(left);
        TotalCons(m.(amountMinor := Signed(left)), Remaining(later, handed), c);
      } else {
        assert Remaining(collected, handed) == Remaining(later, handed);
      }
    }
  }

  /** The entries at these places, in order: all that leave something, each with its currency and exponent, and with what it leaves. */
  ghost predicate AreLeft(collected: seq<Money>, handed: seq<Money>, r: seq<Money>, at: seq<nat>)
    requires forall m :: m in collected ==> IsAmount(m.amountMinor)
  {
    Increasing(at) && EachIsLeft(collected, handed, r, at) && AllLeftAt(collected, handed, at)
  }

  ghost predicate EachIsLeft(collected: seq<Money>, handed: seq<Money>, r: seq<Money>, at: seq<nat>)
    requires forall m :: m in collected ==> IsAmount(m.amountMinor)
  {
    |r| == |at| && forall i :: 0 <= i < |at| ==> at[i] < |collected| && IsLeft(collected[at[i]], handed, r[i])
  }

  ghost predicate AllLeftAt(collected: seq<Money>, handed: seq<Money>, at: seq<nat>)
    requires forall m :: m in collected ==> IsAmount(m.amountMinor)
  {
    forall k: nat :: k < |collected| && BigInt(collected[k].amountMinor) > Total(handed, collected[k].currency) ==> k in at
  }

  ghost predicate IsLeft(m: Money, handed: seq<Money>, left: Money)
    requires IsAmount(m.amountMinor)
  {
    && left.currency == m.currency && left.exponent == m.exponent && IsAmount(left.amountMinor)
    && 0 < BigInt(left.amountMinor) == BigInt(m.amountMinor) - Total(handed, m.currency)
  }

  lemma LeftIncluded(m: Money, later: seq<Money>, handed: seq<Money>, left: Money, r: seq<Money>, at: seq<nat>)
    requires IsAmount(m.amountMinor) && (forall x :: x in later ==> IsAmount(x.amountMinor))
    requires AreLeft(later, handed, r, at) && IsLeft(m, handed, left)
    ensures AreLeft([m] + later, handed, [left] + r, [0] + Later(at))
  {
    FirstPlace(at);
    EachIncluded(m, later, handed, left, r, at);
    AllIncluded(m, later, handed, at);
  }

  lemma EachIncluded(m: Money, later: seq<Money>, handed: seq<Money>, left: Money, r: seq<Money>, at: seq<nat>)
    requires IsAmount(m.amountMinor) && (forall x :: x in later ==> IsAmount(x.amountMinor))
    requires EachIsLeft(later, handed, r, at) && IsLeft(m, handed, left)
    ensures EachIsLeft([m] + later, handed, [left] + r, [0] + Later(at))
  {
  }

  lemma AllIncluded(m: Money, later: seq<Money>, handed: seq<Money>, at: seq<nat>)
    requires IsAmount(m.amountMinor) && (forall x :: x in later ==> IsAmount(x.amountMinor)) && AllLeftAt(later, handed, at)
    ensures AllLeftAt([m] + later, handed, [0] + Later(at))
  {
    FirstPlace(at);
    var all := [m] + later;
    forall k: nat | k < |all| && BigInt(all[k].amountMinor) > Total(handed, all[k].currency) ensures k in [0] + Later(at) {
      assert k > 0 ==> k - 1 in at;
    }
  }

  lemma LeftSkipped(m: Money, later: seq<Money>, handed: seq<Money>, r: seq<Money>, at: seq<nat>)
    requires IsAmount(m.amountMinor) && (forall x :: x in later ==> IsAmount(x.amountMinor))
    requires AreLeft(later, handed, r, at) && BigInt(m.amountMinor) <= Total(handed, m.currency)
    ensures AreLeft([m] + later, handed, r, Later(at))
  {
    var all := [m] + later;
    assert EachIsLeft(all, handed, r, Later(at));
    AllSkipped(m, later, handed, at);
  }

  lemma AllSkipped(m: Money, later: seq<Money>, handed: seq<Money>, at: seq<nat>)
    requires IsAmount(m.amountMinor) && (forall x :: x in later ==> IsAmount(x.amountMinor)) && AllLeftAt(later, handed, at)
    requires BigInt(m.amountMinor) <= Total(handed, m.currency)
    ensures AllLeftAt([m] + later, handed, Later(at))
  {
    var all := [m] + later;
    forall k: nat | k < |all| && BigInt(all[k].amountMinor) > Total(handed, all[k].currency) ensures k in Later(at) { assert k - 1 in at; }
  }

  /** What is left is listed entry by entry. */
  lemma {:induction false} RemainingAt(collected: seq<Money>, handed: seq<Money>) returns (at: seq<nat>)
    requires forall m :: m in collected || m in handed ==> IsAmount(m.amountMinor)
    ensures AreLeft(collected, handed, Remaining(collected, handed), at)
  {
    if collected == [] {
      at := [];
    } else {
      var m, later := collected[0], collected[1..];
      var rest := RemainingAt(later, handed);
      PaidIsTotal(handed, m.currency);
      RemainingStep(collected, handed);
      var left := BigInt(m.amountMinor) - Paid(handed, m.currency);
      assert collected == [m] + later;
      if left > 0 {
        BigIntOfSigned(left);
        LeftIncluded(m, later, handed, m.(amountMinor := Signed(left)), Remaining(later, handed), rest);
        at := [0] + Later(rest);
      } else {
        LeftSkipped(m, later, handed, Remaining(later, handed), rest);
        at := Later(rest);
        assert Remaining(collected, handed) == Remaining(later, handed);
      }
    }
  }

  /** With one entry per currency, as the totals have: collected minus declared. */
  lemma {:induction false} RemainingOfTotals(collected: seq<Money>, handed: seq<Money>, c: string)
    requires forall m :: m in collected || m in handed ==> IsAmount(m.amountMinor)
    requires Ascending(collected)
    ensures var r := Remaining(collected, handed);
            && (forall i :: 0 <= i < |r| ==> IsAmount(r[i].amountMinor) && BigInt(r[i].amountMinor) > 0)
            && AmountIn(r, c) == Owed(collected, handed, c)
  {
    RemainingIsPositive(collected, handed);
    if collected != [] {
      var m, later := collected[0], collected[1..];
      PaidIsTotal(handed, m.currency);
      RemainingIsPositive(later, handed);
      RemainingOfTotals(later, handed, c);
      ListsStep(collected, c);
      RemainingStep(collected, handed);
      var left := BigInt(m.amountMinor) - Paid(handed, m.currency);
      if left > 0 {
        BigIntOfSigned(left);
        AmountOfCons(m.(amountMinor := Signed(left)), Remaining(later, handed), c);
      } else {
        assert Remaining(collected, handed) == Remaining(later, handed);
      }
      if c == m.currency {
        NotListedLater(collected);
        assert Owed(later, handed, c) == 0 && AmountIn(collected, c) == BigInt(m.amountMinor);
      }
    }
  }

  lemma RemainingStep(collected: seq<Money>, handed: seq<Money>)
    requires collected != [] && forall m :: m in collected || m in handed ==> IsAmount(m.amountMinor)
    ensures var m := collected[0];
            var left := BigInt(m.amountMinor) - Paid(handed, m.currency);
            Remaining(collected, handed)
            == (if left > 0 then [m.(amountMinor := Signed(left))] else []) + Remaining(collected[1..], handed)
  {
    var m := collected[0];
    var left := BigInt(m.amountMinor) - Paid(handed, m.currency);
    BigIntOfSigned(if left > 0 then left else 0);
  }

  lemma NotListedLater(list: seq<Money>)
    requires list != [] && Ascending(list)
    requires forall m :: m in list ==> IsAmount(m.amountMinor)
    ensures AmountIn(list[1..], list[0].currency) == 0 && !Lists(list[1..], list[0].currency)
  {
    var c, later := list[0].currency, list[1..];
    forall i | 0 <= i < |later| ensures later[i].currency != c { LessTotal(c, later[i].currency); }
    AmountOfAbsent(later, c);
  }
}
