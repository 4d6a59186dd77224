/** What replay promises: when it succeeds, and what the books then say. */
module LedgerLaws {
  import opened Prelude
  import opened StableSort
  import opened TextOrder
  import opened LedgerModel

  // ---------------------------------------------------------------- total cost basis

  ghost function Total(m: map<string, real>): real {
    if m == map[] then 0.0
    else
      var k :| k in m;
      m[k] + Total(m - {k})
  }

  lemma {:induction false} TotalWithout(m: map<string, real>, k: string)
    requires k in m
    ensures Total(m) == m[k] + Total(m - {k})
    decreases |m|
  {
    var c :| c in m && Total(m) == m[c] + Total(m - {c});
    if c != k {
      TotalWithout(m - {c}, k);
      TotalWithout(m - {k}, c);
      assert m - {c} - {k} == m - {k} - {c};
    }
  }

  lemma TotalUpdate(m: map<string, real>, k: string, v: real)
    ensures Total(m[k := v]) == Total(m) - (if k in m then m[k] else 0.0) + v
  {
    TotalWithout(m[k := v], k);
    if k in m { TotalWithout(m, k); assert m[k := v] - {k} == m - {k}; }
    else { assert m[k := v] - {k} == m; }
  }

  // ---------------------------------------------------------------- one transaction

  /** Positions and cost basis have the same codes, every position is positive and so is its cost. */
  predicate Sound(b: Book) {
    && b.positions.Keys == b.costBasis.Keys
    && (forall c :: c in b.positions ==> b.positions[c] > 0)
    && (forall c :: c in b.costBasis ==> b.costBasis[c] > 0.0)
  }

  /** Cash plus cost of what is held, less profit already realized: what the owner paid in. */
  ghost function Worth(b: Book): real { b.cash + Total(b.costBasis) - b.realized }

  function PaidInBy(tx: Transaction): real { if Trade(tx) then 0.0 else tx.amount }

  function PaidIn(txs: seq<Transaction>): real {
    if txs == [] then 0.0 else PaidIn(txs[..|txs| - 1]) + PaidInBy(txs[|txs| - 1])
  }

  function Change(tx: Transaction, code: string): int {
    if tx.code != Some(code) then 0 else if tx.kind.Buy? then tx.quantity else if tx.kind.Sell? then -tx.quantity else 0
  }

  /** Selling part of a position leaves part of its cost; selling all of it realizes all of its cost. */
  lemma CostLeft(cost: real, quantity: int, held: int)
    requires cost > 0.0 && 0 < quantity <= held
    ensures quantity < held ==> cost - SoldCost(cost, quantity, held) > 0.0
    ensures quantity == held ==> SoldCost(cost, quantity, held) == cost
  {
    var q, h := quantity as real, held as real;
    if quantity < held {
      PartOfWhole(q, h);
      assert cost * (q / h) < cost * 1.0;
    } else {
      WholeOfWhole(h);
    }
  }

  lemma PartOfWhole(q: real, h: real)
    requires 0.0 < q < h
    ensures q / h < 1.0
  {
    if q / h >= 1.0 { ScaledUp(q / h, h); }
  }

  lemma WholeOfWhole(h: real)
    requires h > 0.0
    ensures h / h == 1.0
  {}

  lemma OneKeepsSound(b: Book, tx: Transaction)
    requires Sound(b) && Signed(tx) && ApplyOne(b, tx).Ok?
    ensures Sound(ApplyOne(b, tx).value)
    ensures forall c :: Held(ApplyOne(b, tx).value, c) == Held(b, c) + Change(tx, c)
  {
    if tx.kind.Sell? { CostLeft(Cost(b, tx.code.value), tx.quantity, Held(b, tx.code.value)); }
  }

  lemma OneConserves(b: Book, tx: Transaction)
    requires Sound(b) && Signed(tx) && ApplyOne(b, tx).Ok?
    ensures Worth(ApplyOne(b, tx).value) == Worth(b) + PaidInBy(tx)
  {
    if tx.kind.Buy? {
      TotalUpdate(b.costBasis, tx.code.value, Cost(b, tx.code.value) + Magnitude(tx.amount) + tx.fees);
    } else if tx.kind.Sell? {
      var code := tx.code.value;
      CostLeft(Cost(b, code), tx.quantity, Held(b, code));
      TotalWithout(b.costBasis, code);
      TotalUpdate(b.costBasis, code, Cost(b, code) - SoldCost(Cost(b, code), tx.quantity, Held(b, code)));
    }
  }

  /** A well-formed transaction fails only as a sale of more than is held. */
  lemma OneFails(b: Book, tx: Transaction)
    requires Sound(b) && Signed(tx)
    ensures ApplyOne(b, tx).Err? <==> tx.kind.Sell? && Held(b, tx.code.value) < tx.quantity
    ensures ApplyOne(b, tx).Err? ==> ApplyOne(b, tx).error == ValueError
  {}

  // ---------------------------------------------------------------- one day

  lemma {:induction false} AllKeepsSound(b: Book, txs: seq<Transaction>)
    requires Sound(b) && AllSigned(txs)
    ensures match ApplyAll(b, txs)
            case Ok(c) =>
              && Sound(c) && Worth(c) == Worth(b) + PaidIn(txs)
              && forall code :: Held(c, code) == Held(b, code) + Bought(txs, code) - Sold(txs, code)
            case Err(e) => e == ValueError
  {
    if txs != [] {
      var rest := txs[..|txs| - 1];
      AllKeepsSound(b, rest);
      if ApplyAll(b, rest).Ok? {
        var c := ApplyAll(b, rest).value;
        OneFails(c, txs[|txs| - 1]);
        if ApplyOne(c, txs[|txs| - 1]).Ok? {
          OneKeepsSound(c, txs[|txs| - 1]);
          OneConserves(c, txs[|txs| - 1]);
        }
      }
    }
  }

  /** The given order succeeding implies net availability. */
  lemma GivenOrderAvailable(b: Book, txs: seq<Transaction>)
    requires Sound(b) && AllSigned(txs) && ApplyAll(b, txs).Ok?
    ensures NetAvailable(b, txs)
  {
    AllKeepsSound(b, txs);
    var c := ApplyAll(b, txs).value;
    forall code ensures Held(b, code) + Bought(txs, code) >= Sold(txs, code) {
      assert Held(c, code) >= 0;
    }
  }

  // ---------------------------------------------------------------- the fallback order

  lemma BeforeOrders()
    ensures Preorder(Before)
  {
    forall a, b ensures Before(a, b) || Before(b, a) { StrLeTotal(a.id, b.id); }
    forall a, b, c | Before(a, b) && Before(b, c) ensures Before(a, c) {
      if a.kind.Sell? == b.kind.Sell? == c.kind.Sell? { StrLeTransitive(a.id, b.id, c.id); }
    }
  }

  /** The fallback runs the same transactions, sales last and otherwise by identifier. */
  lemma BuysFirstSorts(txs: seq<Transaction>)
    ensures Sorted(Before, BuysFirst(txs)) && multiset(BuysFirst(txs)) == multiset(txs)
  {
    BeforeOrders();
    SortSorted(Before, txs);
    SortBag(Before, txs);
  }

  lemma SumsNext(front: seq<Transaction>, tx: Transaction, code: string)
    ensures PaidIn(front + [tx]) == PaidIn(front) + PaidInBy(tx)
    ensures Bought(front + [tx], code) == Bought(front, code) + Bought([tx], code)
    ensures Sold(front + [tx], code) == Sold(front, code) + Sold([tx], code)
  {
    assert (front + [tx])[..|front|] == front;
    assert [tx][..0] == [];
  }

  lemma {:induction false} InsertSums(sorted: seq<Transaction>, tx: Transaction, code: string)
    ensures var s, both := Insert(Before, sorted, tx), sorted + [tx];
            && PaidIn(s) == PaidIn(both)
            && Bought(s, code) == Bought(both, code)
            && Sold(s, code) == Sold(both, code)
  {
    if sorted == [] { assert [tx] == sorted + [tx]; }
    else if !Before(sorted[|sorted| - 1], tx) {
      var front, last := sorted[..|sorted| - 1], sorted[|sorted| - 1];
      InsertSums(front, tx, code);
      SumsNext(Insert(Before, front, tx), last, code);
      SumsNext(front, tx, code);
      SumsNext(front, last, code);
      SumsNext(sorted, tx, code);
      SplitLast(sorted);
    }
  }

  lemma {:induction false} BuysFirstSums(txs: seq<Transaction>, code: string)
    ensures PaidIn(BuysFirst(txs)) == PaidIn(txs)
    ensures Bought(BuysFirst(txs), code) == Bought(txs, code)
    ensures Sold(BuysFirst(txs), code) == Sold(txs, code)
  {
    if txs != [] {
      var rest, last := txs[..|txs| - 1], txs[|txs| - 1];
      BuysFirstSums(rest, code);
      InsertSums(BuysFirst(rest), last, code);
      SumsNext(BuysFirst(rest), last, code);
      SumsNext(rest, last, code);
      SplitLast(txs);
    }
  }

  lemma BuysFirstSigned(txs: seq<Transaction>)
    requires AllSigned(txs)
    ensures AllSigned(BuysFirst(txs))
  {
    BuysFirstSorts(txs);
    forall i | 0 <= i < |BuysFirst(txs)| ensures Signed(BuysFirst(txs)[i]) {
      assert BuysFirst(txs)[i] in multiset(BuysFirst(txs));
      assert BuysFirst(txs)[i] in txs;
    }
  }

  /** A prefix of an ordered day: once a sale has run, nothing but sales follows. */
  lemma {:induction false} SoldUpTo(txs: seq<Transaction>, n: nat, code: string)
    requires AllSigned(txs) && n <= |txs|
    ensures 0 <= Sold(txs[..n], code) <= Sold(txs, code)
    ensures 0 <= Bought(txs[..n], code) <= Bought(txs, code)
    decreases |txs|
  {
    if n == |txs| {
      assert txs[..n] == txs;
      if n > 0 { SoldUpTo(txs[..n - 1], n - 1, code); assert txs[..n - 1][..n - 1] == txs[..n - 1]; }
    } else {
      var rest := txs[..|txs| - 1];
      assert rest[..n] == txs[..n];
      SoldUpTo(rest, n, code);
    }
  }

  lemma {:induction false} NothingBoughtAfter(txs: seq<Transaction>, n: nat, code: string)
    requires Sorted(Before, txs) && n < |txs| && txs[n].kind.Sell?
    ensures Bought(txs[..n], code) == Bought(txs, code)
    decreases |txs|
  {
    if n == |txs| - 1 {
    } else {
      var rest := txs[..|txs| - 1];
      assert rest[..n] == txs[..n];
      assert Before(txs[n], txs[|txs| - 1]);
      NothingBoughtAfter(rest, n, code);
    }
  }

  /** Net availability implies that an ordered day never runs short. */
  lemma {:induction false} OrderedDayRuns(b: Book, txs: seq<Transaction>, n: nat)
    requires Sound(b) && AllSigned(txs) && Sorted(Before, txs) && n <= |txs|
    requires forall code :: SoldOn(txs, code) ==> Held(b, code) + Bought(txs, code) >= Sold(txs, code)
    ensures ApplyAll(b, txs[..n]).Ok?
  {
    if n > 0 {
      OrderedDayRuns(b, txs, n - 1);
      var done, tx := txs[..n - 1], txs[n - 1];
      assert txs[..n][..n - 1] == done;
      AllKeepsSound(b, done);
      var c := ApplyAll(b, done).value;
      OneFails(c, tx);
      if tx.kind.Sell? {
        var code := tx.code.value;
        assert SoldOn(txs, code);
        NothingBoughtAfter(txs, n - 1, code);
        SoldUpTo(txs, n, code);
      }
    }
  }

  lemma BuysFirstSoldOn(txs: seq<Transaction>, code: string)
    ensures SoldOn(BuysFirst(txs), code) ==> SoldOn(txs, code)
  {
    BuysFirstSorts(txs);
    if SoldOn(BuysFirst(txs), code) {
      var i :| 0 <= i < |BuysFirst(txs)| && BuysFirst(txs)[i].kind.Sell? && BuysFirst(txs)[i].code == Some(code);
      assert BuysFirst(txs)[i] in multiset(BuysFirst(txs));
      assert BuysFirst(txs)[i] in txs;
      var j :| 0 <= j < |txs| && txs[j] == BuysFirst(txs)[i];
    }
  }

  /** Net availability implies the buy-first fallback order never fails. */
  lemma FallbackRuns(b: Book, txs: seq<Transaction>)
    requires Sound(b) && AllSigned(txs) && NetAvailable(b, txs)
    ensures ApplyAll(b, BuysFirst(txs)).Ok?
  {
    BuysFirstSorts(txs);
    BuysFirstSigned(txs);
    var s := BuysFirst(txs);
    forall code | SoldOn(s, code) ensures Held(b, code) + Bought(s, code) >= Sold(s, code) {
      BuysFirstSums(txs, code);
      BuysFirstSoldOn(txs, code);
    }
    OrderedDayRuns(b, s, |s|);
    assert s[..|s|] == s;
  }

  /** A day succeeds exactly when it is available on balance, whatever order its entries are given in; holdings
      and worth come out the same in either order. */
  lemma DayLaw(b: Book, txs: seq<Transaction>)
    requires Sound(b) && AllSigned(txs)
    ensures ApplyDay(b, txs).Ok? <==> NetAvailable(b, txs)
    ensures ApplyDay(b, txs).Ok? ==>
              var c := ApplyDay(b, txs).value;
              && Sound(c) && Worth(c) == Worth(b) + PaidIn(txs)
              && forall code :: Held(c, code) == Held(b, code) + Bought(txs, code) - Sold(txs, code)
  {
    AllKeepsSound(b, txs);
    if ApplyAll(b, txs).Ok? { GivenOrderAvailable(b, txs); }
    else if NetAvailable(b, txs) {
      FallbackRuns(b, txs);
      FallbackLaw(b, txs);
    }
  }

  /** The fallback order leaves the same holdings and the same worth. */
  lemma FallbackLaw(b: Book, txs: seq<Transaction>)
    requires Sound(b) && AllSigned(txs) && ApplyAll(b, BuysFirst(txs)).Ok?
    ensures var c := ApplyAll(b, BuysFirst(txs)).value;
            && Sound(c) && Worth(c) == Worth(b) + PaidIn(txs)
            && forall code :: Held(c, code) == Held(b, code) + Bought(txs, code) - Sold(txs, code)
  {
    BuysFirstSigned(txs);
    AllKeepsSound(b, BuysFirst(txs));
    BuysFirstSums(txs, "");
    forall code { BuysFirstSums(txs, code); }
  }

  /** Ten shares held at a cost of 100. */
  const TEN_HELD := Book(0.0, map["600000" := 10], map["600000" := 100.0], 0.0)

  const SELL_TEN := Transaction("a", 1, Sell, Some("600000"), 10, 15.0, 150.0, 0.0)

  const BUY_TEN := Transaction("b", 1, Buy, Some("600000"), 10, 20.0, -200.0, 0.0)

  /** Realized profit is another matter: selling before or after a purchase of the day realizes a different cost. */
  lemma OrderChangesProfit()
    ensures Sound(TEN_HELD) && AllValidated([SELL_TEN, BUY_TEN])
    ensures var r := ApplyAll(TEN_HELD, [SELL_TEN, BUY_TEN]); r.Ok? && r.value.realized == 50.0
    ensures var r := ApplyAll(TEN_HELD, [BUY_TEN, SELL_TEN]); r.Ok? && r.value.realized == 0.0
  {
    ApplyPair(TEN_HELD, SELL_TEN, BUY_TEN);
    ApplyPair(TEN_HELD, BUY_TEN, SELL_TEN);
    SellFirst();
    BuyFirst();
    TenValidated();
  }

  lemma TenValidated()
    ensures Validated(SELL_TEN) && Validated(BUY_TEN)
  {}

  lemma SellFirst()
    ensures var r := ApplyOne(TEN_HELD, SELL_TEN); r.Ok? && r.value.realized == 50.0
  {
    SoldCostOf(100.0, 10, 10, 1.0);
  }

  lemma BuyFirst()
    ensures var c := ApplyOne(TEN_HELD, BUY_TEN);
            c.Ok? && var r := ApplyOne(c.value, SELL_TEN); r.Ok? && r.value.realized == 0.0
  {
    SoldCostOf(300.0, 10, 20, 0.5);
  }

  lemma ApplyPair(b: Book, t: Transaction, u: Transaction)
    ensures ApplyAll(b, [t, u]) ==
            match ApplyOne(b, t) case Ok(c) => ApplyOne(c, u) case Err(e) => Err(e)
  {
    assert [t, u][..1] == [t] && [t][..0] == [];
    assert ApplyAll(b, [t]) == ApplyOne(b, t);
  }

  lemma SoldCostOf(cost: real, quantity: int, held: int, share: real)
    requires held != 0 && quantity as real == share * held as real
    ensures SoldCost(cost, quantity, held) == cost * share
  {
    assert quantity as real / held as real == share;
  }

  // ---------------------------------------------------------------- whole histories

  function DaysPaidIn(days: seq<seq<Transaction>>): real {
    if days == [] then 0.0 else DaysPaidIn(days[..|days| - 1]) + PaidIn(days[|days| - 1])
  }

  /** Purchases less sales over whole days. */
  function Net(days: seq<seq<Transaction>>, code: string): int {
    if days == [] then 0
    else Net(days[..|days| - 1], code) + Bought(days[|days| - 1], code) - Sold(days[|days| - 1], code)
  }

  /** At the close of every trading day, purchases so far cover sales so far of each code sold that day. */
  ghost predicate EveryDayCovered(days: seq<seq<Transaction>>) {
    forall k, code :: 0 <= k < |days| && SoldOn(days[k], code) ==> Net(days[..k + 1], code) >= 0
  }

  predicate DaysSigned(days: seq<seq<Transaction>>) {
    forall k :: 0 <= k < |days| ==> AllSigned(days[k])
  }

  /** The last day adds its own codes to what must be covered. */
  lemma CoveredDayByDay(days: seq<seq<Transaction>>)
    requires days != []
    ensures var rest := days[..|days| - 1]; var day := days[|days| - 1];
            EveryDayCovered(days) <==>
              EveryDayCovered(rest) &&
              forall code :: SoldOn(day, code) ==> Net(rest, code) + Bought(day, code) >= Sold(day, code)
  {
    var rest, day := days[..|days| - 1], days[|days| - 1];
    assert days[..|rest| + 1] == days;
    if EveryDayCovered(days) {
      forall k, code | 0 <= k < |rest| && SoldOn(rest[k], code) ensures Net(rest[..k + 1], code) >= 0 {
        assert rest[..k + 1] == days[..k + 1] && SoldOn(days[k], code);
      }
      forall code | SoldOn(day, code) ensures Net(rest, code) + Bought(day, code) >= Sold(day, code) {
        assert SoldOn(days[|rest|], code);
        assert Net(days[..|rest| + 1], code) >= 0;
      }
    } else {
      var k, code :| 0 <= k < |days| && SoldOn(days[k], code) && Net(days[..k + 1], code) < 0;
      if k < |rest| { assert rest[..k + 1] == days[..k + 1] && SoldOn(rest[k], code); }
    }
  }

  lemma {:induction false} DaysLaw(days: seq<seq<Transaction>>)
    requires DaysSigned(days)
    ensures ApplyDays(EMPTY, days).Ok? <==> EveryDayCovered(days)
    ensures ApplyDays(EMPTY, days).Ok? ==>
              var c := ApplyDays(EMPTY, days).value;
              Sound(c) && Worth(c) == DaysPaidIn(days) && forall code :: Held(c, code) == Net(days, code)
  {
    if days != [] {
      var rest, day := days[..|days| - 1], days[|days| - 1];
      DaysLaw(rest);
      CoveredDayByDay(days);
      if ApplyDays(EMPTY, rest).Ok? { DayLaw(ApplyDays(EMPTY, rest).value, day); }
    }
  }

  // ---------------------------------------------------------------- from histories to their days

  function Flatten(days: seq<seq<Transaction>>): seq<Transaction> {
    if days == [] then [] else Flatten(days[..|days| - 1]) + days[|days| - 1]
  }

  /** Each day has one date and its neighbours have others. */
  predicate ProperDays(days: seq<seq<Transaction>>) {
    && (forall k :: 0 <= k < |days| ==> days[k] != [])
    && (forall k, i :: 0 <= k < |days| && 0 <= i < |days[k]| ==> days[k][i].tradeDate == days[k][0].tradeDate)
    && (forall k :: 0 <= k < |days| - 1 ==> days[k][0].tradeDate != days[k + 1][0].tradeDate)
  }

  lemma AddToDaysParts(days: seq<seq<Transaction>>, tx: Transaction)
    ensures var all := AddToDays(days, tx);
            if |all| == |days| then
              days != [] && all[..|all| - 1] == days[..|days| - 1] && all[|all| - 1] == days[|days| - 1] + [tx]
            else
              all[..|all| - 1] == days && all[|all| - 1] == [tx]
  {}

  lemma AddFlattens(days: seq<seq<Transaction>>, tx: Transaction)
    ensures Flatten(AddToDays(days, tx)) == Flatten(days) + [tx]
  {
    AddToDaysParts(days, tx);
  }

  lemma AddStaysProper(days: seq<seq<Transaction>>, tx: Transaction)
    requires ProperDays(days)
    ensures ProperDays(AddToDays(days, tx))
  {
    AddToDaysParts(days, tx);
    var all := AddToDays(days, tx);
    var last := |all| - 1;
    forall k | 0 <= k < last ensures all[k] == days[k] { assert all[k] == all[..last][k]; }
    forall i | 0 <= i < |all[last]| ensures all[last][i].tradeDate == tx.tradeDate {
      if |all| == |days| && i < |days[last]| { assert all[last][i] == days[last][i]; }
    }
    assert all[last][0].tradeDate == tx.tradeDate;
  }

  lemma OneMore(txs: seq<Transaction>, tx: Transaction, code: string)
    ensures PaidIn(txs + [tx]) == PaidIn(txs) + PaidInBy(tx)
    ensures Bought(txs + [tx], code) - Sold(txs + [tx], code) == Bought(txs, code) - Sold(txs, code) + Change(tx, code)
  {
    assert (txs + [tx])[..|txs|] == txs;
  }

  lemma AddSums(days: seq<seq<Transaction>>, tx: Transaction, code: string)
    ensures DaysPaidIn(AddToDays(days, tx)) == DaysPaidIn(days) + PaidInBy(tx)
    ensures Net(AddToDays(days, tx), code) == Net(days, code) + Change(tx, code)
  {
    AddToDaysParts(days, tx);
    var all := AddToDays(days, tx);
    if |all| == |days| { OneMore(days[|days| - 1], tx, code); }
    else {
      OneMore([], tx, code);
      assert [] + [tx] == [tx];
    }
  }

  /** The days are the maximal runs of one trade date: in order, nothing lost, neighbours on different dates. */
  lemma {:induction false} DaysPartition(txs: seq<Transaction>)
    ensures Flatten(Days(txs)) == txs && ProperDays(Days(txs))
  {
    if txs != [] {
      DaysPartition(txs[..|txs| - 1]);
      AddPartitions(Days(txs[..|txs| - 1]), txs[|txs| - 1]);
      assert txs == txs[..|txs| - 1] + [txs[|txs| - 1]];
    }
  }

  lemma AddPartitions(days: seq<seq<Transaction>>, tx: Transaction)
    requires ProperDays(days)
    ensures Flatten(AddToDays(days, tx)) == Flatten(days) + [tx] && ProperDays(AddToDays(days, tx))
  {
    AddFlattens(days, tx);
    AddStaysProper(days, tx);
  }

  lemma {:induction false} DaysMoney(txs: seq<Transaction>)
    ensures DaysPaidIn(Days(txs)) == PaidIn(txs)
  {
    if txs != [] {
      DaysMoney(txs[..|txs| - 1]);
      AddSums(Days(txs[..|txs| - 1]), txs[|txs| - 1], "");
    }
  }

  lemma {:induction false} DaysNet(txs: seq<Transaction>, code: string)
    ensures Net(Days(txs), code) == Bought(txs, code) - Sold(txs, code)
  {
    if txs != [] {
      DaysNet(txs[..|txs| - 1], code);
      AddSums(Days(txs[..|txs| - 1]), txs[|txs| - 1], code);
    }
  }

  lemma {:induction false} DaysStaySigned(txs: seq<Transaction>)
    requires AllValidated(txs)
    ensures DaysSigned(Days(txs))
  {
    if txs != [] {
      DaysStaySigned(txs[..|txs| - 1]);
      assert Validated(txs[|txs| - 1]);
    }
  }

  /** Replay of validated transactions succeeds exactly when, at the close of every trading day, purchases
      to date cover sales to date of each code sold that day. */
  lemma ReplaySucceedsIff(txs: seq<Transaction>)
    requires AllValidated(txs)
    ensures Replay(txs).Ok? <==> EveryDayCovered(Days(txs))
  {
    DaysStaySigned(txs);
    DaysLaw(Days(txs));
  }

  /** After every successful replay, cash plus cost basis less realized profit is what was paid in, and the
      positions are purchases less sales, whichever intraday order was used. */
  lemma ReplayConserves(txs: seq<Transaction>)
    requires AllValidated(txs) && Replay(txs).Ok?
    ensures var b := Replay(txs).value;
            && b.cash + Total(b.costBasis) - b.realized == PaidIn(txs)
            && b.positions.Keys == b.costBasis.Keys
            && (forall code :: code in b.positions ==> b.positions[code] > 0 && b.costBasis[code] > 0.0)
            && (forall code :: Held(b, code) == Bought(txs, code) - Sold(txs, code))
  {
    DaysStaySigned(txs);
    DaysLaw(Days(txs));
    DaysMoney(txs);
    forall code { DaysNet(txs, code); }
  }
}
