/** What each transaction does to the books, and what a whole history does to the cash. */
module LedgerMoney {
  import opened StableSort
  import opened LedgerModel
  import opened LedgerLaws

  // ---------------------------------------------------------------- one transaction

  /** Positions and costs of every other code are as they were. */
  ghost predicate OthersKept(b: Book, c: Book, code: string) {
    forall x :: x != code ==> Held(c, x) == Held(b, x) && Cost(c, x) == Cost(b, x)
  }

  /** A purchase pays amount and fees, and both become cost of the position. */
  ghost predicate Purchased(b: Book, tx: Transaction, c: Book)
    requires tx.code.Some?
  {
    var code := tx.code.value;
    && c.cash == b.cash + tx.amount - tx.fees && c.realized == b.realized
    && Held(c, code) == Held(b, code) + tx.quantity
    && Cost(c, code) == Cost(b, code) - tx.amount + tx.fees
    && OthersKept(b, c, code)
  }

  /** A sale receives the amount less fees, leaves the cost per remaining share, and realizes the difference. */
  ghost predicate SoldOff(b: Book, tx: Transaction, c: Book)
    requires tx.code.Some?
  {
    var code := tx.code.value;
    && c.cash == b.cash + tx.amount - tx.fees
    && 0 <= Held(c, code) == Held(b, code) - tx.quantity
    && Cost(c, code) * Held(b, code) as real == Cost(b, code) * Held(c, code) as real
    && c.realized == b.realized + (tx.amount - tx.fees) - (Cost(b, code) - Cost(c, code))
    && OthersKept(b, c, code)
  }

  ghost predicate Booked(b: Book, tx: Transaction, c: Book) {
    match tx.kind
    case Buy => tx.code.Some? && Purchased(b, tx, c)
    case Sell => tx.code.Some? && SoldOff(b, tx, c)
    case _ => c == b.(cash := b.cash + tx.amount)
  }

  lemma CostPerShare(cost: real, quantity: int, held: int)
    requires 0 < quantity <= held
    ensures (cost - SoldCost(cost, quantity, held)) * held as real == cost * (held - quantity) as real
  {
    var q, h := quantity as real, held as real;
    var share := q / h;
    assert share * h == q;
    assert SoldCost(cost, quantity, held) == cost * share;
    PartTimes(cost, share, h);
    assert (held - quantity) as real == h - q;
  }

  lemma PartTimes(cost: real, share: real, h: real)
    ensures (cost - cost * share) * h == cost * (h - share * h)
  {}

  /** A transaction that applies does to the books what it should, and nothing else. */
  lemma OneBooked(b: Book, tx: Transaction)
    requires Sound(b) && Signed(tx) && ApplyOne(b, tx).Ok?
    ensures Sound(ApplyOne(b, tx).value) && Booked(b, tx, ApplyOne(b, tx).value)
  {
    OneKeepsSound(b, tx);
    if tx.kind.Sell? {
      var code := tx.code.value;
      CostPerShare(Cost(b, code), tx.quantity, Held(b, code));
      CostLeft(Cost(b, code), tx.quantity, Held(b, code));
    }
  }

  /** And that determines the books. */
  lemma BookedOnce(b: Book, tx: Transaction, c: Book, c': Book)
    requires Sound(b) && Signed(tx) && Sound(c) && Sound(c') && Booked(b, tx, c) && Booked(b, tx, c')
    ensures c == c'
  {
    if Trade(tx) {
      var code := tx.code.value;
      if tx.kind.Sell? {
        var h := Held(b, code) as real;
        assert Cost(c, code) * h == Cost(c', code) * h;
        SameFactor(Cost(c, code), Cost(c', code), h);
      }
      assert Held(c, code) == Held(c', code) && Cost(c, code) == Cost(c', code);
      SameBooks(c, c');
    }
  }

  lemma SameFactor(x: real, y: real, h: real)
    requires h > 0.0 && x * h == y * h
    ensures x == y
  {
    assert (x - y) * h == 0.0;
    if x > y { ScaledApart(x - y, h); } else if y > x { ScaledApart(y - x, h); }
  }

  lemma ScaledApart(x: real, h: real)
    requires x > 0.0 && h > 0.0
    ensures x * h > 0.0
  {}

  lemma SameBooks(c: Book, c': Book)
    requires Sound(c) && Sound(c') && c.cash == c'.cash && c.realized == c'.realized
    requires forall x :: Held(c, x) == Held(c', x) && Cost(c, x) == Cost(c', x)
    ensures c == c'
  {
    forall x ensures x in c.positions <==> x in c'.positions { assert Held(c, x) == Held(c', x); }
    forall x | x in c.positions ensures c.positions[x] == c'.positions[x] { assert Held(c, x) == Held(c', x); }
    forall x | x in c.costBasis ensures x in c'.costBasis && c.costBasis[x] == c'.costBasis[x] {
      assert Cost(c, x) == Cost(c', x);
    }
    assert c.positions == c'.positions;
    assert c.costBasis == c'.costBasis;
  }

  // ---------------------------------------------------------------- whole histories

  function Amounts(txs: seq<Transaction>): real {
    if txs == [] then 0.0 else Amounts(txs[..|txs| - 1]) + txs[|txs| - 1].amount
  }

  /** The fees of all trades. */
  function Fees(txs: seq<Transaction>): real {
    if txs == [] then 0.0
    else
      var tx := txs[|txs| - 1];
      Fees(txs[..|txs| - 1]) + if tx.kind.Buy? || tx.kind.Sell? then tx.fees else 0.0
  }

  lemma {:induction false} SumsAppend(a: seq<Transaction>, b: seq<Transaction>)
    ensures Amounts(a + b) == Amounts(a) + Amounts(b) && Fees(a + b) == Fees(a) + Fees(b)
  {
    if b == [] { assert a + b == a; }
    else {
      assert (a + b)[..|a + b| - 1] == a + b[..|b| - 1];
      SumsAppend(a, b[..|b| - 1]);
    }
  }

  lemma {:induction false} PermutedSums(a: seq<Transaction>, b: seq<Transaction>)
    requires multiset(a) == multiset(b)
    ensures Amounts(a) == Amounts(b) && Fees(a) == Fees(b)
    decreases |a|
  {
    SameLength(a, b);
    if a != [] {
      SameElements(a, b, a[0]);
      var j :| 0 <= j < |b| && b[j] == a[0];
      WithoutBag(a, 0);
      WithoutBag(b, j);
      Cancel(multiset(Without(a, 0)), multiset(Without(b, j)), a[0]);
      PermutedSums(Without(a, 0), Without(b, j));
      SumsWithout(a, 0);
      SumsWithout(b, j);
    }
  }

  lemma SumsWithout(s: seq<Transaction>, j: nat)
    requires j < |s|
    ensures Amounts(s) == Amounts(Without(s, j)) + Amounts([s[j]]) && Fees(s) == Fees(Without(s, j)) + Fees([s[j]])
  {
    SplitAt(s, j);
    SumsAppend(s[..j], [s[j]] + s[j + 1..]);
    SumsAppend([s[j]], s[j + 1..]);
    SumsAppend(s[..j], s[j + 1..]);
  }

  lemma SplitAt(s: seq<Transaction>, j: nat)
    requires j < |s|
    ensures s == s[..j] + ([s[j]] + s[j + 1..]) && Without(s, j) == s[..j] + s[j + 1..]
  {}

  lemma {:induction false} AllCash(b: Book, txs: seq<Transaction>)
    requires ApplyAll(b, txs).Ok?
    ensures ApplyAll(b, txs).value.cash == b.cash + Amounts(txs) - Fees(txs)
  {
    if txs != [] { AllCash(b, txs[..|txs| - 1]); }
  }

  lemma DayCash(b: Book, txs: seq<Transaction>)
    requires ApplyDay(b, txs).Ok?
    ensures ApplyDay(b, txs).value.cash == b.cash + Amounts(txs) - Fees(txs)
  {
    if ApplyAll(b, txs).Ok? { AllCash(b, txs); }
    else {
      AllCash(b, BuysFirst(txs));
      BuysFirstSorts(txs);
      PermutedSums(BuysFirst(txs), txs);
    }
  }

  lemma {:induction false} DaysCash(days: seq<seq<Transaction>>)
    requires ApplyDays(EMPTY, days).Ok?
    ensures ApplyDays(EMPTY, days).value.cash == Amounts(Flatten(days)) - Fees(Flatten(days))
  {
    if days != [] {
      DaysCash(days[..|days| - 1]);
      DayCash(ApplyDays(EMPTY, days[..|days| - 1]).value, days[|days| - 1]);
      SumsAppend(Flatten(days[..|days| - 1]), days[|days| - 1]);
    }
  }

  /** After every successful replay the cash is the sum of all amounts less the fees of all trades. */
  lemma ReplayCash(txs: seq<Transaction>)
    requires Replay(txs).Ok?
    ensures Replay(txs).value.cash == Amounts(txs) - Fees(txs)
  {
    DaysCash(Days(txs));
    DaysPartition(txs);
  }

  /** And the profit realized is that cash plus the cost of what is held, less what was paid in. */
  lemma ReplayProfit(txs: seq<Transaction>)
    requires AllValidated(txs) && Replay(txs).Ok?
    ensures var b := Replay(txs).value;
            b.realized == Amounts(txs) - Fees(txs) + Total(b.costBasis) - PaidIn(txs)
  {
    ReplayCash(txs);
    ReplayConserves(txs);
  }
}
