/** Replay as the ledger runs it: books changed in place, a copy per day, rollback and fallback. */
module LedgerReplay {
  import opened Prelude
  import opened LedgerModel
  import opened LedgerLaws
  import opened LedgerMoney

  class LedgerState {
    var cash: real
    var positions: map<string, int>
    var costBasis: map<string, real>
    var realizedPnl: real

    function Book(): Book
      reads this
    {
      LedgerModel.Book.Book(cash, positions, costBasis, realizedPnl)
    }

    constructor ()
      ensures Book() == EMPTY
    {
      cash, positions, costBasis, realizedPnl := 0.0, map[], map[], 0.0;
    }

    constructor Copy(other: LedgerState)
      ensures Book() == other.Book()
    {
      cash, positions, costBasis, realizedPnl := other.cash, other.positions, other.costBasis, other.realizedPnl;
    }

    method Replace(source: LedgerState)
      modifies this
      ensures Book() == old(source.Book())
    {
      cash, positions, costBasis, realizedPnl := source.cash, source.positions, source.costBasis, source.realizedPnl;
    }

    /**
    `_apply_single_transaction`; an error leaves the books as they were.  A transaction that is in order does to
    sound books what `Booked` says, and so determines them.
    */
    method ApplySingle(tx: Transaction) returns (error: Option<Error>)
      modifies this
      ensures match ApplyOne(old(Book()), tx)
              case Ok(b) => error == None && Book() == b
              case Err(e) => error == Some(e) && Book() == old(Book())
      ensures error == None && Sound(old(Book())) && Signed(tx) ==> Sound(Book()) && Booked(old(Book()), tx, Book())
    {
      ghost var before := Book();
      error := Post(tx);
      if error == None && Sound(before) && Signed(tx) { OneBooked(before, tx); }
    }

    /** The entry itself, kind by kind. */
    method Post(tx: Transaction) returns (error: Option<Error>)
      modifies this
      ensures match ApplyOne(old(Book()), tx)
              case Ok(b) => error == None && Book() == b
              case Err(e) => error == Some(e) && Book() == old(Book())
    {
      match tx.kind
      case Buy =>
        if tx.code.None? { return Some(ValueError); }
        var code := tx.code.value;
        cash := cash + (tx.amount - tx.fees);
        positions := positions[code := (if code in positions then positions[code] else 0) + tx.quantity];
        costBasis :=
          costBasis[code := (if code in costBasis then costBasis[code] else 0.0) + Magnitude(tx.amount) + tx.fees];
        return None;
      case Sell =>
        if tx.code.None? { return Some(ValueError); }
        var code := tx.code.value;
        var held := if code in positions then positions[code] else 0;
        if held < tx.quantity { return Some(ValueError); }
        var priorCost := if code in costBasis then costBasis[code] else 0.0;
        if held == 0 { return Some(ZeroDivision); }
        var soldCost := SoldCost(priorCost, tx.quantity, held);
        cash := cash + (tx.amount - tx.fees);
        realizedPnl := realizedPnl + (tx.amount - tx.fees - soldCost);
        var remaining := held - tx.quantity;
        if remaining == 0 {
          positions := positions - {code};
          costBasis := costBasis - {code};
        } else {
          positions := positions[code := remaining];
          costBasis := costBasis[code := priorCost - soldCost];
        }
        return None;
      case Unsupported => return Some(ValueError);
      case _ =>
        cash := cash + tx.amount;
        return None;
    }

    /** Transactions one after the other; stops at the first error. */
    method ApplyEach(txs: seq<Transaction>) returns (error: Option<Error>)
      modifies this
      ensures match ApplyAll(old(Book()), txs)
              case Ok(b) => error == None && Book() == b
              case Err(e) => error == Some(e)
    {
      for n := 0 to |txs|
        invariant ApplyAll(old(Book()), txs[..n]) == Ok(Book())
      {
        assert txs[..n + 1][..n] == txs[..n];
        error := ApplySingle(txs[n]);
        if error.Some? {
          ErrorsStick(old(Book()), txs, n + 1);
          return;
        }
      }
      assert txs[..|txs|] == txs;
      return None;
    }

    /** `_same_day_net_available`: totals bought and sold per code, compared against the opening position. */
    method SameDayNetAvailable(txs: seq<Transaction>) returns (r: Result<bool, Error>)
      ensures r == if TradeWithoutCode(txs) then Err(ValueError) else Ok(NetAvailable(Book(), txs))
    {
      var buys: map<string, int> := map[];
      var sells: map<string, int> := map[];
      for n := 0 to |txs|
        invariant Tallied(buys, sells, txs[..n])
      {
        var tx := txs[n];
        assert txs[..n + 1] == txs[..n] + [tx];
        SoldOnMore(txs[..n], tx);
        if Trade(tx) && tx.code.None? {
          assert txs[n] == tx && TradeWithoutCode(txs);
          return Err(ValueError);
        }
        TalliedMore(buys, sells, txs[..n], tx);
        if tx.kind.Buy? { buys := AddTo(buys, tx.code.value, tx.quantity); }
        else if tx.kind.Sell? { sells := AddTo(sells, tx.code.value, tx.quantity); }
      }
      assert txs[..|txs|] == txs;
      return Ok(forall c :: c in sells ==> Count(positions, c) + Count(buys, c) >= sells[c]);
    }

    /** `_apply_same_day_transactions`: the day is applied whole or not at all. */
    method ApplySameDay(txs: seq<Transaction>) returns (error: Option<Error>)
      modifies this
      ensures match ApplyDay(old(Book()), txs)
              case Ok(b) => error == None && Book() == b
              case Err(e) => error == Some(e) && Book() == old(Book())
    {
      var candidate := new LedgerState.Copy(this);
      error := candidate.ApplyEach(txs);
      if error == Some(ValueError) {
        var available := SameDayNetAvailable(txs);
        if available != Ok(true) { return; }
        var fallback := new LedgerState.Copy(this);
        error := fallback.ApplyEach(BuysFirst(txs));
        if error == None { Replace(fallback); }
      } else if error == None {
        Replace(candidate);
      }
    }
  }

  function Count(m: map<string, int>, code: string): int { if code in m then m[code] else 0 }

  function AddTo(m: map<string, int>, code: string, quantity: int): map<string, int> {
    m[code := Count(m, code) + quantity]
  }

  /** The running totals of one day, code by code. */
  ghost predicate Tallied(buys: map<string, int>, sells: map<string, int>, txs: seq<Transaction>) {
    && !TradeWithoutCode(txs)
    && (forall c :: Count(buys, c) == Bought(txs, c))
    && (forall c :: Count(sells, c) == Sold(txs, c))
    && (forall c :: c in sells <==> SoldOn(txs, c))
  }

  lemma TalliedMore(buys: map<string, int>, sells: map<string, int>, txs: seq<Transaction>, tx: Transaction)
    requires Tallied(buys, sells, txs) && !(Trade(tx) && tx.code.None?)
    ensures Tallied(if tx.kind.Buy? then AddTo(buys, tx.code.value, tx.quantity) else buys,
                    if tx.kind.Sell? then AddTo(sells, tx.code.value, tx.quantity) else sells, txs + [tx])
  {
    SoldOnMore(txs, tx);
    var all := txs + [tx];
    assert all[..|txs|] == txs && all[|all| - 1] == tx;
    forall c ensures Bought(all, c) == Bought(txs, c) + (if tx.kind.Buy? && tx.code == Some(c) then tx.quantity else 0)
             ensures Sold(all, c) == Sold(txs, c) + (if tx.kind.Sell? && tx.code == Some(c) then tx.quantity else 0) {}
  }

  lemma SoldOnMore(txs: seq<Transaction>, tx: Transaction)
    ensures forall c :: SoldOn(txs + [tx], c) <==> SoldOn(txs, c) || (tx.kind.Sell? && tx.code == Some(c))
    ensures TradeWithoutCode(txs + [tx]) <==> TradeWithoutCode(txs) || (Trade(tx) && tx.code.None?)
  {
    var all := txs + [tx];
    assert all[|txs|] == tx;
    forall i | 0 <= i < |txs| ensures all[i] == txs[i] {}
    forall c | SoldOn(txs, c) ensures SoldOn(all, c) {
      var i :| 0 <= i < |txs| && txs[i].kind.Sell? && txs[i].code == Some(c);
      assert all[i] == txs[i];
    }
    if TradeWithoutCode(txs) {
      var i :| 0 <= i < |txs| && Trade(txs[i]) && txs[i].code.None?;
      assert all[i] == txs[i];
    }
  }

  lemma {:induction false} ErrorsStick(b: Book, txs: seq<Transaction>, n: nat)
    requires n <= |txs| && ApplyAll(b, txs[..n]).Err?
    ensures ApplyAll(b, txs) == ApplyAll(b, txs[..n])
    decreases |txs|
  {
    if n == |txs| { assert txs[..n] == txs; }
    else {
      assert txs[..|txs| - 1][..n] == txs[..n];
      ErrorsStick(b, txs[..|txs| - 1], n);
    }
  }

  lemma {:induction false} DayErrorsStick(b: Book, days: seq<seq<Transaction>>, n: nat)
    requires n <= |days| && ApplyDays(b, days[..n]).Err?
    ensures ApplyDays(b, days) == ApplyDays(b, days[..n])
    decreases |days|
  {
    if n == |days| { assert days[..n] == days; }
    else {
      assert days[..|days| - 1][..n] == days[..n];
      DayErrorsStick(b, days[..|days| - 1], n);
    }
  }

  function Closed(days: seq<seq<Transaction>>): seq<seq<Transaction>> {
    if days == [] then [] else days[..|days| - 1]
  }

  /** Days that are closed after a prefix of the history stay as they are. */
  lemma {:induction false} ClosedDaysStay(txs: seq<Transaction>, n: nat)
    requires n <= |txs|
    ensures Closed(Days(txs[..n])) <= Closed(Days(txs))
    decreases |txs|
  {
    if n == |txs| {
      assert txs[..n] == txs;
    } else {
      var rest := txs[..|txs| - 1];
      assert rest[..n] == txs[..n];
      ClosedDaysStay(rest, n);
      AddToDaysParts(Days(rest), txs[|txs| - 1]);
    }
  }

  /** The open day of a non-empty history. */
  function Open(days: seq<seq<Transaction>>): seq<Transaction>
    requires days != []
  {
    days[|days| - 1]
  }

  /** What the next transaction does to the closed days and the open one. */
  lemma NextTransaction(txs: seq<Transaction>, n: nat)
    requires n < |txs|
    ensures Days(txs[..n + 1]) == AddToDays(Days(txs[..n]), txs[n])
    ensures var was, now := Days(txs[..n]), Days(txs[..n + 1]);
            && now != [] && Open(now) != []
            && (was != [] && Open(was) != [] ==>
                  if Open(was)[0].tradeDate == txs[n].tradeDate
                  then Closed(now) == Closed(was) && Open(now) == Open(was) + [txs[n]]
                  else Closed(now) == was && Open(now) == [txs[n]])
            && (was == [] ==> Closed(now) == [] && Open(now) == [txs[n]])
  {
    assert txs[..n + 1][..n] == txs[..n];
    AddToDaysParts(Days(txs[..n]), txs[n]);
  }

  /** `apply_transactions`: days are applied as their dates end. */
  method ApplyTransactions(txs: seq<Transaction>) returns (r: Result<Book, Error>)
    ensures r == Replay(txs)
  {
    var state := new LedgerState();
    var activeDate: Option<int> := None;
    var dayTransactions: seq<Transaction> := [];
    ghost var days: seq<seq<Transaction>> := [];
    for n := 0 to |txs|
      invariant fresh(state)
      invariant days == Days(txs[..n])
      invariant if days == [] then activeDate == None && dayTransactions == []
                else Open(days) == dayTransactions != [] && activeDate == Some(dayTransactions[0].tradeDate)
      invariant ApplyDays(EMPTY, Closed(days)) == Ok(state.Book())
    {
      var tx := txs[n];
      NextTransaction(txs, n);
      if activeDate.None? { activeDate := Some(tx.tradeDate); }
      if tx.tradeDate != activeDate.value {
        var error := state.ApplySameDay(dayTransactions);
        if error.Some? {
          FailedDayFails(txs, n + 1, error.value);
          return Err(error.value);
        }
        activeDate := Some(tx.tradeDate);
        dayTransactions := [];
      }
      dayTransactions := dayTransactions + [tx];
      days := Days(txs[..n + 1]);
    }
    assert txs[..|txs|] == txs;
    if dayTransactions != [] {
      var error := state.ApplySameDay(dayTransactions);
      if error.Some? { return Err(error.value); }
    }
    return Ok(state.Book());
  }

  /** A closed day that fails makes the whole replay fail the same way. */
  lemma FailedDayFails(txs: seq<Transaction>, n: nat, e: Error)
    requires n <= |txs| && ApplyDays(EMPTY, Closed(Days(txs[..n]))) == Err(e)
    ensures Replay(txs) == Err(e)
  {
    ClosedDaysStay(txs, n);
    var done, days := Closed(Days(txs[..n])), Days(txs);
    assert days[..|done|] == done;
    DayErrorsStick(EMPTY, days, |done|);
  }
}
