/**
The account ledger: transactions, the books they produce, and replay day by day.
Amounts are exact; a transaction either applies or raises one of two errors.
*/
module LedgerModel {
  import opened Prelude
  import opened StableSort
  import opened TextOrder

  datatype Kind = CashDeposit | CashWithdrawal | Fee | Tax | Buy | Sell | Unsupported

  datatype Transaction = Transaction(
    id: string, tradeDate: int, kind: Kind, code: Option<string>, quantity: int, price: real, amount: real, fees: real)

  datatype Book = Book(cash: real, positions: map<string, int>, costBasis: map<string, real>, realized: real)

  const EMPTY := Book(0.0, map[], map[], 0.0)

  /** Only a `ValueError` sends a day to the buy-first fallback. */
  datatype Error = ValueError | ZeroDivision

  predicate Trade(tx: Transaction) { tx.kind.Buy? || tx.kind.Sell? }

  predicate Close(a: real, b: real) {
    var scale := if a < b then b else a;
    var tolerance := if scale * 0.000000001 < 0.000001 then 0.000001 else scale * 0.000000001;
    -tolerance <= a - b <= tolerance
  }

  function Magnitude(x: real): real { if x < 0.0 then -x else x }

  predicate StockCode(s: string) {
    |s| == 6 && s[0] in {'0', '3', '4', '6', '8'} && forall i :: 0 <= i < 6 ==> '0' <= s[i] <= '9'
  }

  /** The signs and shapes validation insists on. */
  predicate Signed(tx: Transaction) {
    match tx.kind
    case Buy => tx.code.Some? && tx.quantity > 0 && tx.price > 0.0 && tx.fees >= 0.0 && tx.amount < 0.0
    case Sell => tx.code.Some? && tx.quantity > 0 && tx.price > 0.0 && tx.fees >= 0.0 && tx.amount > 0.0
    case CashDeposit => CashShape(tx) && tx.amount > 0.0
    case Unsupported => false
    case _ => CashShape(tx) && tx.amount < 0.0
  }

  /** `validate_ledger_transaction`, on typed fields. */
  predicate Validated(tx: Transaction) {
    && Signed(tx)
    && (Trade(tx) ==> StockCode(tx.code.value) && Close(Magnitude(tx.amount), tx.quantity as real * tx.price))
  }

  predicate CashShape(tx: Transaction) {
    tx.code.None? && tx.quantity == 0 && tx.price == 0.0 && tx.fees == 0.0
  }

  predicate AllSigned(txs: seq<Transaction>) { forall i :: 0 <= i < |txs| ==> Signed(txs[i]) }

  predicate AllValidated(txs: seq<Transaction>) { forall i :: 0 <= i < |txs| ==> Validated(txs[i]) }

  function Held(b: Book, code: string): int { if code in b.positions then b.positions[code] else 0 }

  function Cost(b: Book, code: string): real { if code in b.costBasis then b.costBasis[code] else 0.0 }

  /** The share of a position's cost that a sale realizes. */
  function SoldCost(cost: real, quantity: int, held: int): real
    requires held != 0
  {
    cost * (quantity as real / held as real)
  }

  /** One transaction against the books (average-cost accounting). */
  function ApplyOne(b: Book, tx: Transaction): Result<Book, Error> {
    match tx.kind
    case Buy =>
      if tx.code.None? then Err(ValueError)
      else
        var code := tx.code.value;
        Ok(b.(cash := b.cash + (tx.amount - tx.fees),
              positions := b.positions[code := Held(b, code) + tx.quantity],
              costBasis := b.costBasis[code := Cost(b, code) + Magnitude(tx.amount) + tx.fees]))
    case Sell =>
      if tx.code.None? then Err(ValueError)
      else
        var code := tx.code.value;
        var held := Held(b, code);
        if held < tx.quantity then Err(ValueError)
        else if held == 0 then Err(ZeroDivision)
        else
          var sold := SoldCost(Cost(b, code), tx.quantity, held);
          var after :=
            b.(cash := b.cash + (tx.amount - tx.fees), realized := b.realized + (tx.amount - tx.fees - sold));
          if held == tx.quantity
          then Ok(after.(positions := b.positions - {code}, costBasis := b.costBasis - {code}))
          else Ok(after.(positions := b.positions[code := held - tx.quantity],
                         costBasis := b.costBasis[code := Cost(b, code) - sold]))
    case Unsupported => Err(ValueError)
    case _ => Ok(b.(cash := b.cash + tx.amount))
  }

  /** Transactions in the given order, stopping at the first error. */
  function ApplyAll(b: Book, txs: seq<Transaction>): Result<Book, Error> {
    if txs == [] then Ok(b)
    else
      match ApplyAll(b, txs[..|txs| - 1])
      case Ok(c) => ApplyOne(c, txs[|txs| - 1])
      case Err(e) => Err(e)
  }

  function Bought(txs: seq<Transaction>, code: string): int {
    if txs == [] then 0
    else
      var tx := txs[|txs| - 1];
      Bought(txs[..|txs| - 1], code) + if tx.kind.Buy? && tx.code == Some(code) then tx.quantity else 0
  }

  function Sold(txs: seq<Transaction>, code: string): int {
    if txs == [] then 0
    else
      var tx := txs[|txs| - 1];
      Sold(txs[..|txs| - 1], code) + if tx.kind.Sell? && tx.code == Some(code) then tx.quantity else 0
  }

  predicate SoldOn(txs: seq<Transaction>, code: string) {
    exists i :: 0 <= i < |txs| && txs[i].kind.Sell? && txs[i].code == Some(code)
  }

  predicate TradeWithoutCode(txs: seq<Transaction>) {
    exists i :: 0 <= i < |txs| && Trade(txs[i]) && txs[i].code.None?
  }

  /** The day's purchases and the opening position together cover the day's sales, code by code. */
  ghost predicate NetAvailable(opening: Book, txs: seq<Transaction>) {
    forall code :: SoldOn(txs, code) ==> Held(opening, code) + Bought(txs, code) >= Sold(txs, code)
  }

  /** The fallback order: sales last, then by transaction identifier. */
  predicate Before(a: Transaction, b: Transaction) {
    if a.kind.Sell? != b.kind.Sell? then b.kind.Sell? else StrLe(a.id, b.id)
  }

  /** `sorted` with the fallback key. */
  function BuysFirst(txs: seq<Transaction>): seq<Transaction> { Sort(Before, txs) }

  /** One trading day: the given order, or buys first when that fails on availability alone. */
  ghost function ApplyDay(b: Book, txs: seq<Transaction>): Result<Book, Error> {
    match ApplyAll(b, txs)
    case Ok(c) => Ok(c)
    case Err(e) =>
      if e == ValueError && !TradeWithoutCode(txs) && NetAvailable(b, txs) then ApplyAll(b, BuysFirst(txs)) else Err(e)
  }

  /** The next transaction joins the open day if it carries its date, and otherwise opens a day. */
  function AddToDays(days: seq<seq<Transaction>>, tx: Transaction): seq<seq<Transaction>> {
    if days != [] && days[|days| - 1] != [] && days[|days| - 1][0].tradeDate == tx.tradeDate
    then days[..|days| - 1] + [days[|days| - 1] + [tx]]
    else days + [[tx]]
  }

  /** Maximal runs of one trade date, in the given order. */
  function Days(txs: seq<Transaction>): seq<seq<Transaction>> {
    if txs == [] then [] else AddToDays(Days(txs[..|txs| - 1]), txs[|txs| - 1])
  }

  ghost function ApplyDays(b: Book, days: seq<seq<Transaction>>): Result<Book, Error> {
    if days == [] then Ok(b)
    else
      match ApplyDays(b, days[..|days| - 1])
      case Ok(c) => ApplyDay(c, days[|days| - 1])
      case Err(e) => Err(e)
  }

  ghost function Replay(txs: seq<Transaction>): Result<Book, Error> {
    ApplyDays(EMPTY, Days(txs))
  }
}
