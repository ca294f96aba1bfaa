/**
 * The point-of-sale service (lib/pos-service.ts): the checkout that writes a
 * transaction, its line items and the stock decrements; the direct stock
 * update; and the row mapping of the product catalogue.
 *
 * The hosted database is an in-memory `Store` of three tables. Everything the
 * database or the auth service answers during one call -- the signed-in user,
 * the profile's full name, the id of the inserted transaction, whether each
 * line-item insert succeeded, and what the stock procedure did -- is a
 * `Backend` value given to the call, so that every failure can be injected.
 */
module PosService {
  import opened Wrappers
  import Text

  type ProductId = string
  type TransactionId = string
  type UserId = string

  /** One cart line handed to the checkout (`CartItem`). */
  datatype CartItem = CartItem(productId: ProductId, productName: string, quantity: int, unitPrice: real, subtotal: real)

  /** A row of the `transactions` table. */
  datatype TransactionRow = TransactionRow(
    id: TransactionId, userId: UserId, subtotal: real, taxAmount: real, totalAmount: real,
    paymentMethod: string, status: string, cashierName: string, receiptNumber: string, createdAt: string)

  /** A row of the `transaction_items` table. */
  datatype ItemRow = ItemRow(
    transactionId: TransactionId, productId: ProductId, productName: string,
    quantity: int, unitPrice: real, subtotal: real)

  /** The three tables the checkout writes; `stock` is `products.stock_quantity` by product id. */
  datatype Tables = Tables(transactions: seq<TransactionRow>, items: seq<ItemRow>, stock: map<ProductId, int>)

  /**
   * How a database call without a payload comes back: without error, with an
   * error in the reply, or rejected (the awaited promise throws, and the
   * surrounding `catch` takes over).
   */
  datatype Reply = Ok | ErrorReply | Rejected

  /** How an auth or database call with a payload comes back: its answer, or rejected. */
  datatype Call<T> = Answered(value: T) | Threw

  /** What the `decrement_product_stock` procedure call answers. */
  datatype RpcOutcome =
    | RpcDone(stockAfter: int)                 // the procedure ran; its body is not visible, so the stock it leaves is given
    | RpcMissing(readOk: bool, writeOk: bool)  // error code PGRST205: the read-then-write fallback runs
    | RpcFailed                                // any other error: logged and ignored
    | RpcThrew                                 // the call, or the fallback's read or write, was rejected; nothing is written

  /** What the backend answers for one cart line: the line-item insert, then the stock update. */
  datatype LineOutcome = LineOutcome(insert: Reply, rpc: RpcOutcome)

  /** A line lets the loop go on: its insert had no error and its stock update was not rejected. */
  predicate LineCompletes(o: LineOutcome) {
    o.insert == Ok && !o.rpc.RpcThrew?
  }

  /** Everything the auth service and the database answer during one checkout. */
  datatype Backend = Backend(
    user: Call<Option<UserId>>, profileFullName: Call<Option<string>>,
    insertedTransactionId: Call<Option<TransactionId>>, lines: seq<LineOutcome>)

  /** `Date.now()`, `new Date().toISOString()` and the random receipt suffix. */
  datatype Clock = Clock(nowMillis: nat, nowIso: string, randomSuffix: string)

  datatype CheckoutResult =
    | Completed(transaction: TransactionRow, receiptNumber: string)
    | Failed(error: string)

  datatype CheckoutRun = CheckoutRun(tables: Tables, result: CheckoutResult)

  const NotAuthenticated := "User not authenticated"
  const TransactionFailed := "Failed to create transaction"
  const ItemsFailed := "Failed to save transaction items"
  const Unexpected := "An unexpected error occurred"

  /** `profile?.full_name || "Unknown"`: a missing or empty name falls back to "Unknown". */
  function CashierName(fullName: Option<string>): (r: string)
    ensures r != ""
    ensures fullName.Some? && fullName.value != "" ==> r == fullName.value
    ensures fullName.None? || fullName.value == "" ==> r == "Unknown"
  {
    if fullName.Some? && fullName.value != "" then fullName.value else "Unknown"
  }

  /** `RCP-<millis>-<suffix>`. */
  function ReceiptNumber(millis: nat, suffix: string): string {
    "RCP-" + Text.NatToString(millis) + "-" + suffix
  }

  /** The receipt number starts with `RCP-`, then the decimal clock reading, then `-` and the suffix. */
  lemma ReceiptNumberShape(millis: nat, suffix: string)
    ensures Text.StartsWith(ReceiptNumber(millis, suffix), "RCP-")
    ensures var r := ReceiptNumber(millis, suffix);
      var n := |Text.NatToString(millis)|;
      |r| == 5 + n + |suffix|
      && (forall i :: 4 <= i < 4 + n ==> Text.IsDigit(r[i]))
      && r[4 + n] == '-' && r[5 + n..] == suffix
  {
    var r := ReceiptNumber(millis, suffix);
    var digits := Text.NatToString(millis);
    assert r == "RCP-" + digits + "-" + suffix;
    forall i | 4 <= i < 4 + |digits| ensures Text.IsDigit(r[i]) {
      assert r[i] == digits[i - 4];
    }
  }

  /** `Math.max(0, stock - quantity)`. */
  function FloorDecrement(stock: int, quantity: int): int {
    if stock - quantity > 0 then stock - quantity else 0
  }

  /** The floored decrement is never negative, and is the exact difference whenever the stock covers the quantity. */
  lemma FloorDecrementBounds(stock: int, quantity: int)
    ensures FloorDecrement(stock, quantity) >= 0
    ensures stock >= quantity ==> FloorDecrement(stock, quantity) == stock - quantity
    ensures stock < quantity ==> FloorDecrement(stock, quantity) == 0
    ensures quantity >= 0 && stock >= 0 ==> FloorDecrement(stock, quantity) <= stock
  {
  }

  /** The line-item row written for a cart line. */
  function LineRow(transactionId: TransactionId, item: CartItem): ItemRow {
    ItemRow(transactionId, item.productId, item.productName, item.quantity, item.unitPrice, item.subtotal)
  }

  function LineRows(transactionId: TransactionId, cart: seq<CartItem>): (r: seq<ItemRow>)
    ensures |r| == |cart|
    ensures forall i :: 0 <= i < |cart| ==> r[i] == LineRow(transactionId, cart[i])
  {
    seq(|cart|, i requires 0 <= i < |cart| => LineRow(transactionId, cart[i]))
  }

  /** The stock table after the stock update of one inserted line. */
  function StockAfterLine(stock: map<ProductId, int>, item: CartItem, rpc: RpcOutcome): map<ProductId, int> {
    var id := item.productId;
    match rpc
    case RpcDone(after) => if id in stock then stock[id := after] else stock
    case RpcMissing(readOk, writeOk) =>
      if readOk && writeOk && id in stock then stock[id := FloorDecrement(stock[id], item.quantity)] else stock
    case RpcFailed => stock
    case RpcThrew => stock
  }

  /** The stock update touches no product but the line's own. */
  lemma StockAfterLineFrame(stock: map<ProductId, int>, item: CartItem, rpc: RpcOutcome)
    ensures StockAfterLine(stock, item, rpc).Keys == stock.Keys
    ensures forall id :: id in stock && id != item.productId ==> StockAfterLine(stock, item, rpc)[id] == stock[id]
  {
  }

  /** The fallback write stores the floored decrement, which is never negative. */
  lemma FallbackWrite(stock: map<ProductId, int>, item: CartItem)
    requires item.productId in stock
    ensures var s := StockAfterLine(stock, item, RpcMissing(true, true))[item.productId];
      s == FloorDecrement(stock[item.productId], item.quantity) && s >= 0
      && (stock[item.productId] >= item.quantity ==> s == stock[item.productId] - item.quantity)
  {
  }

  /** Inserting one line and updating its product's stock. */
  function ApplyLine(t: Tables, transactionId: TransactionId, item: CartItem, rpc: RpcOutcome): Tables {
    Tables(t.transactions, t.items + [LineRow(transactionId, item)], StockAfterLine(t.stock, item, rpc))
  }

  /** How the loop over the cart ends: after the last line, or stopped at line `index` by an error or a rejected call. */
  datatype LinesRun = AllSaved(tables: Tables) | StoppedAt(tables: Tables, index: nat, thrown: bool)

  /**
   * One pass of the loop, for line `index`: an insert error returns, a
   * rejected insert throws, and otherwise the row is written and the stock
   * updated, unless the stock update itself is rejected.
   */
  function LineStep(t: Tables, transactionId: TransactionId, item: CartItem, o: LineOutcome, index: nat): LinesRun {
    match o.insert
    case Rejected => StoppedAt(t, index, true)
    case ErrorReply => StoppedAt(t, index, false)
    case Ok =>
      var t' := ApplyLine(t, transactionId, item, o.rpc);
      if o.rpc.RpcThrew? then StoppedAt(t', index, true) else AllSaved(t')
  }

  /**
   * The `for` loop over the cart lines, in order: each line-item insert is
   * followed by its stock update; the first line that does not complete
   * stops the loop and leaves everything written so far in place.
   */
  function RunLines(t: Tables, transactionId: TransactionId, cart: seq<CartItem>, outcomes: seq<LineOutcome>): LinesRun
    requires |outcomes| == |cart|
    decreases |cart|
  {
    if cart == [] then AllSaved(t)
    else
      var n := |cart| - 1;
      match RunLines(t, transactionId, cart[..n], outcomes[..n])
      case StoppedAt(t', i, thrown) => StoppedAt(t', i, thrown)
      case AllSaved(t') => LineStep(t', transactionId, cart[n], outcomes[n], n)
  }

  /** The stock table after the stock updates of every line of `cart`, in order. */
  function StockAfterLines(stock: map<ProductId, int>, cart: seq<CartItem>, outcomes: seq<LineOutcome>): map<ProductId, int>
    requires |outcomes| == |cart|
    decreases |cart|
  {
    if cart == [] then stock
    else
      var n := |cart| - 1;
      StockAfterLine(StockAfterLines(stock, cart[..n], outcomes[..n]), cart[n], outcomes[n].rpc)
  }

  /** The auth check, the profile lookup and the transaction insert all answered, with a user and a transaction. */
  predicate ReachesLoop(backend: Backend) {
    && backend.user.Answered? && backend.user.value.Some?
    && backend.profileFullName.Answered?
    && backend.insertedTransactionId.Answered? && backend.insertedTransactionId.value.Some?
  }

  /** A call before the loop is rejected before any of them returns an error. */
  predicate RejectedBeforeLoop(backend: Backend) {
    || backend.user.Threw?
    || (backend.user.value.Some? && backend.profileFullName.Threw?)
    || (backend.user.value.Some? && backend.insertedTransactionId.Threw?)
  }

  /** The transaction row a checkout that reaches the loop writes. */
  function CheckoutTx(backend: Backend, subtotal: real, taxAmount: real, totalAmount: real, paymentMethod: string,
                      clock: Clock): TransactionRow
    requires ReachesLoop(backend)
  {
    TransactionRow(backend.insertedTransactionId.value.value, backend.user.value.value, subtotal, taxAmount,
                   totalAmount, paymentMethod, "completed", CashierName(backend.profileFullName.value),
                   ReceiptNumber(clock.nowMillis, clock.randomSuffix), clock.nowIso)
  }

  /**
   * `createTransaction`: one sale, from the auth check to the last stock
   * update; a rejected call anywhere ends it in the `catch`.
   */
  function Checkout(t: Tables, cart: seq<CartItem>, paymentMethod: string, subtotal: real, taxAmount: real,
                    totalAmount: real, backend: Backend, clock: Clock): CheckoutRun
    requires |backend.lines| == |cart|
  {
    if backend.user.Threw? then CheckoutRun(t, Failed(Unexpected))
    else if backend.user.value.None? then CheckoutRun(t, Failed(NotAuthenticated))
    else if backend.profileFullName.Threw? || backend.insertedTransactionId.Threw? then CheckoutRun(t, Failed(Unexpected))
    else if backend.insertedTransactionId.value.None? then CheckoutRun(t, Failed(TransactionFailed))
    else
      var tx := CheckoutTx(backend, subtotal, taxAmount, totalAmount, paymentMethod, clock);
      var t1 := Tables(t.transactions + [tx], t.items, t.stock);
      match RunLines(t1, tx.id, cart, backend.lines)
      case AllSaved(t2) => CheckoutRun(t2, Completed(tx, tx.receiptNumber))
      case StoppedAt(t2, _, thrown) => CheckoutRun(t2, Failed(if thrown then Unexpected else ItemsFailed))
  }

  /** The loop runs to the end exactly when every line completes; it then adds one row per line and applies every stock update. */
  lemma {:induction false} RunLinesAllSaved(t: Tables, transactionId: TransactionId, cart: seq<CartItem>, outcomes: seq<LineOutcome>)
    requires |outcomes| == |cart|
    ensures RunLines(t, transactionId, cart, outcomes).AllSaved?
        <==> forall i :: 0 <= i < |cart| ==> LineCompletes(outcomes[i])
    ensures RunLines(t, transactionId, cart, outcomes).AllSaved? ==>
        RunLines(t, transactionId, cart, outcomes).tables
          == Tables(t.transactions, t.items + LineRows(transactionId, cart), StockAfterLines(t.stock, cart, outcomes))
    decreases |cart|
  {
    if cart != [] {
      var n := |cart| - 1;
      RunLinesAllSaved(t, transactionId, cart[..n], outcomes[..n]);
      var prefix := RunLines(t, transactionId, cart[..n], outcomes[..n]);
      if prefix.AllSaved? && LineCompletes(outcomes[n]) {
        assert LineRows(transactionId, cart) == LineRows(transactionId, cart[..n]) + [LineRow(transactionId, cart[n])];
        assert t.items + LineRows(transactionId, cart)
            == (t.items + LineRows(transactionId, cart[..n])) + [LineRow(transactionId, cart[n])];
      }
      if !prefix.AllSaved? {
        var j :| 0 <= j < n && !LineCompletes(outcomes[..n][j]);
        assert !LineCompletes(outcomes[j]);
      }
    }
  }

  /**
   * When the loop stops at line `i`, line `i` is the first line that does not
   * complete, and the stop is a throw unless its insert returned an error.
   * The rows and stock updates of lines `0..i-1` stay; line `i`'s row stays
   * too when its insert went through and only its stock update was rejected;
   * nothing of the later lines is written.
   */
  lemma {:induction false} RunLinesStopped(t: Tables, transactionId: TransactionId, cart: seq<CartItem>, outcomes: seq<LineOutcome>)
    requires |outcomes| == |cart|
    requires RunLines(t, transactionId, cart, outcomes).StoppedAt?
    ensures var run := RunLines(t, transactionId, cart, outcomes);
      var i := run.index;
      i < |cart| && !LineCompletes(outcomes[i])
      && (forall j :: 0 <= j < i ==> LineCompletes(outcomes[j]))
      && (run.thrown <==> outcomes[i].insert != ErrorReply)
      && run.tables == Tables(t.transactions,
                              t.items + LineRows(transactionId, cart[..RowsKept(outcomes[i], i)]),
                              StockAfterLines(t.stock, cart[..i], outcomes[..i]))
    decreases |cart|
  {
    var n := |cart| - 1;
    var prefix := RunLines(t, transactionId, cart[..n], outcomes[..n]);
    if prefix.StoppedAt? {
      RunLinesStopped(t, transactionId, cart[..n], outcomes[..n]);
      var i := prefix.index;
      assert cart[..n][..i] == cart[..i] && cart[..n][..i + 1] == cart[..i + 1];
      assert outcomes[..n][..i] == outcomes[..i];
      assert forall j :: 0 <= j <= i ==> outcomes[..n][j] == outcomes[j];
    } else {
      RunLinesAllSaved(t, transactionId, cart[..n], outcomes[..n]);
      assert forall j :: 0 <= j < n ==> outcomes[..n][j] == outcomes[j];
      assert cart[..n + 1] == cart;
      assert LineRows(transactionId, cart) == LineRows(transactionId, cart[..n]) + [LineRow(transactionId, cart[n])];
      assert t.items + LineRows(transactionId, cart)
          == (t.items + LineRows(transactionId, cart[..n])) + [LineRow(transactionId, cart[n])];
    }
  }

  /** How many cart lines have their row written when the loop stops at line `i`: line `i` too when its insert went through. */
  function RowsKept(o: LineOutcome, i: nat): (n: nat)
    ensures n == i || (n == i + 1 && o.insert == Ok)
    ensures o.insert == Ok ==> n == i + 1
  {
    if o.insert == Ok then i + 1 else i
  }

  /** The stock of a product that no line of `cart` names is left alone. */
  lemma {:induction false} StockAfterLinesFrame(stock: map<ProductId, int>, cart: seq<CartItem>, outcomes: seq<LineOutcome>, id: ProductId)
    requires |outcomes| == |cart|
    requires forall j :: 0 <= j < |cart| ==> cart[j].productId != id
    ensures StockAfterLines(stock, cart, outcomes).Keys == stock.Keys
    ensures id in stock ==> StockAfterLines(stock, cart, outcomes)[id] == stock[id]
    decreases |cart|
  {
    if cart != [] {
      var n := |cart| - 1;
      StockAfterLinesFrame(stock, cart[..n], outcomes[..n], id);
      StockAfterLineFrame(StockAfterLines(stock, cart[..n], outcomes[..n]), cart[n], outcomes[n].rpc);
    }
  }

  /** With no signed-in user the checkout fails with "User not authenticated" and writes nothing. */
  lemma CheckoutWithoutUser(t: Tables, cart: seq<CartItem>, paymentMethod: string, subtotal: real, taxAmount: real,
                            totalAmount: real, backend: Backend, clock: Clock)
    requires |backend.lines| == |cart| && backend.user == Answered(None)
    ensures Checkout(t, cart, paymentMethod, subtotal, taxAmount, totalAmount, backend, clock)
         == CheckoutRun(t, Failed(NotAuthenticated))
  {
  }

  /** A transaction insert that answers with an error fails the checkout before any line item or stock change. */
  lemma CheckoutTransactionInsertFails(t: Tables, cart: seq<CartItem>, paymentMethod: string, subtotal: real, taxAmount: real,
                                       totalAmount: real, backend: Backend, clock: Clock)
    requires |backend.lines| == |cart| && backend.user.Answered? && backend.user.value.Some?
    requires backend.profileFullName.Answered? && backend.insertedTransactionId == Answered(None)
    ensures Checkout(t, cart, paymentMethod, subtotal, taxAmount, totalAmount, backend, clock)
         == CheckoutRun(t, Failed(TransactionFailed))
  {
  }

  /**
   * A rejected auth check, profile lookup or transaction insert, reached
   * before any error answer, ends the checkout in the `catch` with "An
   * unexpected error occurred", and nothing is written.
   */
  lemma CheckoutRejectedBeforeLoop(t: Tables, cart: seq<CartItem>, paymentMethod: string, subtotal: real, taxAmount: real,
                                   totalAmount: real, backend: Backend, clock: Clock)
    requires |backend.lines| == |cart| && RejectedBeforeLoop(backend)
    ensures Checkout(t, cart, paymentMethod, subtotal, taxAmount, totalAmount, backend, clock)
         == CheckoutRun(t, Failed(Unexpected))
  {
  }

  /**
   * The checkout completes exactly when the auth check, the profile lookup
   * and the transaction insert answer with a user and a transaction, and
   * every line-item insert answers without error and no stock update is
   * rejected: an error answer from the stock procedure or the fallback never
   * decides the outcome.
   */
  lemma CheckoutSucceedsIff(t: Tables, cart: seq<CartItem>, paymentMethod: string, subtotal: real, taxAmount: real,
                            totalAmount: real, backend: Backend, clock: Clock)
    requires |backend.lines| == |cart|
    ensures Checkout(t, cart, paymentMethod, subtotal, taxAmount, totalAmount, backend, clock).result.Completed?
        <==> ReachesLoop(backend) && forall i :: 0 <= i < |cart| ==> LineCompletes(backend.lines[i])
  {
    if ReachesLoop(backend) {
      var t1 := Tables(t.transactions + [CheckoutTx(backend, subtotal, taxAmount, totalAmount, paymentMethod, clock)], t.items, t.stock);
      RunLinesAllSaved(t1, backend.insertedTransactionId.value.value, cart, backend.lines);
    }
  }

  /**
   * A completed checkout adds exactly one transaction, with status
   * "completed", the caller's amounts and payment method and the cashier
   * name; one line item per cart line, in cart order, copying the line; and
   * applies every line's stock update.
   */
  lemma CheckoutCompleted(t: Tables, cart: seq<CartItem>, paymentMethod: string, subtotal: real, taxAmount: real,
                          totalAmount: real, backend: Backend, clock: Clock)
    requires |backend.lines| == |cart|
    requires Checkout(t, cart, paymentMethod, subtotal, taxAmount, totalAmount, backend, clock).result.Completed?
    ensures var run := Checkout(t, cart, paymentMethod, subtotal, taxAmount, totalAmount, backend, clock);
      var tx := run.result.transaction;
      ReachesLoop(backend)
      && run.tables.transactions == t.transactions + [tx]
      && tx.id == backend.insertedTransactionId.value.value && tx.userId == backend.user.value.value
      && tx.status == "completed" && tx.paymentMethod == paymentMethod
      && tx.subtotal == subtotal && tx.taxAmount == taxAmount && tx.totalAmount == totalAmount
      && tx.cashierName == CashierName(backend.profileFullName.value)
      && run.result.receiptNumber == tx.receiptNumber == ReceiptNumber(clock.nowMillis, clock.randomSuffix)
      && |run.tables.items| == |t.items| + |cart|
      && run.tables.items[..|t.items|] == t.items
      && (forall i :: 0 <= i < |cart| ==>
            run.tables.items[|t.items| + i] == ItemRow(tx.id, cart[i].productId, cart[i].productName,
                                                       cart[i].quantity, cart[i].unitPrice, cart[i].subtotal))
      && run.tables.stock == StockAfterLines(t.stock, cart, backend.lines)
  {
    var tx := CheckoutTx(backend, subtotal, taxAmount, totalAmount, paymentMethod, clock);
    var t1 := Tables(t.transactions + [tx], t.items, t.stock);
    RunLinesAllSaved(t1, tx.id, cart, backend.lines);
  }

  /**
   * A checkout that reaches the loop but does not complete stops at the
   * first line `i` that does not complete. It returns "Failed to save
   * transaction items" when that line's insert answered with an error and
   * "An unexpected error occurred" when a call was rejected. Either way it
   * keeps the transaction row, the line items of lines `0..i-1` and their
   * stock updates, and line `i`'s row when only its stock update was
   * rejected: there is no compensation.
   */
  lemma CheckoutStopsInLoop(t: Tables, cart: seq<CartItem>, paymentMethod: string, subtotal: real, taxAmount: real,
                            totalAmount: real, backend: Backend, clock: Clock)
    requires |backend.lines| == |cart| && ReachesLoop(backend)
    requires !Checkout(t, cart, paymentMethod, subtotal, taxAmount, totalAmount, backend, clock).result.Completed?
    ensures var run := Checkout(t, cart, paymentMethod, subtotal, taxAmount, totalAmount, backend, clock);
      var tx := CheckoutTx(backend, subtotal, taxAmount, totalAmount, paymentMethod, clock);
      exists i :: 0 <= i < |cart| && !LineCompletes(backend.lines[i])
           && (forall j :: 0 <= j < i ==> LineCompletes(backend.lines[j]))
           && run.result == Failed(if backend.lines[i].insert == ErrorReply then ItemsFailed else Unexpected)
           && run.tables == Tables(t.transactions + [tx],
                                   t.items + LineRows(tx.id, cart[..RowsKept(backend.lines[i], i)]),
                                   StockAfterLines(t.stock, cart[..i], backend.lines[..i]))
  {
    var tx := CheckoutTx(backend, subtotal, taxAmount, totalAmount, paymentMethod, clock);
    var t1 := Tables(t.transactions + [tx], t.items, t.stock);
    var lines := RunLines(t1, tx.id, cart, backend.lines);
    RunLinesStopped(t1, tx.id, cart, backend.lines);
    var i := lines.index;
    assert 0 <= i < |cart| && !LineCompletes(backend.lines[i]);
  }

  /** The in-memory database the service talks to. */
  class Store {
    var transactions: seq<TransactionRow>
    var items: seq<ItemRow>
    var stock: map<ProductId, int>

    function State(): Tables
      reads this
    {
      Tables(transactions, items, stock)
    }

    constructor (initialStock: map<ProductId, int>)
      ensures State() == Tables([], [], initialStock)
    {
      transactions := [];
      items := [];
      stock := initialStock;
    }

    /** `createTransaction`. */
    method CreateTransaction(cart: seq<CartItem>, paymentMethod: string, subtotal: real, taxAmount: real,
                             totalAmount: real, backend: Backend, clock: Clock) returns (result: CheckoutResult)
      requires |backend.lines| == |cart|
      modifies this
      ensures CheckoutRun(State(), result)
           == Checkout(old(State()), cart, paymentMethod, subtotal, taxAmount, totalAmount, backend, clock)
    {
      if backend.user.Threw? {
        return Failed(Unexpected);
      }
      if backend.user.value.None? {
        return Failed(NotAuthenticated);
      }
      if backend.profileFullName.Threw? {
        return Failed(Unexpected);
      }
      var cashierName := CashierName(backend.profileFullName.value);
      var receiptNumber := ReceiptNumber(clock.nowMillis, clock.randomSuffix);
      if backend.insertedTransactionId.Threw? {
        return Failed(Unexpected);
      }
      if backend.insertedTransactionId.value.None? {
        return Failed(TransactionFailed);
      }
      var tx := TransactionRow(backend.insertedTransactionId.value.value, backend.user.value.value, subtotal, taxAmount,
                               totalAmount, paymentMethod, "completed", cashierName, receiptNumber, clock.nowIso);
      transactions := transactions + [tx];
      ghost var afterInsert := State();
      var i := 0;
      while i < |cart|
        invariant 0 <= i <= |cart|
        invariant RunLines(afterInsert, tx.id, cart[..i], backend.lines[..i]) == AllSaved(State())
      {
        var item := cart[i];
        var outcome := backend.lines[i];
        assert cart[..i + 1][..i] == cart[..i] && backend.lines[..i + 1][..i] == backend.lines[..i];
        assert cart[..i + 1] == cart[..i] + [item];
        if outcome.insert != Ok {
          RunLinesStopPrefix(afterInsert, tx.id, cart, backend.lines, i);
          return Failed(if outcome.insert == Rejected then Unexpected else ItemsFailed);
        }
        SaveLine(tx.id, item, outcome.rpc);
        if outcome.rpc.RpcThrew? {
          RunLinesStopPrefix(afterInsert, tx.id, cart, backend.lines, i);
          return Failed(Unexpected);
        }
        i := i + 1;
      }
      assert cart[..i] == cart && backend.lines[..i] == backend.lines;
      return Completed(tx, receiptNumber);
    }

    /** One pass of the loop over the cart: the line-item insert, then the product's stock update. */
    method SaveLine(transactionId: TransactionId, item: CartItem, rpc: RpcOutcome)
      modifies this
      ensures State() == ApplyLine(old(State()), transactionId, item, rpc)
    {
      items := items + [LineRow(transactionId, item)];
      match rpc {
        case RpcDone(after) =>
          if item.productId in stock {
            stock := stock[item.productId := after];
          }
        case RpcMissing(readOk, writeOk) =>
          if readOk && item.productId in stock {
            var current := stock[item.productId];
            if writeOk {
              stock := stock[item.productId := FloorDecrement(current, item.quantity)];
            }
          }
        case RpcFailed =>
        case RpcThrew =>
      }
    }

    /**
     * `updateProductStock`: read the stock, write the floored decrement,
     * report it; a rejected read or write ends in the `catch`.
     */
    method UpdateProductStock(productId: ProductId, quantity: int, read: Reply, write: Reply) returns (r: StockUpdate)
      modifies this
      ensures transactions == old(transactions) && items == old(items)
      ensures read == Rejected ==> r == StockNotUpdated(Unexpected) && stock == old(stock)
      ensures read != Rejected && (read == ErrorReply || productId !in old(stock)) ==>
                r == StockNotUpdated("Product not found") && stock == old(stock)
      ensures read == Ok && productId in old(stock) && write == Rejected ==>
                r == StockNotUpdated(Unexpected) && stock == old(stock)
      ensures read == Ok && productId in old(stock) && write == ErrorReply ==>
                r == StockNotUpdated("Failed to update stock") && stock == old(stock)
      ensures read == Ok && productId in old(stock) && write == Ok ==>
                var n := FloorDecrement(old(stock)[productId], quantity);
                r == StockUpdated(n) && stock == old(stock)[productId := n]
    {
      if read == Rejected {
        return StockNotUpdated(Unexpected);
      }
      if read == ErrorReply || productId !in stock {
        return StockNotUpdated("Product not found");
      }
      var newStock := FloorDecrement(stock[productId], quantity);
      if write == Rejected {
        return StockNotUpdated(Unexpected);
      }
      if write == ErrorReply {
        return StockNotUpdated("Failed to update stock");
      }
      stock := stock[productId := newStock];
      return StockUpdated(newStock);
    }
  }

  /** Once a prefix ran to its end and the next line does not complete, the whole loop ends with that line's step. */
  lemma RunLinesStopPrefix(t: Tables, transactionId: TransactionId, cart: seq<CartItem>, outcomes: seq<LineOutcome>, i: nat)
    requires |outcomes| == |cart| && i < |cart|
    requires RunLines(t, transactionId, cart[..i], outcomes[..i]).AllSaved?
    requires !LineCompletes(outcomes[i])
    ensures RunLines(t, transactionId, cart, outcomes)
         == LineStep(RunLines(t, transactionId, cart[..i], outcomes[..i]).tables, transactionId, cart[i], outcomes[i], i)
    ensures RunLines(t, transactionId, cart, outcomes).StoppedAt?
    decreases |cart|
  {
    var n := |cart| - 1;
    assert cart[..n][..i] == cart[..i] && outcomes[..n][..i] == outcomes[..i];
    if i < n {
      RunLinesStopPrefix(t, transactionId, cart[..n], outcomes[..n], i);
      assert cart[..n][i] == cart[i] && outcomes[..n][i] == outcomes[i];
    } else {
      assert cart[..n] == cart[..i] && outcomes[..n] == outcomes[..i];
    }
  }

  datatype StockUpdate = StockUpdated(newStock: int) | StockNotUpdated(error: string)

  /** A row of the products query, with the joined category name (`categories?.name`). */
  datatype ProductRow = ProductRow(
    id: ProductId, name: string, price: real, categoryId: string, stockQuantity: int,
    icon: Option<string>, sku: string, isActive: bool, joinedCategoryName: Option<string>)

  /** A catalogue product as `fetchProducts` returns it. */
  datatype Product = Product(
    id: ProductId, name: string, price: real, categoryId: string, stockQuantity: int,
    icon: Option<string>, sku: string, isActive: bool, categoryName: string)

  /** `product.categories?.name || "Uncategorized"`. */
  function CategoryName(joined: Option<string>): (r: string)
    ensures r != ""
    ensures joined.Some? && joined.value != "" ==> r == joined.value
    ensures joined.None? || joined.value == "" ==> r == "Uncategorized"
  {
    if joined.Some? && joined.value != "" then joined.value else "Uncategorized"
  }

  function ToProduct(row: ProductRow): Product {
    Product(row.id, row.name, row.price, row.categoryId, row.stockQuantity, row.icon, row.sku, row.isActive,
            CategoryName(row.joinedCategoryName))
  }

  /**
   * `fetchProducts` after the query: an error or no data gives `[]`;
   * otherwise every row is mapped, in order, with the category-name fallback.
   */
  function FetchProducts(queried: Option<seq<ProductRow>>): (ps: seq<Product>)
    ensures queried.None? ==> ps == []
    ensures queried.Some? ==> |ps| == |queried.value|
    ensures queried.Some? ==> forall i :: 0 <= i < |ps| ==>
      var row := queried.value[i];
      ps[i].id == row.id && ps[i].name == row.name && ps[i].price == row.price
      && ps[i].categoryId == row.categoryId && ps[i].stockQuantity == row.stockQuantity
      && ps[i].icon == row.icon && ps[i].sku == row.sku && ps[i].isActive == row.isActive
      && ps[i].categoryName != "" && ps[i].categoryName == CategoryName(row.joinedCategoryName)
  {
    match queried
    case None => []
    case Some(rows) => seq(|rows|, i requires 0 <= i < |rows| => ToProduct(rows[i]))
  }
}
