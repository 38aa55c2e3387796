/**
 * The bookkeeping of Purchase/PurchaseManager.swift: the fixed product
 * identifiers, the product cache, the single outstanding products request
 * with its callback slot, and the dispatch of payment transactions to
 * notifications and `finishTransaction` calls.
 *
 * Everything the manager does towards StoreKit, towards the callback it
 * was given and towards the notification center is recorded, in order, as
 * an `Effect` in one log.
 */
module Purchase {
  import opened Optional

  type ProductIdentifier = string

  /** A product StoreKit returned; only its identifier is used by the manager. */
  datatype Product = Product(productIdentifier: ProductIdentifier, localizedTitle: string, price: real)

  datatype TransactionState = StatePurchasing | StatePurchased | StateFailed | StateRestored | StateDeferred

  datatype TransactionError = TransactionError(code: int, localizedDescription: string)

  datatype Transaction = Transaction(
    transactionIdentifier: Option<string>,
    transactionState: TransactionState,
    error: Option<TransactionError>)

  /** The statuses a purchase notification can carry (`accrued` is only used by code that is commented out). */
  datatype PurchaseStatus = Purchasing | Purchased | Accrued | Deferred | Restored | Failed

  /** A `.purchaseStatus` notification: its `userInfo` holds exactly these two entries. */
  datatype PurchaseNotification = PurchaseNotification(identifier: Option<string>, status: PurchaseStatus)

  /** A products request object, told apart by identity. */
  type RequestId = nat

  /** A completion handler passed to `requestProducts`, told apart by identity. */
  type CallbackId = nat

  datatype Effect =
    | RequestCancelled(request: RequestId)
    | RequestStarted(request: RequestId, identifiers: set<ProductIdentifier>)
    | CallbackInvoked(callback: CallbackId, success: bool, products: Option<seq<Product>>)
    | PaymentAdded(product: Product)
    | RestoreRequested
    | TransactionFinished(transaction: Transaction)
    | Posted(notification: PurchaseNotification)

  /** `SKError.paymentCancelled.rawValue`. */
  const PaymentCancelled: int := 2

  // ---------------------------------------------------------------------
  // Product identifiers

  const Durations: seq<string> := ["7", "30", "90", "180", "365", "730"]

  /** The identifier of plan `i`: single plans first, then double, each by duration. */
  function PlanIdentifier(i: nat): string
    requires i < 12
  {
    (if i < 6 then "single" else "double") + "." + Durations[i % 6]
  }

  function GetProductIdentifiers(): seq<ProductIdentifier>
  {
    [ "single.7", "single.30", "single.90", "single.180", "single.365", "single.730",
      "double.7", "double.30", "double.90", "double.180", "double.365", "double.730" ]
  }

  /** The identifiers are exactly the twelve plans: single and double, each for six durations, no repeats. */
  lemma ProductIdentifiersAreTheTwelvePlans()
    ensures |GetProductIdentifiers()| == 12
    ensures forall i :: 0 <= i < 12 ==> GetProductIdentifiers()[i] == PlanIdentifier(i)
    ensures forall i, j :: 0 <= i < j < 12 ==> GetProductIdentifiers()[i] != GetProductIdentifiers()[j]
  {
    var ids := GetProductIdentifiers();
    forall i | 0 <= i < 12 ensures ids[i] == PlanIdentifier(i) {
    }
    forall i, j | 0 <= i < j < 12 ensures ids[i] != ids[j] {
      if |ids[i]| == |ids[j]| {
        assert ids[i][0] != ids[j][0] || ids[i][7..] != ids[j][7..];
      }
    }
  }

  // ---------------------------------------------------------------------
  // The product cache

  /** The cache after `products[p.productIdentifier] = p` for each `p` of `ps`, in order. */
  function InsertAll(m: map<ProductIdentifier, Product>, ps: seq<Product>): map<ProductIdentifier, Product>
  {
    if ps == [] then m
    else InsertAll(m, ps[..|ps| - 1])[ps[|ps| - 1].productIdentifier := ps[|ps| - 1]]
  }

  predicate Returned(ps: seq<Product>, id: ProductIdentifier)
  {
    exists k :: 0 <= k < |ps| && ps[k].productIdentifier == id
  }

  /**
   * After the insertions, every returned product's identifier is cached
   * with the LAST returned product of that identifier, and every other
   * entry is the one that was there before.
   */
  lemma {:induction false} InsertAllContents(m: map<ProductIdentifier, Product>, ps: seq<Product>, id: ProductIdentifier)
    ensures var r := InsertAll(m, ps);
      && (Returned(ps, id) ==>
            id in r
            && exists k :: 0 <= k < |ps| && r[id] == ps[k] && ps[k].productIdentifier == id
                           && forall j :: k < j < |ps| ==> ps[j].productIdentifier != id)
      && (!Returned(ps, id) ==> (id in r <==> id in m) && (id in m ==> r[id] == m[id]))
  {
    if ps != [] {
      var init := ps[..|ps| - 1];
      var last := ps[|ps| - 1];
      InsertAllContents(m, init, id);
      if last.productIdentifier != id {
        if Returned(ps, id) {
          var k :| 0 <= k < |ps| && ps[k].productIdentifier == id;
          assert init[k] == ps[k];
        } else {
          forall k | 0 <= k < |init| ensures init[k].productIdentifier != id {
            assert init[k] == ps[k];
          }
        }
      } else {
        assert ps[|ps| - 1] == last;
      }
    }
  }

  /** Every returned product is cached under its own identifier. */
  lemma InsertAllCachesEveryReturnedId(m: map<ProductIdentifier, Product>, ps: seq<Product>)
    ensures forall k :: 0 <= k < |ps| ==> ps[k].productIdentifier in InsertAll(m, ps)
  {
    forall k | 0 <= k < |ps| ensures ps[k].productIdentifier in InsertAll(m, ps) {
      InsertAllContents(m, ps, ps[k].productIdentifier);
    }
  }

  // ---------------------------------------------------------------------
  // Transactions

  /** The notification status for each transaction state. */
  function StatusOf(state: TransactionState): PurchaseStatus
  {
    match state
    case StatePurchased => Purchased
    case StateFailed => Failed
    case StateRestored => Restored
    case StateDeferred => Deferred
    case StatePurchasing => Purchasing
  }

  function NotificationFor(t: Transaction, status: PurchaseStatus): PurchaseNotification
  {
    PurchaseNotification(t.transactionIdentifier, status)
  }

  /**
   * The parameters `fail` computes: the error's description unless the user
   * cancelled. They are handed to `postPurchaseNotification`, which ignores them.
   */
  function FailParams(t: Transaction): (params: map<string, string>)
    ensures "error" in params <==> t.error.Some? && t.error.value.code != PaymentCancelled
    ensures params.Keys <= {"error"}
  {
    if t.error.Some? && t.error.value.code != PaymentCancelled then map["error" := t.error.value.localizedDescription]
    else map[]
  }

  /** What handling one transaction does, by state. */
  function Handle(t: Transaction): seq<Effect>
  {
    match t.transactionState
    case StatePurchased => [Posted(NotificationFor(t, Purchased))]
    case StateFailed => [TransactionFinished(t), Posted(NotificationFor(t, Failed))]
    case StateRestored => [Posted(NotificationFor(t, Restored)), TransactionFinished(t)]
    case StateDeferred => [Posted(NotificationFor(t, Deferred))]
    case StatePurchasing => [Posted(NotificationFor(t, Purchasing))]
  }

  /** What `paymentQueue(_:updatedTransactions:)` does: the transactions handled in order. */
  function HandleAll(ts: seq<Transaction>): seq<Effect>
  {
    if ts == [] then [] else HandleAll(ts[..|ts| - 1]) + Handle(ts[|ts| - 1])
  }

  /** The notifications in a log, in order. */
  function Notifications(log: seq<Effect>): seq<PurchaseNotification>
  {
    if log == [] then []
    else Notifications(log[..|log| - 1]) + (if log[|log| - 1].Posted? then [log[|log| - 1].notification] else [])
  }

  /** The transactions finished in a log, in order. */
  function Finished(log: seq<Effect>): seq<Transaction>
  {
    if log == [] then []
    else Finished(log[..|log| - 1]) + (if log[|log| - 1].TransactionFinished? then [log[|log| - 1].transaction] else [])
  }

  predicate IsFinishedState(state: TransactionState)
  {
    state == StateRestored || state == StateFailed
  }

  /** The transactions that ought to be finished, in order. */
  function FinishedOnes(ts: seq<Transaction>): seq<Transaction>
  {
    if ts == [] then []
    else FinishedOnes(ts[..|ts| - 1]) + (if IsFinishedState(ts[|ts| - 1].transactionState) then [ts[|ts| - 1]] else [])
  }

  lemma {:induction false} NotificationsAppend(a: seq<Effect>, b: seq<Effect>)
    ensures Notifications(a + b) == Notifications(a) + Notifications(b)
    ensures Finished(a + b) == Finished(a) + Finished(b)
    decreases |b|
  {
    if b == [] {
      assert a + b == a;
    } else {
      assert (a + b)[..|a + b| - 1] == a + b[..|b| - 1];
      NotificationsAppend(a, b[..|b| - 1]);
    }
  }

  lemma SingleEffect(e: Effect)
    ensures Notifications([e]) == if e.Posted? then [e.notification] else []
    ensures Finished([e]) == if e.TransactionFinished? then [e.transaction] else []
  {
    assert [e][..0] == [];
  }

  lemma HandleOne(t: Transaction)
    ensures Notifications(Handle(t)) == [NotificationFor(t, StatusOf(t.transactionState))]
    ensures Finished(Handle(t)) == if IsFinishedState(t.transactionState) then [t] else []
  {
    var h := Handle(t);
    if |h| == 2 {
      assert h == [h[0]] + [h[1]];
      NotificationsAppend([h[0]], [h[1]]);
      SingleEffect(h[0]);
      SingleEffect(h[1]);
    } else {
      SingleEffect(h[0]);
    }
  }

  /** One more transaction adds its own notification at the end of the expected ones. */
  lemma ExpectedNotificationsSnoc(init: seq<Transaction>, last: Transaction, prefix: seq<PurchaseNotification>)
    requires prefix == seq(|init|, i requires 0 <= i < |init| =>
                             PurchaseNotification(init[i].transactionIdentifier, StatusOf(init[i].transactionState)))
    ensures var ts := init + [last];
      prefix + [NotificationFor(last, StatusOf(last.transactionState))]
      == seq(|ts|, i requires 0 <= i < |ts| =>
               PurchaseNotification(ts[i].transactionIdentifier, StatusOf(ts[i].transactionState)))
  {
    var ts := init + [last];
    var posted := prefix + [NotificationFor(last, StatusOf(last.transactionState))];
    forall i | 0 <= i < |ts|
      ensures posted[i] == PurchaseNotification(ts[i].transactionIdentifier, StatusOf(ts[i].transactionState))
    {
      if i < |init| {
        assert ts[i] == init[i];
      }
    }
  }

  /**
   * Handling a batch posts exactly one notification per transaction, in
   * order, whose status matches the transaction's state.
   */
  lemma {:induction false} OneNotificationPerTransaction(ts: seq<Transaction>)
    ensures Notifications(HandleAll(ts))
            == seq(|ts|, i requires 0 <= i < |ts| =>
                     PurchaseNotification(ts[i].transactionIdentifier, StatusOf(ts[i].transactionState)))
  {
    if ts != [] {
      var init := ts[..|ts| - 1];
      var last := ts[|ts| - 1];
      assert ts == init + [last];
      OneNotificationPerTransaction(init);
      NotificationsAppend(HandleAll(init), Handle(last));
      HandleOne(last);
      ExpectedNotificationsSnoc(init, last, Notifications(HandleAll(init)));
    }
  }

  /** Handling a batch finishes exactly the restored and failed transactions, in order. */
  lemma {:induction false} OnlyRestoredAndFailedFinish(ts: seq<Transaction>)
    ensures Finished(HandleAll(ts)) == FinishedOnes(ts)
  {
    if ts != [] {
      var init := ts[..|ts| - 1];
      OnlyRestoredAndFailedFinish(init);
      NotificationsAppend(HandleAll(init), Handle(ts[|ts| - 1]));
      HandleOne(ts[|ts| - 1]);
    }
  }

  /** `FinishedOnes` keeps a transaction exactly when it is restored or failed. */
  lemma {:induction false} FinishedOnesMembers(ts: seq<Transaction>, t: Transaction)
    ensures t in FinishedOnes(ts) <==> t in ts && IsFinishedState(t.transactionState)
  {
    if ts != [] {
      var init := ts[..|ts| - 1];
      FinishedOnesMembers(init, t);
      assert ts == init + [ts[|ts| - 1]];
    }
  }

  /** The transaction's error, and so the parameters `fail` computes, never reach a notification. */
  lemma ErrorNeverPublished(t: Transaction, e: Option<TransactionError>)
    ensures Notifications(Handle(t)) == Notifications(Handle(t.(error := e)))
  {
    HandleOne(t);
    HandleOne(t.(error := e));
  }

  // ---------------------------------------------------------------------
  // The manager

  class PurchaseManager {
    const productIdentifiers: set<ProductIdentifier>
    var products: map<ProductIdentifier, Product>
    var productsRequest: Option<RequestId>
    var productsRequestCallback: Option<CallbackId>
    /** The identity the next products request object gets. */
    var nextRequest: RequestId
    var log: seq<Effect>

    constructor ()
      ensures productIdentifiers == set id | id in GetProductIdentifiers()
      ensures products == map[] && productsRequest == None && productsRequestCallback == None
      ensures nextRequest == 0 && log == []
    {
      productIdentifiers := set id | id in GetProductIdentifiers();
      products := map[];
      productsRequest := None;
      productsRequestCallback := None;
      nextRequest := 0;
      log := [];
    }

    /** `initialize`: after registering as transaction observer, request the products. */
    method Initialize()
      modifies this
      ensures productsRequestCallback == None && productsRequest == Some(old(nextRequest))
      ensures nextRequest == old(nextRequest) + 1
      ensures log == old(log) + (if old(productsRequest).Some? then [RequestCancelled(old(productsRequest).value)] else [])
                             + [RequestStarted(old(nextRequest), productIdentifiers)]
      ensures products == old(products)
    {
      RequestProducts(None);
    }

    /** Cancels any outstanding request, then starts a new one for all identifiers with `handler` in the slot. */
    method RequestProducts(handler: Option<CallbackId>)
      modifies this
      ensures productsRequestCallback == handler
      ensures productsRequest == Some(old(nextRequest)) && nextRequest == old(nextRequest) + 1
      ensures log == old(log) + (if old(productsRequest).Some? then [RequestCancelled(old(productsRequest).value)] else [])
                             + [RequestStarted(old(nextRequest), productIdentifiers)]
      ensures products == old(products)
    {
      if productsRequest.Some? {
        log := log + [RequestCancelled(productsRequest.value)];
      }
      productsRequestCallback := handler;
      productsRequest := Some(nextRequest);
      nextRequest := nextRequest + 1;
      log := log + [RequestStarted(productsRequest.value, productIdentifiers)];
    }

    /** Adds a payment for the cached product `id`; does nothing when `id` is not cached. */
    method BuyProduct(id: ProductIdentifier)
      modifies this
      ensures log == old(log) + (if id in products then [PaymentAdded(products[id])] else [])
      ensures products == old(products) && productsRequest == old(productsRequest)
      ensures productsRequestCallback == old(productsRequestCallback) && nextRequest == old(nextRequest)
    {
      if id !in products {
        return;
      }
      log := log + [PaymentAdded(products[id])];
    }

    method RestorePurchases()
      modifies this
      ensures log == old(log) + [RestoreRequested]
      ensures products == old(products) && productsRequest == old(productsRequest)
      ensures productsRequestCallback == old(productsRequestCallback) && nextRequest == old(nextRequest)
    {
      log := log + [RestoreRequested];
    }

    method ClearRequestAndHandler()
      modifies this
      ensures productsRequest == None && productsRequestCallback == None
      ensures log == old(log) && products == old(products) && nextRequest == old(nextRequest)
    {
      productsRequest := None;
      productsRequestCallback := None;
    }

    /**
     * The products request succeeded: the stored callback (if any) gets
     * `(true, result)`, both slots are cleared, then every returned product
     * is cached under its identifier.
     */
    method ProductsRequestDidReceive(result: seq<Product>)
      modifies this
      ensures log == old(log) + (if old(productsRequestCallback).Some?
                                 then [CallbackInvoked(old(productsRequestCallback).value, true, Some(result))]
                                 else [])
      ensures productsRequest == None && productsRequestCallback == None
      ensures products == InsertAll(old(products), result)
      ensures nextRequest == old(nextRequest)
    {
      if productsRequestCallback.Some? {
        log := log + [CallbackInvoked(productsRequestCallback.value, true, Some(result))];
      }
      ClearRequestAndHandler();
      ghost var logged := log;
      for i := 0 to |result|
        invariant products == InsertAll(old(products), result[..i])
        invariant productsRequest == None && productsRequestCallback == None
        invariant log == logged && nextRequest == old(nextRequest)
      {
        assert result[..i + 1][..i] == result[..i];
        products := products[result[i].productIdentifier := result[i]];
      }
      assert result[..|result|] == result;
    }

    /** The products request failed: the stored callback (if any) gets `(false, nil)`, both slots are cleared. */
    method RequestDidFail()
      modifies this
      ensures log == old(log) + (if old(productsRequestCallback).Some?
                                 then [CallbackInvoked(old(productsRequestCallback).value, false, None)]
                                 else [])
      ensures productsRequest == None && productsRequestCallback == None
      ensures products == old(products) && nextRequest == old(nextRequest)
    {
      if productsRequestCallback.Some? {
        log := log + [CallbackInvoked(productsRequestCallback.value, false, None)];
      }
      ClearRequestAndHandler();
    }

    /** Handles each updated transaction in order, by its state. */
    method PaymentQueueUpdated(transactions: seq<Transaction>)
      modifies this
      ensures log == old(log) + HandleAll(transactions)
      ensures products == old(products) && productsRequest == old(productsRequest)
      ensures productsRequestCallback == old(productsRequestCallback) && nextRequest == old(nextRequest)
    {
      for i := 0 to |transactions|
        invariant log == old(log) + HandleAll(transactions[..i])
        invariant products == old(products) && productsRequest == old(productsRequest)
        invariant productsRequestCallback == old(productsRequestCallback) && nextRequest == old(nextRequest)
      {
        var t := transactions[i];
        assert transactions[..i + 1][..i] == transactions[..i];
        match t.transactionState
        case StatePurchased => Complete(t);
        case StateFailed => Fail(t);
        case StateRestored => Restore(t);
        case StateDeferred => Deferr(t);
        case StatePurchasing => Purchase(t);
      }
      assert transactions[..|transactions|] == transactions;
    }

    /** A purchased transaction is announced and left unfinished (receipt reading is not modelled). */
    method Complete(t: Transaction)
      requires t.transactionState == StatePurchased
      modifies this
      ensures log == old(log) + Handle(t)
      ensures products == old(products) && productsRequest == old(productsRequest)
      ensures productsRequestCallback == old(productsRequestCallback) && nextRequest == old(nextRequest)
    {
      PostPurchaseNotification(t, Purchased, map[]);
    }

    method Restore(t: Transaction)
      requires t.transactionState == StateRestored
      modifies this
      ensures log == old(log) + Handle(t)
      ensures products == old(products) && productsRequest == old(productsRequest)
      ensures productsRequestCallback == old(productsRequestCallback) && nextRequest == old(nextRequest)
    {
      PostPurchaseNotification(t, Restored, map[]);
      log := log + [TransactionFinished(t)];
    }

    method Fail(t: Transaction)
      requires t.transactionState == StateFailed
      modifies this
      ensures log == old(log) + Handle(t)
      ensures products == old(products) && productsRequest == old(productsRequest)
      ensures productsRequestCallback == old(productsRequestCallback) && nextRequest == old(nextRequest)
    {
      log := log + [TransactionFinished(t)];
      var params := FailParams(t);
      PostPurchaseNotification(t, Failed, params);
    }

    method Deferr(t: Transaction)
      requires t.transactionState == StateDeferred
      modifies this
      ensures log == old(log) + Handle(t)
      ensures products == old(products) && productsRequest == old(productsRequest)
      ensures productsRequestCallback == old(productsRequestCallback) && nextRequest == old(nextRequest)
    {
      PostPurchaseNotification(t, Deferred, map[]);
    }

    method Purchase(t: Transaction)
      requires t.transactionState == StatePurchasing
      modifies this
      ensures log == old(log) + Handle(t)
      ensures products == old(products) && productsRequest == old(productsRequest)
      ensures productsRequestCallback == old(productsRequestCallback) && nextRequest == old(nextRequest)
    {
      PostPurchaseNotification(t, Purchasing, map[]);
    }

    /** Posts the identifier and the status; `params` is accepted and not used. */
    method PostPurchaseNotification(t: Transaction, status: PurchaseStatus, params: map<string, string>)
      modifies this
      ensures log == old(log) + [Posted(PurchaseNotification(t.transactionIdentifier, status))]
      ensures products == old(products) && productsRequest == old(productsRequest)
      ensures productsRequestCallback == old(productsRequestCallback) && nextRequest == old(nextRequest)
    {
      log := log + [Posted(PurchaseNotification(t.transactionIdentifier, status))];
    }
  }
}
