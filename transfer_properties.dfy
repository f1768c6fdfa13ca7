/**
 * What the transfer endpoints guarantee, proved about the functions that
 * the handlers in TransferApi are verified against.
 */
module TransferProperties {
  import opened GoInt
  import opened Wrappers
  import opened Store
  import opened TransferApi

  // ---------------------------------------------------------------------
  // createTransfer
  // ---------------------------------------------------------------------

  /** The account `id` can be read: neither missing nor failing. */
  predicate Found(db: Db, id: int64)
  {
    id !in db.accountFaults && id in db.accounts
  }

  /**
   * When `createTransfer` should reach the transfer engine, stated without
   * reference to the order of its checks: both accounts can be read and
   * both hold the requested currency.
   */
  predicate ClearsGate(db: Db, req: CreateTransferRequest)
  {
    && Found(db, req.fromAccountId)
    && Found(db, req.toAccountId)
    && db.accounts[req.fromAccountId].currency == req.currency
    && db.accounts[req.toAccountId].currency == req.currency
  }

  /** A request that fails to bind is answered 400 and the store is not called. */
  lemma BindFailureIsBadRequest(db: Db)
    ensures CreateTransferOutcome(db, None).calls == []
    ensures CreateTransferOutcome(db, None).response == Response(StatusBadRequest, ErrorBody(BindingError))
  {
  }

  /**
   * A source account that is missing is answered 404, one whose lookup fails
   * otherwise 500; only the source is looked up and `TransferTx` is not called.
   */
  lemma SourceLookupFailure(db: Db, req: CreateTransferRequest)
    requires !Found(db, req.fromAccountId)
    ensures var o := CreateTransferOutcome(db, Some(req));
            && o.calls == [GetAccountCall(req.fromAccountId)]
            && o.response.status == (if req.fromAccountId in db.accountFaults
                                     then StatusInternalServerError else StatusNotFound)
  {
  }

  /**
   * A source account in another currency than the requested one is answered
   * 400, naming that account; the destination is not looked up.
   */
  lemma SourceCurrencyMismatch(db: Db, req: CreateTransferRequest)
    requires Found(db, req.fromAccountId)
    requires db.accounts[req.fromAccountId].currency != req.currency
    ensures var o := CreateTransferOutcome(db, Some(req));
            var from := db.accounts[req.fromAccountId];
            && o.calls == [GetAccountCall(req.fromAccountId)]
            && o.response == Response(StatusBadRequest,
                 ErrorBody(AccountCurrencyMismatch(from.id, from.currency, req.currency)))
  {
  }

  /**
   * Once the source has passed, a missing destination is answered 404, a
   * failing destination lookup 500, and a destination in another currency
   * 400; `TransferTx` is not called in any of these cases.
   */
  lemma DestinationRejected(db: Db, req: CreateTransferRequest)
    requires Found(db, req.fromAccountId)
    requires db.accounts[req.fromAccountId].currency == req.currency
    requires !ClearsGate(db, req)
    ensures var o := CreateTransferOutcome(db, Some(req));
            && o.calls == [GetAccountCall(req.fromAccountId), GetAccountCall(req.toAccountId)]
            && o.response.status == (if req.toAccountId in db.accountFaults then StatusInternalServerError
                                     else if req.toAccountId !in db.accounts then StatusNotFound
                                     else StatusBadRequest)
            && (Found(db, req.toAccountId) ==>
                  var to := db.accounts[req.toAccountId];
                  o.response.body == ErrorBody(AccountCurrencyMismatch(to.id, to.currency, req.currency)))
  {
  }

  /**
   * The final comparison of the two accounts' currencies never rejects: by
   * then both already equal the requested currency.
   */
  lemma CurrencyPairCheckUnreachable(db: Db, bound: Option<CreateTransferRequest>)
    ensures var body := CreateTransferOutcome(db, bound).response.body;
            !(body.ErrorBody? && body.error.CurrencyPairMismatch?)
  {
  }

  /** `TransferTx` is called if and only if the request binds and clears the gate. */
  lemma TransferTxReachedIff(db: Db, bound: Option<CreateTransferRequest>)
    ensures TransferTxArgs(CreateTransferOutcome(db, bound).calls) != []
            <==> bound.Some? && ClearsGate(db, bound.value)
  {
    var o := CreateTransferOutcome(db, bound);
    if bound.Some? {
      var req := bound.value;
      var from, to := req.fromAccountId, req.toAccountId;
      TransferTxArgsSnoc([], GetAccountCall(from));
      TransferTxArgsSnoc([GetAccountCall(from)], GetAccountCall(to));
      if ClearsGate(db, req) {
        TransferTxCalledOnceWithRequest(db, req);
      }
    }
  }

  /**
   * When the gate is cleared, the handler looks up the source, then the
   * destination, then calls `TransferTx` exactly once, with the request's
   * from, to and amount unchanged. An engine failure is answered 500, a
   * success 200 with the engine's result.
   */
  lemma TransferTxCalledOnceWithRequest(db: Db, req: CreateTransferRequest)
    requires ClearsGate(db, req)
    ensures var o := CreateTransferOutcome(db, Some(req));
            var arg := TransferTxParams(req.fromAccountId, req.toAccountId, req.amount);
            && o.calls == [GetAccountCall(req.fromAccountId), GetAccountCall(req.toAccountId), TransferTxCall(arg)]
            && TransferTxArgs(o.calls) == [arg]
            && o.response == match db.txOutcome
                             case Failure(e) => Response(StatusInternalServerError, ErrorBody(QueryError(e)))
                             case Success(result) => Response(StatusOK, TransferTxBody(result))
  {
    var from, to := req.fromAccountId, req.toAccountId;
    TransferTxArgsSnoc([], GetAccountCall(from));
    TransferTxArgsSnoc([GetAccountCall(from)], GetAccountCall(to));
    TransferTxArgsSnoc([GetAccountCall(from), GetAccountCall(to)],
                       TransferTxCall(TransferTxParams(from, to, req.amount)));
  }

  /** `TransferTx` is called at most once per request. */
  lemma TransferTxAtMostOnce(db: Db, bound: Option<CreateTransferRequest>)
    ensures |TransferTxArgs(CreateTransferOutcome(db, bound).calls)| <= 1
  {
    TransferTxReachedIff(db, bound);
    if bound.Some? && ClearsGate(db, bound.value) {
      TransferTxCalledOnceWithRequest(db, bound.value);
    }
  }

  /** A 200 answer comes exactly from a request that clears the gate and an engine that succeeds. */
  lemma CreateTransferOkIff(db: Db, bound: Option<CreateTransferRequest>)
    ensures CreateTransferOutcome(db, bound).response.status == StatusOK
            <==> bound.Some? && ClearsGate(db, bound.value) && db.txOutcome.Success?
  {
    if bound.Some? && ClearsGate(db, bound.value) {
      TransferTxCalledOnceWithRequest(db, bound.value);
    }
  }

  /** Two snapshots that differ at most in the accounts' balances. */
  predicate SameButBalances(db: Db, db': Db)
  {
    && db.accountFaults == db'.accountFaults
    && db.accounts.Keys == db'.accounts.Keys
    && (forall id :: id in db.accounts ==>
          db'.accounts[id].id == db.accounts[id].id
          && db'.accounts[id].currency == db.accounts[id].currency)
    && db.transfers == db'.transfers
    && db.transferFaults == db'.transferFaults
    && db.txOutcome == db'.txOutcome
    && db.listOutcome == db'.listOutcome
  }

  /**
   * The handler never consults a balance: what it calls and answers is the
   * same whatever the accounts hold, so an amount larger than the source's
   * balance still reaches `TransferTx`.
   */
  lemma BalanceNeverChecked(db: Db, db': Db, bound: Option<CreateTransferRequest>)
    requires SameButBalances(db, db')
    ensures CreateTransferOutcome(db, bound) == CreateTransferOutcome(db', bound)
  {
  }

  /** An overdraft: a source holding nothing sends 100 and still reaches the engine and answers 200. */
  lemma OverdraftReachesTransferTx(result: TransferTxResult)
    ensures var db := Db(map[1 := Account(1, "USD", 0), 2 := Account(2, "USD", 0)], {}, map[], {},
                         Success(result), Success([]));
            var o := CreateTransferOutcome(db, Some(CreateTransferRequest(1, 2, 100, "USD")));
            && TransferTxArgs(o.calls) == [TransferTxParams(1, 2, 100)]
            && o.response == Response(StatusOK, TransferTxBody(result))
  {
    var db := Db(map[1 := Account(1, "USD", 0), 2 := Account(2, "USD", 0)], {}, map[], {},
                 Success(result), Success([]));
    TransferTxCalledOnceWithRequest(db, CreateTransferRequest(1, 2, 100, "USD"));
  }

  // ---------------------------------------------------------------------
  // getTransfer
  // ---------------------------------------------------------------------

  /**
   * `getTransfer` answers 400 without calling the store when binding fails;
   * otherwise it looks the id up once and answers 200 with the transfer,
   * 404 for a missing one and 500 for a failing lookup.
   */
  lemma GetTransferStatus(db: Db, bound: Option<GetTransferRequest>)
    ensures var o := GetTransferOutcome(db, bound);
            match bound
            case None =>
              o.calls == [] && o.response == Response(StatusBadRequest, ErrorBody(BindingError))
            case Some(req) =>
              && o.calls == [GetTransferCall(req.id)]
              && o.response.status == (if req.id in db.transferFaults then StatusInternalServerError
                                       else if req.id in db.transfers then StatusOK
                                       else StatusNotFound)
              && (o.response.status == StatusOK ==>
                    o.response.body == TransferBody(db.transfers[req.id]))
  {
  }

  // ---------------------------------------------------------------------
  // listTransfer
  // ---------------------------------------------------------------------

  /**
   * Within the bounds the query binding enforces and without overflow,
   * `listTransfer` runs the listing query exactly once, asking for one page
   * (`Limit = PageSize`) starting after the rows of the earlier pages.
   */
  lemma ListTransferQueriesPage(db: Db, req: ListTransferRequest)
    requires req.pageId >= 1 && 5 <= req.pageSize <= 10
    requires OffsetFits(req)
    ensures var o := ListTransferOutcome(db, Some(req));
            && |o.calls| == 1
            && o.calls[0].ListTransfersCall?
            && o.calls[0].listArg.fromAccountId == req.fromAccountId
            && o.calls[0].listArg.toAccountId == req.toAccountId
            && o.calls[0].listArg.limit == req.pageSize
            && o.calls[0].listArg.offset >= 0
            && o.calls[0].listArg.offset as int == (req.pageId as int - 1) * req.pageSize as int
  {
    OffsetIsRowsBefore(req);
  }

  /**
   * `listTransfer` answers 200 exactly when the query binds and the listing
   * succeeds. A binding failure is answered 400 without calling the store.
   * A failed listing is answered 500 whatever the error, `ErrNoRows`
   * included, unlike a failed lookup in `getTransfer`.
   */
  lemma ListTransferOkIff(db: Db, bound: Option<ListTransferRequest>)
    ensures var o := ListTransferOutcome(db, bound);
            && (o.response.status == StatusOK <==> bound.Some? && db.listOutcome.Success?)
            && (bound.None? ==>
                  o.calls == [] && o.response == Response(StatusBadRequest, ErrorBody(BindingError)))
            && (bound.Some? && db.listOutcome.Failure? ==>
                  o.response.status == StatusInternalServerError)
  {
  }

  /** The page's rows do not overflow an int32: `(PageID - 1) * PageSize` fits. */
  predicate OffsetFits(req: ListTransferRequest)
  {
    (req.pageId as int - 1) * req.pageSize as int <= MaxInt32
  }

  /**
   * Within the bounds the query binding enforces (`PageID >= 1`,
   * `5 <= PageSize <= 10`) and without overflow, the offset is the
   * non-negative multiple `(PageID - 1) * PageSize` of the page size: the
   * rows of the earlier pages. The first page starts at offset 0.
   */
  lemma OffsetIsRowsBefore(req: ListTransferRequest)
    requires req.pageId >= 1 && 5 <= req.pageSize <= 10
    requires OffsetFits(req)
    ensures var arg := ListTransfersArgs(req);
            && arg.offset >= 0
            && arg.offset as int == (req.pageId as int - 1) * req.pageSize as int
            && (req.pageId == 1 ==> arg.offset == 0)
  {
    PageProduct(req.pageId as int - 1, req.pageSize as int);
  }

  /**
   * Without overflow, the next page starts where this one ends: its offset
   * is this page's offset plus the limit.
   */
  lemma NextPageFollows(req: ListTransferRequest)
    requires req.pageId >= 1 && req.pageId as int + 1 <= MaxInt32 && 5 <= req.pageSize <= 10
    requires OffsetFits(req.(pageId := req.pageId + 1))
    ensures var arg := ListTransfersArgs(req);
            var next := ListTransfersArgs(req.(pageId := req.pageId + 1));
            next.offset as int == arg.offset as int + arg.limit as int
  {
    PageProduct(req.pageId as int - 1, req.pageSize as int);
  }

  /** The arithmetic of page offsets, for the page sizes the binding admits. */
  lemma PageProduct(p: int, s: int)
    requires p >= 0 && 5 <= s <= 10
    ensures 0 <= p * s < (p + 1) * s == p * s + s
  {
    MulNonNegative(p, s);
    assert (p + 1) * s == p * s + s;
  }

  /** Non-negative factors give a non-negative product. */
  lemma MulNonNegative(p: int, s: int)
    requires p >= 0 && s >= 0
    ensures p * s >= 0
  {
  }

  /**
   * Past the overflow the offset wraps: page 300000000 of size 10 asks for
   * a negative offset, and page 536870913 of size 8 asks for offset 0, the
   * first page again.
   */
  lemma OffsetWrapsPastOverflow()
    ensures ListTransfersArgs(ListTransferRequest(1, 1, 300000000, 10)).offset == -1294967306
    ensures ListTransfersArgs(ListTransferRequest(1, 1, 536870913, 8)).offset
            == ListTransfersArgs(ListTransferRequest(1, 1, 1, 8)).offset == 0
  {
  }
}
