/**
 * The transfer endpoints of the HTTP API: `createTransfer`, `getTransfer`
 * and `listTransfer`.
 *
 * Each handler is a method over the abstract store (which logs its calls)
 * and a request context (which collects the JSON responses written). Its
 * postcondition ties the calls made and the response written to a function
 * of the store's answers and of the bound request; the properties of those
 * functions are proved in module TransferProperties.
 *
 * Request binding (`ShouldBindJSON`, `ShouldBindUri`, `ShouldBindQuery`) is
 * abstract: the handler receives `None` when binding failed and the bound
 * request otherwise.
 */
module TransferApi {
  import opened GoInt
  import opened Wrappers
  import opened Store

  const StatusOK: int := 200
  const StatusBadRequest: int := 400
  const StatusNotFound: int := 404
  const StatusInternalServerError: int := 500

  datatype CreateTransferRequest = CreateTransferRequest(
    fromAccountId: int64, toAccountId: int64, amount: int64, currency: string)

  datatype GetTransferRequest = GetTransferRequest(id: int64)

  datatype ListTransferRequest = ListTransferRequest(
    fromAccountId: int64, toAccountId: int64, pageId: int32, pageSize: int32)

  /** What an error response reports. */
  datatype ApiError =
    | BindingError
    | QueryError(dbError: DbError)
    | AccountCurrencyMismatch(accountId: int64, accountCurrency: string, requested: string)
    | CurrencyPairMismatch(fromCurrency: string, toCurrency: string)

  datatype Body =
    | ErrorBody(error: ApiError)
    | TransferTxBody(result: TransferTxResult)
    | TransferBody(transfer: Transfer)
    | TransferListBody(transfers: seq<Transfer>)

  datatype Response = Response(status: int, body: Body)

  /** The store calls a handler makes, in order, and the one response it writes. */
  datatype Outcome = Outcome(calls: seq<Call>, response: Response)

  /** The status a failed query is reported with: 404 for `ErrNoRows`, 500 otherwise. */
  function QueryErrorStatus(e: DbError): int
  {
    if e == ErrNoRows then StatusNotFound else StatusInternalServerError
  }

  /** The transfer-engine arguments built from a transfer request. */
  function TxParams(req: CreateTransferRequest): TransferTxParams
  {
    TransferTxParams(req.fromAccountId, req.toAccountId, req.amount)
  }

  /**
   * What `createTransfer` does: bind the request, look up the source
   * account, compare its currency with the requested one, look up the
   * destination account, compare its currency with the requested one,
   * compare the two accounts' currencies, and only then call `TransferTx`.
   * Every failed step ends the handler with its own status.
   */
  function CreateTransferOutcome(db: Db, bound: Option<CreateTransferRequest>): (o: Outcome)
    ensures o.response.status in {StatusOK, StatusBadRequest, StatusNotFound, StatusInternalServerError}
    ensures |o.calls| <= 3
    ensures o.response.status == StatusOK ==>
              && bound.Some? && TransferTxCall(TxParams(bound.value)) in o.calls
              && db.txOutcome.Success? && o.response.body == TransferTxBody(db.txOutcome.value)
  {
    match bound
    case None =>
      Outcome([], Response(StatusBadRequest, ErrorBody(BindingError)))
    case Some(req) =>
      var afterFrom := [GetAccountCall(req.fromAccountId)];
      match db.LookupAccount(req.fromAccountId)
      case Failure(e) =>
        Outcome(afterFrom, Response(QueryErrorStatus(e), ErrorBody(QueryError(e))))
      case Success(from) =>
        if from.currency != req.currency then
          Outcome(afterFrom, Response(StatusBadRequest,
            ErrorBody(AccountCurrencyMismatch(from.id, from.currency, req.currency))))
        else
          var afterTo := afterFrom + [GetAccountCall(req.toAccountId)];
          match db.LookupAccount(req.toAccountId)
          case Failure(e) =>
            Outcome(afterTo, Response(QueryErrorStatus(e), ErrorBody(QueryError(e))))
          case Success(to) =>
            if to.currency != req.currency then
              Outcome(afterTo, Response(StatusBadRequest,
                ErrorBody(AccountCurrencyMismatch(to.id, to.currency, req.currency))))
            else if from.currency != to.currency then
              Outcome(afterTo, Response(StatusBadRequest,
                ErrorBody(CurrencyPairMismatch(from.currency, to.currency))))
            else
              var afterTx := afterTo + [TransferTxCall(TxParams(req))];
              match db.txOutcome
              case Failure(e) =>
                Outcome(afterTx, Response(StatusInternalServerError, ErrorBody(QueryError(e))))
              case Success(result) =>
                Outcome(afterTx, Response(StatusOK, TransferTxBody(result)))
  }

  /** What `getTransfer` does: bind the id, look the transfer up, report it. */
  function GetTransferOutcome(db: Db, bound: Option<GetTransferRequest>): (o: Outcome)
    ensures o.response.status in {StatusOK, StatusBadRequest, StatusNotFound, StatusInternalServerError}
    ensures o.response.status == StatusOK ==>
              && bound.Some? && db.LookupTransfer(bound.value.id).Success?
              && o.response.body == TransferBody(db.LookupTransfer(bound.value.id).value)
  {
    match bound
    case None =>
      Outcome([], Response(StatusBadRequest, ErrorBody(BindingError)))
    case Some(req) =>
      var calls := [GetTransferCall(req.id)];
      match db.LookupTransfer(req.id)
      case Failure(e) => Outcome(calls, Response(QueryErrorStatus(e), ErrorBody(QueryError(e))))
      case Success(t) => Outcome(calls, Response(StatusOK, TransferBody(t)))
  }

  /**
   * The listing query's arguments: `Limit = PageSize` and
   * `Offset = (PageID - 1) * PageSize`, both in wrapping int32 arithmetic.
   * When the product fits in an int32 the offset is exactly the number of
   * rows on the pages before `PageID`.
   */
  function ListTransfersArgs(req: ListTransferRequest): (arg: ListTransfersParams)
    ensures arg.fromAccountId == req.fromAccountId && arg.toAccountId == req.toAccountId
    ensures arg.limit == req.pageSize
    ensures req.pageId >= 1 && (req.pageId as int - 1) * req.pageSize as int <= MaxInt32
            && (req.pageId as int - 1) * req.pageSize as int >= -TwoTo31
            ==> arg.offset as int == (req.pageId as int - 1) * req.pageSize as int
  {
    ListTransfersParams(req.fromAccountId, req.toAccountId, req.pageSize,
                        Mul32(Sub32(req.pageId, 1), req.pageSize))
  }

  /** What `listTransfer` does: bind the query, run the listing query, report its rows. */
  function ListTransferOutcome(db: Db, bound: Option<ListTransferRequest>): (o: Outcome)
    ensures o.response.status in {StatusOK, StatusBadRequest, StatusInternalServerError}
    ensures o.response.status == StatusOK ==>
              bound.Some? && db.listOutcome.Success? && o.response.body == TransferListBody(db.listOutcome.value)
  {
    match bound
    case None =>
      Outcome([], Response(StatusBadRequest, ErrorBody(BindingError)))
    case Some(req) =>
      var calls := [ListTransfersCall(ListTransfersArgs(req))];
      match db.listOutcome
      case Failure(e) => Outcome(calls, Response(StatusInternalServerError, ErrorBody(QueryError(e))))
      case Success(ts) => Outcome(calls, Response(StatusOK, TransferListBody(ts)))
  }

  /** The gin request context: it collects the JSON responses a handler writes. */
  class Context {
    var responses: seq<Response>

    constructor ()
      ensures responses == []
    {
      responses := [];
    }

    /** `ctx.JSON(status, body)`. */
    method JSON(status: int, body: Body)
      modifies this
      ensures responses == old(responses) + [Response(status, body)]
    {
      responses := responses + [Response(status, body)];
    }
  }

  class Server {
    const store: Store

    constructor (store: Store)
      ensures this.store == store
    {
      this.store := store;
    }

    /** `createTransfer`. */
    method CreateTransfer(ctx: Context, bound: Option<CreateTransferRequest>)
      modifies ctx, store
      ensures var o := CreateTransferOutcome(old(store.db), bound);
              && store.calls == old(store.calls) + o.calls
              && ctx.responses == old(ctx.responses) + [o.response]
              && (TransferTxArgs(o.calls) == [] ==> store.db == old(store.db))
    {
      if bound.None? {
        ctx.JSON(StatusBadRequest, ErrorBody(BindingError));
        return;
      }
      var req := bound.value;

      var fromResult := store.GetAccount(req.fromAccountId);
      if fromResult.Failure? {
        if fromResult.error == ErrNoRows {
          ctx.JSON(StatusNotFound, ErrorBody(QueryError(fromResult.error)));
          return;
        }
        ctx.JSON(StatusInternalServerError, ErrorBody(QueryError(fromResult.error)));
        return;
      }
      var fromAccount := fromResult.value;
      if fromAccount.currency != req.currency {
        ctx.JSON(StatusBadRequest,
          ErrorBody(AccountCurrencyMismatch(fromAccount.id, fromAccount.currency, req.currency)));
        return;
      }

      var toResult := store.GetAccount(req.toAccountId);
      if toResult.Failure? {
        if toResult.error == ErrNoRows {
          ctx.JSON(StatusNotFound, ErrorBody(QueryError(toResult.error)));
          return;
        }
        ctx.JSON(StatusInternalServerError, ErrorBody(QueryError(toResult.error)));
        return;
      }
      var toAccount := toResult.value;
      if toAccount.currency != req.currency {
        ctx.JSON(StatusBadRequest,
          ErrorBody(AccountCurrencyMismatch(toAccount.id, toAccount.currency, req.currency)));
        return;
      }
      if fromAccount.currency != toAccount.currency {
        // The Go handler answers 400 with a currency-pair error here; both
        // currencies already equal the requested one, so it is never taken.
        assert false;
      }

      var arg := TransferTxParams(req.fromAccountId, req.toAccountId, req.amount);
      var result := store.TransferTx(arg);
      if result.Failure? {
        ctx.JSON(StatusInternalServerError, ErrorBody(QueryError(result.error)));
        return;
      }
      ctx.JSON(StatusOK, TransferTxBody(result.value));
    }

    /** `getTransfer`. */
    method GetTransfer(ctx: Context, bound: Option<GetTransferRequest>)
      modifies ctx, store`calls
      ensures var o := GetTransferOutcome(store.db, bound);
              && store.calls == old(store.calls) + o.calls
              && ctx.responses == old(ctx.responses) + [o.response]
    {
      if bound.None? {
        ctx.JSON(StatusBadRequest, ErrorBody(BindingError));
        return;
      }
      var req := bound.value;

      var result := store.GetTransfer(req.id);
      if result.Failure? {
        if result.error == ErrNoRows {
          ctx.JSON(StatusNotFound, ErrorBody(QueryError(result.error)));
          return;
        }
        ctx.JSON(StatusInternalServerError, ErrorBody(QueryError(result.error)));
        return;
      }
      ctx.JSON(StatusOK, TransferBody(result.value));
    }

    /** `listTransfer`. */
    method ListTransfer(ctx: Context, bound: Option<ListTransferRequest>)
      modifies ctx, store`calls
      ensures var o := ListTransferOutcome(store.db, bound);
              && store.calls == old(store.calls) + o.calls
              && ctx.responses == old(ctx.responses) + [o.response]
    {
      if bound.None? {
        ctx.JSON(StatusBadRequest, ErrorBody(BindingError));
        return;
      }
      var req := bound.value;

      var arg := ListTransfersArgs(req);
      var result := store.ListTransfers(arg);
      if result.Failure? {
        ctx.JSON(StatusInternalServerError, ErrorBody(QueryError(result.error)));
        return;
      }
      ctx.JSON(StatusOK, TransferListBody(result.value));
    }
  }
}
