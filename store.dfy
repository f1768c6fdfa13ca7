/**
 * The database store the HTTP handlers call (`db.Store`). Its implementation
 * lives outside this model: here it is an abstract store whose answers are
 * fixed by a snapshot `Db`, and which records every call made to it so that
 * the handlers' use of it can be stated.
 */
module Store {
  import opened GoInt
  import opened Wrappers

  datatype Account = Account(id: int64, currency: string, balance: int64)

  datatype Transfer = Transfer(id: int64, fromAccountId: int64, toAccountId: int64, amount: int64)

  datatype Entry = Entry(id: int64, accountId: int64, amount: int64)

  /** The errors a store call can return: `sql.ErrNoRows`, or any other failure. */
  datatype DbError = ErrNoRows | OtherError

  /** `db.TransferTxParams`. */
  datatype TransferTxParams = TransferTxParams(fromAccountId: int64, toAccountId: int64, amount: int64)

  /** `db.TransferTxResult`: what the transfer engine reports; its contents are the engine's business. */
  datatype TransferTxResult = TransferTxResult(
    transfer: Transfer, fromAccount: Account, toAccount: Account, fromEntry: Entry, toEntry: Entry)

  /** `db.ListTransfersParams`. */
  datatype ListTransfersParams = ListTransfersParams(
    fromAccountId: int64, toAccountId: int64, limit: int32, offset: int32)

  /** One call made to the store, with its arguments. */
  datatype Call =
    | GetAccountCall(accountId: int64)
    | TransferTxCall(arg: TransferTxParams)
    | GetTransferCall(transferId: int64)
    | ListTransfersCall(listArg: ListTransfersParams)

  /**
   * What the store answers. A lookup of an id in a `...Faults` set fails with
   * an error other than `ErrNoRows`; otherwise it finds the row or reports
   * `ErrNoRows`. The transfer engine and the listing query answer with a
   * fixed outcome, since their internals are not part of this model.
   */
  datatype Db = Db(
    accounts: map<int64, Account>,
    accountFaults: set<int64>,
    transfers: map<int64, Transfer>,
    transferFaults: set<int64>,
    txOutcome: Result<TransferTxResult, DbError>,
    listOutcome: Result<seq<Transfer>, DbError>)
  {
    function LookupAccount(id: int64): Result<Account, DbError>
    {
      if id in accountFaults then Failure(OtherError)
      else if id in accounts then Success(accounts[id])
      else Failure(ErrNoRows)
    }

    function LookupTransfer(id: int64): Result<Transfer, DbError>
    {
      if id in transferFaults then Failure(OtherError)
      else if id in transfers then Success(transfers[id])
      else Failure(ErrNoRows)
    }
  }

  /** The parameters of every `TransferTx` call in a call log, in order. */
  function TransferTxArgs(calls: seq<Call>): seq<TransferTxParams>
  {
    if calls == [] then []
    else
      var last := calls[|calls| - 1];
      TransferTxArgs(calls[..|calls| - 1]) + if last.TransferTxCall? then [last.arg] else []
  }

  /** Logging one more call adds its parameters when it is a `TransferTx` call. */
  lemma TransferTxArgsSnoc(calls: seq<Call>, c: Call)
    ensures TransferTxArgs(calls + [c]) == TransferTxArgs(calls) + if c.TransferTxCall? then [c.arg] else []
  {
  }

  /** The store object the server holds, with its log of calls. */
  class Store {
    var db: Db
    var calls: seq<Call>

    constructor (db: Db)
      ensures this.db == db && calls == []
    {
      this.db := db;
      calls := [];
    }

    /** `GetAccount(ctx, id)`. */
    method GetAccount(id: int64) returns (r: Result<Account, DbError>)
      modifies this`calls
      ensures calls == old(calls) + [GetAccountCall(id)]
      ensures r == db.LookupAccount(id)
    {
      calls := calls + [GetAccountCall(id)];
      r := db.LookupAccount(id);
    }

    /** `GetTransfer(ctx, id)`. */
    method GetTransfer(id: int64) returns (r: Result<Transfer, DbError>)
      modifies this`calls
      ensures calls == old(calls) + [GetTransferCall(id)]
      ensures r == db.LookupTransfer(id)
    {
      calls := calls + [GetTransferCall(id)];
      r := db.LookupTransfer(id);
    }

    /** `ListTransfers(ctx, arg)`. */
    method ListTransfers(arg: ListTransfersParams) returns (r: Result<seq<Transfer>, DbError>)
      modifies this`calls
      ensures calls == old(calls) + [ListTransfersCall(arg)]
      ensures r == db.listOutcome
    {
      calls := calls + [ListTransfersCall(arg)];
      r := db.listOutcome;
    }

    /**
     * `TransferTx(ctx, arg)`: the transfer engine. It may write to the
     * database, so nothing is promised about `db` afterwards.
     */
    method TransferTx(arg: TransferTxParams) returns (r: Result<TransferTxResult, DbError>)
      modifies this
      ensures calls == old(calls) + [TransferTxCall(arg)]
      ensures r == old(db).txOutcome
    {
      calls := calls + [TransferTxCall(arg)];
      r := db.txOutcome;
    }
  }
}
