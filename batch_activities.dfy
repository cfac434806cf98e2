/**
 * The fee-deduction service (internal/batch/activities.go): an in-memory
 * account store whose DeductFee is deliberately not idempotent, and the HTTP
 * handler that validates a request before deducting.
 *
 * Balances and amounts are integer cents. The store's state is the map from
 * account ID to balance; the mutex, the random delay and JSON are left out.
 */
module BatchActivities {
  import opened GoTypes
  import opened Strings

  /** An account as GetAccount and CreateAccount hand it out. */
  datatype Account = Account(id: string, balance: int)

  datatype StoreError =
    | AccountNotFound(accountID: string)
    | InsufficientFunds(balance: int, fee: int)

  /** The error's text, with `%.2f` amounts. */
  function ErrorText(e: StoreError): string
  {
    match e
    case AccountNotFound(id) => "account " + id + " not found"
    case InsufficientFunds(balance, fee) =>
      "insufficient funds: balance " + CentsFixed(balance, 0) + ", fee " + CentsFixed(fee, 0)
  }

  /** The effect of one DeductFee on the balances: the new balances, the
      balance returned and the error. */
  datatype Deduction = Deduction(balances: map<string, int>, returned: int, err: Option<StoreError>)

  function Deduct(balances: map<string, int>, accountID: string, amount: int): (d: Deduction)
    ensures accountID !in balances ==> d == Deduction(balances, 0, Some(AccountNotFound(accountID)))
    ensures accountID in balances && balances[accountID] < amount ==>
      d == Deduction(balances, balances[accountID], Some(InsufficientFunds(balances[accountID], amount)))
    ensures d.err == None <==> accountID in balances && balances[accountID] >= amount
    ensures d.err == None ==>
      && d.balances.Keys == balances.Keys
      && d.balances[accountID] == balances[accountID] - amount == d.returned
      && (forall other :: other in balances && other != accountID ==> d.balances[other] == balances[other])
  {
    if accountID !in balances then Deduction(balances, 0, Some(AccountNotFound(accountID)))
    else if balances[accountID] < amount then
      Deduction(balances, balances[accountID], Some(InsufficientFunds(balances[accountID], amount)))
    else
      Deduction(balances[accountID := balances[accountID] - amount], balances[accountID] - amount, None)
  }

  /** A deduction never takes a non-negative balance below zero, whatever the
      amount, and leaves every other balance as it was. */
  lemma DeductKeepsBalancesNonNegative(balances: map<string, int>, accountID: string, amount: int)
    requires forall id :: id in balances ==> balances[id] >= 0
    ensures var d := Deduct(balances, accountID, amount);
      forall id :: id in d.balances ==> d.balances[id] >= 0
  {
    var d := Deduct(balances, accountID, amount);
    forall id | id in d.balances
      ensures d.balances[id] >= 0
    {
      if d.err == None && id == accountID {
        assert d.balances[id] == balances[accountID] - amount;
      } else {
        assert d.balances[id] == balances[id];
      }
    }
  }

  /** Not idempotent: the same deduction applied twice (the order ID plays no
      part) takes the amount twice when the funds cover it. */
  lemma DeductTwiceTakesTwice(balances: map<string, int>, accountID: string, amount: int)
    requires accountID in balances && balances[accountID] >= 2 * amount && amount >= 0
    ensures var first := Deduct(balances, accountID, amount);
      var second := Deduct(first.balances, accountID, amount);
      && first.err == None && second.err == None
      && second.balances[accountID] == balances[accountID] - 2 * amount
      && second.returned == first.returned - amount
  {
  }

  /** The in-memory account store. */
  class AccountStore {
    var accounts: map<string, int>

    /** NewAccountStore. */
    constructor ()
      ensures accounts == map[]
    {
      accounts := map[];
    }

    /** GetAccount: the account, or "account <id> not found". */
    method GetAccount(id: string) returns (r: Ret<Option<Account>>)
      ensures id in accounts ==> r == Ret(Some(Account(id, accounts[id])), None)
      ensures id !in accounts ==> r == Ret(None, Some("account " + id + " not found"))
    {
      if id !in accounts {
        return Ret(None, Some(ErrorText(AccountNotFound(id))));
      }
      return Ret(Some(Account(id, accounts[id])), None);
    }

    /** CreateAccount: stores a fresh account, replacing one with the same ID. */
    method CreateAccount(id: string, initialBalance: int) returns (account: Account)
      modifies this
      ensures accounts == old(accounts)[id := initialBalance]
      ensures account == Account(id, initialBalance)
    {
      account := Account(id, initialBalance);
      accounts := accounts[id := initialBalance];
    }

    /** DeductFee: `orderID` is accepted and ignored. */
    method DeductFee(accountID: string, orderID: string, amount: int) returns (balance: int, err: Option<string>)
      modifies this
      ensures var d := Deduct(old(accounts), accountID, amount);
        && accounts == d.balances && balance == d.returned
        && err == (if d.err.Some? then Some(ErrorText(d.err.value)) else None)
    {
      if accountID !in accounts {
        return 0, Some(ErrorText(AccountNotFound(accountID)));
      }
      var current := accounts[accountID];
      if current < amount {
        return current, Some(ErrorText(InsufficientFunds(current, amount)));
      }
      accounts := accounts[accountID := current - amount];
      balance := accounts[accountID];
      err := None;
    }
  }

  /** FeeDeductionRequest once decoded. */
  datatype FeeDeductionRequest = FeeDeductionRequest(accountID: string, amount: int)

  /** FeeDeductionResponse. */
  datatype FeeDeductionResponse = FeeDeductionResponse(newBalance: int, success: bool, message: string)

  /** The request body: unreadable, or read and decoded (None: invalid JSON). */
  datatype RequestBody = BodyUnreadable | BodyRead(decoded: Option<FeeDeductionRequest>)

  /** What the handler does: write a status and a JSON response, or panic
      (slicing a path shorter than the route prefix). */
  datatype HandlerOutcome = Respond(status: int, response: FeeDeductionResponse) | HandlerPanic

  const DeductFeePrefix := "/deduct-fee/"

  function ErrorResponse(message: string, status: int): HandlerOutcome
  {
    Respond(status, FeeDeductionResponse(0, false, message))
  }

  /** The handler's checks before it touches the store: a rejection, or the
      order, account and amount to deduct. */
  datatype Validation = Rejected(outcome: HandlerOutcome) | Accepted(orderID: string, accountID: string, amount: int)

  /** The order ID is whatever follows the first 12 characters; the prefix
      itself is not compared. */
  function OrderIDFromPath(path: string): (r: Option<string>)
    ensures |path| < |DeductFeePrefix| <==> r.None?
    ensures r.Some? ==> path == path[..|DeductFeePrefix|] + r.value
  {
    if |path| < |DeductFeePrefix| then None else Some(path[|DeductFeePrefix|..])
  }

  /** The route's own paths give back the order ID they carry. */
  lemma OrderIDFromRoute(orderID: string)
    ensures OrderIDFromPath(DeductFeePrefix + orderID) == Some(orderID)
  {
    assert (DeductFeePrefix + orderID)[|DeductFeePrefix|..] == orderID;
  }

  function ValidateRequest(httpMethod: string, path: string, body: RequestBody): (v: Validation)
    ensures httpMethod != "POST" ==> v == Rejected(ErrorResponse("Method not allowed", 405))
    ensures httpMethod == "POST" && |path| < 12 ==> v == Rejected(HandlerPanic)
    ensures v.Accepted? <==>
      && httpMethod == "POST" && |path| >= 12 && path[12..] != ""
      && body.BodyRead? && body.decoded.Some?
      && body.decoded.value.accountID != "" && body.decoded.value.amount > 0
    ensures v.Accepted? ==>
      v == Accepted(path[12..], body.decoded.value.accountID, body.decoded.value.amount)
    ensures httpMethod == "POST" && |path| >= 12 && path[12..] == "" ==>
      v == Rejected(ErrorResponse("Order ID is required", 400))
    ensures httpMethod == "POST" && |path| >= 12 && path[12..] != "" && body.BodyUnreadable? ==>
      v == Rejected(ErrorResponse("Failed to read request body", 400))
    ensures httpMethod == "POST" && |path| >= 12 && path[12..] != "" && body == BodyRead(None) ==>
      v == Rejected(ErrorResponse("Invalid JSON format", 400))
    ensures httpMethod == "POST" && |path| >= 12 && path[12..] != "" && body.BodyRead? && body.decoded.Some?
            && body.decoded.value.accountID == "" ==>
      v == Rejected(ErrorResponse("Account ID is required", 400))
    ensures httpMethod == "POST" && |path| >= 12 && path[12..] != "" && body.BodyRead? && body.decoded.Some?
            && body.decoded.value.accountID != "" && body.decoded.value.amount <= 0 ==>
      v == Rejected(ErrorResponse("Amount must be greater than zero", 400))
    ensures httpMethod == "POST" && |path| >= 12 && v.Rejected? ==> v.outcome.Respond? && v.outcome.status == 400
    ensures v.Rejected? && v.outcome.Respond? ==> v.outcome.status in {400, 405} && !v.outcome.response.success
  {
    if httpMethod != "POST" then Rejected(ErrorResponse("Method not allowed", 405))
    else
      match OrderIDFromPath(path)
      case None => Rejected(HandlerPanic)
      case Some(orderID) =>
        if orderID == "" then Rejected(ErrorResponse("Order ID is required", 400))
        else
          match body
          case BodyUnreadable => Rejected(ErrorResponse("Failed to read request body", 400))
          case BodyRead(None) => Rejected(ErrorResponse("Invalid JSON format", 400))
          case BodyRead(Some(req)) =>
            if req.accountID == "" then Rejected(ErrorResponse("Account ID is required", 400))
            else if req.amount <= 0 then Rejected(ErrorResponse("Amount must be greater than zero", 400))
            else Accepted(orderID, req.accountID, req.amount)
  }

  /** DeductFeeHTTPHandler's response for a store holding `balances`: a
      rejected request gets its rejection, a store error a 500 with its text,
      and a deduction a 200 with the new balance. */
  function HandlerResponse(balances: map<string, int>, httpMethod: string, path: string, body: RequestBody): (out: HandlerOutcome)
    ensures ValidateRequest(httpMethod, path, body).Rejected? ==> out == ValidateRequest(httpMethod, path, body).outcome
    ensures var v := ValidateRequest(httpMethod, path, body);
      v.Accepted? && Deduct(balances, v.accountID, v.amount).err.Some? ==>
      out == ErrorResponse(ErrorText(Deduct(balances, v.accountID, v.amount).err.value), 500)
    ensures out.Respond? ==> (out.status == 200 <==> out.response.success)
    ensures out.Respond? && out.status == 200 <==>
      ValidateRequest(httpMethod, path, body).Accepted?
      && Deduct(balances, ValidateRequest(httpMethod, path, body).accountID, ValidateRequest(httpMethod, path, body).amount).err == None
    ensures out.Respond? && out.status == 200 ==>
      out.response == FeeDeductionResponse(
        Deduct(balances, ValidateRequest(httpMethod, path, body).accountID, ValidateRequest(httpMethod, path, body).amount).returned,
        true, "Fee deducted successfully")
  {
    var v := ValidateRequest(httpMethod, path, body);
    if v.Rejected? then v.outcome
    else
      var d := Deduct(balances, v.accountID, v.amount);
      if d.err.Some? then ErrorResponse(ErrorText(d.err.value), 500)
      else Respond(200, FeeDeductionResponse(d.returned, true, "Fee deducted successfully"))
  }

  /** DeductFeeHTTPHandler serving one request against `store`: only an
      accepted request reaches DeductFee, so a rejected one leaves the store
      untouched. */
  method ServeDeductFee(store: AccountStore, httpMethod: string, path: string, body: RequestBody) returns (outcome: HandlerOutcome)
    modifies store
    ensures outcome == HandlerResponse(old(store.accounts), httpMethod, path, body)
    ensures ValidateRequest(httpMethod, path, body).Rejected? ==> store.accounts == old(store.accounts)
    ensures ValidateRequest(httpMethod, path, body).Accepted? ==>
      store.accounts == Deduct(old(store.accounts), ValidateRequest(httpMethod, path, body).accountID,
                               ValidateRequest(httpMethod, path, body).amount).balances
  {
    var v := ValidateRequest(httpMethod, path, body);
    if v.Rejected? {
      return v.outcome;
    }
    var newBalance, err := store.DeductFee(v.accountID, v.orderID, v.amount);
    if err.Some? {
      return ErrorResponse(err.value, 500);
    }
    outcome := Respond(200, FeeDeductionResponse(newBalance, true, "Fee deducted successfully"));
  }
}
