/**
 * The HTTP surface of the ledger: a withdrawal request goes to the account
 * service; a success is published as an event, a client error answers 400
 * and a server error 500; the body is the result's description. Account
 * creation and balance lookup are passed straight through.
 */
module Controllers {
  import opened Wrappers
  import opened WithdrawalResults
  import opened AccountServices
  import opened SnsServices

  const SC_OK: int := 200
  const SC_BAD_REQUEST: int := 400
  const SC_INTERNAL_SERVER_ERROR: int := 500

  /** The servlet response; only its status code is modelled. */
  class HttpServletResponse {
    var status: int

    constructor ()
      ensures status == SC_OK
    {
      status := SC_OK;
    }

    method SetStatus(sc: int)
      modifies this
      ensures status == sc
    {
      status := sc;
    }
  }

  /** What the controller does with a withdrawal result. */
  datatype Reaction = Publish | SetStatus(code: int) | NoReaction

  /** The controller's branch on the result: publish, or set an error status. */
  function ReactionTo(result: WithdrawalResult): (a: Reaction)
    ensures a == Publish <==> result.IsSuccess()
    ensures a == SetStatus(SC_BAD_REQUEST) <==> result.IsClientError()
    ensures a == SetStatus(SC_INTERNAL_SERVER_ERROR) <==> result.IsServerError()
    ensures a != NoReaction
  {
    if result == Success then Publish
    else if result.IsClientError() then SetStatus(SC_BAD_REQUEST)
    else if result.IsServerError() then SetStatus(SC_INTERNAL_SERVER_ERROR)
    else NoReaction
  }

  class BankAccountController {
    const accountService: AccountService
    const snsService: SnsService

    ghost predicate Valid()
      reads this, accountService, snsService
    {
      accountService.Valid() && snsService.Valid()
    }

    constructor (accountService: AccountService, snsService: SnsService)
      requires accountService.Valid() && snsService.Valid()
      ensures Valid()
      ensures this.accountService == accountService && this.snsService == snsService
    {
      this.accountService := accountService;
      this.snsService := snsService;
    }

    method Withdraw(accountId: int, amount: real, response: HttpServletResponse) returns (body: string)
      requires Valid()
      modifies accountService, snsService, response
      ensures Valid()
      ensures var o := Withdrawal(old(accountService.accounts), accountId, amount);
        && accountService.accounts == o.store
        && body == o.result.ToString()
        && (o.result == Success ==> snsService.PublishedWithdrawal(accountId, amount) && response.status == old(response.status))
        && (o.result.IsClientError() ==> unchanged(snsService) && response.status == SC_BAD_REQUEST)
        && (o.result.IsServerError() ==> unchanged(snsService) && response.status == SC_INTERNAL_SERVER_ERROR)
    {
      var result := accountService.Withdraw(accountId, amount);
      match ReactionTo(result) {
        case Publish =>
          snsService.PublishWithdrawal(accountId, amount);
        case SetStatus(code) =>
          response.SetStatus(code);
        case NoReaction =>
      }
      body := result.ToString();
    }

    method Add(balance: real) returns (id: int)
      requires Valid()
      modifies accountService
      ensures Valid()
      ensures id !in old(accountService.accounts)
      ensures accountService.accounts == old(accountService.accounts)[id := balance]
    {
      id := accountService.Add(balance);
    }

    method Balance(accountId: int) returns (r: Result<real, NoSuchElement>)
      ensures r.Ok? <==> accountId in accountService.accounts
      ensures r.Ok? ==> r.value == accountService.accounts[accountId]
      ensures r.Err? ==> r.error == NoSuchAccount(accountId)
    {
      r := accountService.Balance(accountId);
    }
  }
}
