/**
 * The ledger: a store of accounts keyed by id, the validation ladder of a
 * withdrawal, account creation and balance lookup.
 */
module AccountServices {
  import opened Wrappers
  import opened WithdrawalResults
  import opened Accounts

  /** The repository's contents: account id to balance. */
  type Store = map<int, real>

  /** What a withdrawal reports and the store it leaves behind. */
  datatype Ledgered = Ledgered(result: WithdrawalResult, store: Store)

  /** The error `balance` raises for an id that is not stored. */
  datatype NoSuchElement = NoSuchAccount(accountId: int)

  ghost predicate NonNegative(store: Store) {
    forall id :: id in store ==> store[id] >= 0.0
  }

  /**
   * The withdrawal ladder: negative amount, zero amount, unknown account,
   * insufficient funds, and otherwise success with the balance reduced.
   */
  function Withdrawal(store: Store, accountId: int, amount: real): (o: Ledgered)
    ensures o.result == Success <==> 0.0 < amount && accountId in store && amount <= store[accountId]
    ensures o.result == Success ==> o.store == store[accountId := store[accountId] - amount]
    ensures o.result != Success ==> o.store == store
    ensures o.result != ErrUnknown
  {
    if amount < 0.0 then Ledgered(ErrNegativeAmount, store)
    else if amount == 0.0 then Ledgered(ErrZeroAmount, store)
    else if accountId !in store then Ledgered(ErrUnknownAccount, store)
    else if store[accountId] >= amount then Ledgered(Success, store[accountId := store[accountId] - amount])
    else Ledgered(ErrInsufficientFunds, store)
  }

  lemma NegativeAmountRejected(store: Store, accountId: int, amount: real)
    requires amount < 0.0
    ensures Withdrawal(store, accountId, amount) == Ledgered(ErrNegativeAmount, store)
  {
  }

  lemma ZeroAmountRejected(store: Store, accountId: int)
    ensures Withdrawal(store, accountId, 0.0) == Ledgered(ErrZeroAmount, store)
  {
  }

  lemma UnknownAccountRejected(store: Store, accountId: int, amount: real)
    requires 0.0 < amount && accountId !in store
    ensures Withdrawal(store, accountId, amount) == Ledgered(ErrUnknownAccount, store)
  {
  }

  lemma InsufficientFundsRejected(store: Store, accountId: int, amount: real)
    requires accountId in store && 0.0 < amount && store[accountId] < amount
    ensures Withdrawal(store, accountId, amount) == Ledgered(ErrInsufficientFunds, store)
  {
  }

  /** A covered withdrawal takes exactly `amount` from that account and touches no other. */
  lemma CoveredWithdrawalSucceeds(store: Store, accountId: int, amount: real)
    requires accountId in store && 0.0 < amount <= store[accountId]
    ensures var o := Withdrawal(store, accountId, amount);
      && o.result == Success
      && o.store.Keys == store.Keys
      && o.store[accountId] == store[accountId] - amount
      && forall id :: id in store && id != accountId ==> o.store[id] == store[id]
  {
  }

  /** No withdrawal can drive a balance below zero. */
  lemma WithdrawalKeepsBalancesNonNegative(store: Store, accountId: int, amount: real)
    requires NonNegative(store)
    ensures NonNegative(Withdrawal(store, accountId, amount).store)
  {
  }

  /** Of two withdrawals of 60 from a balance of 100, one succeeds and one is refused, leaving 40. */
  lemma SecondOverdraftRefused(store: Store, accountId: int)
    requires accountId in store && store[accountId] == 100.0
    ensures var first := Withdrawal(store, accountId, 60.0);
      var second := Withdrawal(first.store, accountId, 60.0);
      && first.result == Success
      && second.result == ErrInsufficientFunds
      && second.store[accountId] == 40.0
  {
  }

  class AccountService {
    /** The account repository. */
    var accounts: Store
    /** The next id the store's identity column hands out. */
    var nextId: int

    ghost predicate Valid()
      reads this
    {
      forall id :: id in accounts ==> id < nextId
    }

    /** A service over a repository that may already hold accounts, with the next id its identity column will hand out. */
    constructor (accounts: Store, nextId: int)
      requires forall id :: id in accounts ==> id < nextId
      ensures Valid() && this.accounts == accounts && this.nextId == nextId
    {
      this.accounts := accounts;
      this.nextId := nextId;
    }

    method Withdraw(accountId: int, amount: real) returns (r: WithdrawalResult)
      requires Valid()
      modifies this`accounts
      ensures Valid()
      ensures Ledgered(r, accounts) == Withdrawal(old(accounts), accountId, amount)
    {
      if amount < 0.0 {
        return ErrNegativeAmount;
      } else if amount == 0.0 {
        return ErrZeroAmount;
      }
      if accountId !in accounts {
        return ErrUnknownAccount;
      }
      var account := new Account.Stored(accountId, accounts[accountId]);
      var currentBalance := account.GetBalance();
      if currentBalance >= amount {
        var ok := account.WithDraw(amount);
        // the entity's guard never fires on this path
        assert ok;
        accounts := accounts[accountId := account.balance];
        return Success;
      } else {
        return ErrInsufficientFunds;
      }
    }

    /** Creates an account; the store assigns it an id not used before. */
    method Add(balance: real) returns (id: int)
      requires Valid()
      modifies this
      ensures Valid()
      ensures id !in old(accounts)
      ensures accounts == old(accounts)[id := balance]
    {
      var account := new Account(balance);
      // saveAndFlush: the identity column assigns the id
      id := nextId;
      nextId := nextId + 1;
      account.id := Some(id);
      accounts := accounts[id := account.GetBalance()];
    }

    method Balance(accountId: int) returns (r: Result<real, NoSuchElement>)
      ensures r.Ok? <==> accountId in accounts
      ensures r.Ok? ==> r.value == accounts[accountId]
      ensures r.Err? ==> r.error == NoSuchAccount(accountId)
    {
      if accountId !in accounts {
        return Err(NoSuchAccount(accountId));
      }
      var account := new Account.Stored(accountId, accounts[accountId]);
      return Ok(account.GetBalance());
    }
  }
}
