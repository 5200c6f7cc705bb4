/**
 * The persisted account entity. Its id is assigned by the store on first
 * save (null until then); its balance is exact decimal money, modelled as a
 * `real`.
 */
module Accounts {
  import opened Wrappers

  class Account {
    var id: Option<int>
    var balance: real

    /** A new, not yet saved account: the store has not assigned an id. */
    constructor (balance: real)
      ensures this.balance == balance && id == None
    {
      this.balance := balance;
      id := None;
    }

    /** The entity as the store hands it back from a lookup by id. */
    constructor Stored(id: int, balance: real)
      ensures this.id == Some(id) && this.balance == balance
    {
      this.id := Some(id);
      this.balance := balance;
    }

    function GetId(): Option<int>
      reads this
    {
      id
    }

    function GetBalance(): real
      reads this
    {
      balance
    }

    /**
     * Guarded subtraction. `ok == false` stands for the "Insufficient funds."
     * exception, thrown before anything is changed. The frame keeps `id`.
     */
    method WithDraw(amount: real) returns (ok: bool)
      modifies this`balance
      ensures ok <==> old(balance) >= amount
      ensures ok ==> balance == old(balance) - amount && balance >= 0.0
      ensures !ok ==> balance == old(balance)
    {
      if balance < amount {
        return false;
      }
      balance := balance - amount;
      return true;
    }
  }
}
