/**
  The customer account. Its source is not part of this model; the checkout
  relies only on reading the balance and debiting it.
 */
module Customers {

  class Customer {
    const name: string
    var balance: real

    constructor (name: string, balance: real)
      ensures this.name == name && this.balance == balance
    {
      this.name := name;
      this.balance := balance;
    }

    method Debit(amount: real)
      modifies this`balance
      ensures balance == old(balance) - amount
    {
      balance := balance - amount;
    }
  }
}
