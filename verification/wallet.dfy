/** The shared wallet balance, as the data page uses it (`balance` and
    `updateBalance` from WalletContext). WalletContext is not part of this
    model; its update is taken to add the delta. Amounts are integer cents. */
module WalletStore {

  class Wallet {
    var balance: int

    constructor (initial: int)
      ensures balance == initial
    {
      balance := initial;
    }

    /** `updateBalance(delta)`: no floor, so the balance may go negative. */
    method UpdateBalance(delta: int)
      modifies this
      ensures balance == old(balance) + delta
    {
      balance := balance + delta;
    }
  }
}
