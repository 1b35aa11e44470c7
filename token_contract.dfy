/** The program's handlers over mutable account records. Each handler updates the fields
    of the records it is given in place, as the on-chain program does. Each handler that
    changes state is proved to produce exactly the outcome and the record values of the
    matching function in TokenModel; `QueryBalance` only reads. */
module TokenContract {
  import opened TokenModel

  /** Result of a handler that returns a value, mirroring the `Result<u64>` signature of
      `query_balance`; that handler never fails, so `Failure` is never built here. */
  datatype Result<T> = Success(value: T) | Failure(code: ErrorCode)

  /** One token account record as stored by the runtime. */
  class TokenAccount {
    var balance: u64
    var supply: u64

    /** The record's current contents as a value. */
    function Value(): Account
      reads this
    {
      Account(balance, supply)
    }
  }

  /** `initialize`: both fields take the initial supply, whatever they held before. */
  method Initialize(tokenAccount: TokenAccount, initialSupply: u64) returns (r: Outcome)
    modifies tokenAccount
    ensures r == Ok
    ensures tokenAccount.balance == initialSupply && tokenAccount.supply == initialSupply
    ensures tokenAccount.Value() == Initialized(initialSupply)
  {
    tokenAccount.supply := initialSupply;
    tokenAccount.balance := initialSupply;
    r := Ok;
  }

  /** `transfer`: moves `amount` of balance from `sender` to `receiver`. The two records
      must be distinct. A panic in the receiver's credit aborts the call, and the runtime
      discards the sender's debit with it, so the debit is made only once the credit is
      known to fit. */
  method Transfer(sender: TokenAccount, receiver: TokenAccount, amount: u64) returns (r: Outcome)
    requires sender != receiver
    modifies sender, receiver
    ensures TransferEffect(r, sender.Value(), receiver.Value())
         == Transferred(old(sender.Value()), old(receiver.Value()), amount)
  {
    if sender.balance < amount {
      return Err(InsufficientBalance);
    }
    if receiver.balance as int + amount as int > U64_MAX {
      return Panic;
    }
    sender.balance := sender.balance - amount;
    receiver.balance := receiver.balance + amount;
    r := Ok;
  }

  /** `mint`: adds `amount` to both the supply and the balance of one record. */
  method Mint(tokenAccount: TokenAccount, amount: u64) returns (r: Outcome)
    modifies tokenAccount
    ensures Effect(r, tokenAccount.Value()) == Minted(old(tokenAccount.Value()), amount)
  {
    if tokenAccount.supply as int + amount as int > U64_MAX
       || tokenAccount.balance as int + amount as int > U64_MAX {
      return Panic;
    }
    tokenAccount.supply := tokenAccount.supply + amount;
    tokenAccount.balance := tokenAccount.balance + amount;
    r := Ok;
  }

  /** `burn`: refuses when the balance is below `amount`, otherwise subtracts `amount`
      from the balance and the supply. */
  method Burn(tokenAccount: TokenAccount, amount: u64) returns (r: Outcome)
    modifies tokenAccount
    ensures Effect(r, tokenAccount.Value()) == Burned(old(tokenAccount.Value()), amount)
  {
    if tokenAccount.balance < amount {
      return Err(InsufficientBalance);
    }
    if tokenAccount.supply < amount {
      return Panic;
    }
    tokenAccount.balance := tokenAccount.balance - amount;
    tokenAccount.supply := tokenAccount.supply - amount;
    r := Ok;
  }

  /** `query_balance`: always succeeds with the record's balance and changes nothing. */
  method QueryBalance(tokenAccount: TokenAccount) returns (r: Result<u64>)
    ensures r == Success(tokenAccount.balance)
  {
    r := Success(tokenAccount.balance);
  }

  /** A sample session: two accounts, a transfer, a mint, a refused burn and a burn that
      underflows the supply, reasoned about through the handlers' contracts alone. */
  method ExampleSession()
  {
    var alice := new TokenAccount;
    var bob := new TokenAccount;
    var r := Initialize(alice, 1000);
    assert alice.Value() == Account(1000, 1000);
    r := Initialize(bob, 0);
    r := Transfer(alice, bob, 300);
    assert r == Ok && alice.balance == 700 && bob.balance == 300;
    assert alice.supply == 1000 && bob.supply == 0;
    r := Mint(alice, 50);
    assert r == Ok && alice.Value() == Account(750, 1050);
    r := Burn(alice, 800);
    assert r == Err(InsufficientBalance) && alice.Value() == Account(750, 1050);
    var q := QueryBalance(bob);
    assert q == Success(300);
    // bob's balance exceeds his own supply, so burning it underflows the supply
    r := Burn(bob, 300);
    assert r == Panic && bob.Value() == Account(300, 0);
  }
}
