/** The value-level view of the token program: the account record, the ways a handler
    call can end, and one specification function per handler that changes state.
    The class-based handlers in TokenContract are proved equal to these functions. */
module TokenModel {

  /** Largest value of Rust's `u64`. */
  const U64_MAX: int := 0xFFFF_FFFF_FFFF_FFFF

  newtype u64 = x: int | 0 <= x <= 0xFFFF_FFFF_FFFF_FFFF

  /** The contents of one `TokenAccount` record: the tokens it holds and the supply
      figure recorded on this record alone. */
  datatype Account = Account(balance: u64, supply: u64)

  /** The program's own error codes: there is exactly one. */
  datatype ErrorCode = InsufficientBalance

  /** How one handler call ends. `Err` is a declared error returned by the handler.
      `Panic` is an arithmetic overflow or underflow in an unchecked `+=` or `-=`,
      which aborts the transaction; the runtime then discards every write of the call. */
  datatype Outcome = Ok | Err(code: ErrorCode) | Panic

  /** Result of a handler on one record. */
  datatype Effect = Effect(outcome: Outcome, account: Account)

  /** Result of a transfer on its two records. */
  datatype TransferEffect = TransferEffect(outcome: Outcome, sender: Account, receiver: Account)

  /** The record written by `initialize`: both fields take the initial supply. */
  function Initialized(initialSupply: u64): Account
  {
    Account(initialSupply, initialSupply)
  }

  /** `transfer`: refuse when the sender cannot cover the amount; otherwise debit the
      sender and credit the receiver, panicking if the credit overflows. */
  function Transferred(sender: Account, receiver: Account, amount: u64): (r: TransferEffect)
    ensures r.outcome == Err(InsufficientBalance) <==> sender.balance < amount
    ensures r.outcome == Panic <==> amount <= sender.balance && receiver.balance as int + amount as int > U64_MAX
    ensures r.outcome != Ok ==> r.sender == sender && r.receiver == receiver
    ensures r.outcome == Ok ==>
              r.sender.balance as int == sender.balance as int - amount as int &&
              r.receiver.balance as int == receiver.balance as int + amount as int
    // conservation, whatever the outcome
    ensures r.sender.balance as int + r.receiver.balance as int == sender.balance as int + receiver.balance as int
    ensures r.sender.supply == sender.supply && r.receiver.supply == receiver.supply
  {
    if sender.balance < amount then
      TransferEffect(Err(InsufficientBalance), sender, receiver)
    else if receiver.balance as int + amount as int > U64_MAX then
      TransferEffect(Panic, sender, receiver)
    else
      TransferEffect(Ok, sender.(balance := sender.balance - amount),
                         receiver.(balance := receiver.balance + amount))
  }

  /** `mint`: add the amount to the supply and to the balance of one record,
      panicking if either addition overflows. */
  function Minted(a: Account, amount: u64): (r: Effect)
    ensures r.outcome != Err(InsufficientBalance)
    ensures r.outcome == Ok <==> a.supply as int + amount as int <= U64_MAX && a.balance as int + amount as int <= U64_MAX
    ensures r.outcome != Ok ==> r.account == a
    ensures r.outcome == Ok ==>
              r.account.balance as int == a.balance as int + amount as int &&
              r.account.supply as int == a.supply as int + amount as int
    // the gap between the record's supply and its balance never moves
    ensures r.account.supply as int - r.account.balance as int == a.supply as int - a.balance as int
  {
    if a.supply as int + amount as int > U64_MAX || a.balance as int + amount as int > U64_MAX then
      Effect(Panic, a)
    else
      Effect(Ok, Account(a.balance + amount, a.supply + amount))
  }

  /** `burn`: refuse when the balance cannot cover the amount; otherwise take the amount
      off the balance and off the supply. Only the balance is guarded, so the supply
      subtraction panics when the supply is below the amount. */
  function Burned(a: Account, amount: u64): (r: Effect)
    ensures r.outcome == Err(InsufficientBalance) <==> a.balance < amount
    ensures r.outcome == Panic <==> amount <= a.balance && a.supply < amount
    ensures r.outcome != Ok ==> r.account == a
    ensures r.outcome == Ok ==>
              r.account.balance as int == a.balance as int - amount as int &&
              r.account.supply as int == a.supply as int - amount as int
    ensures r.account.supply as int - r.account.balance as int == a.supply as int - a.balance as int
  {
    if a.balance < amount then
      Effect(Err(InsufficientBalance), a)
    else if a.supply < amount then
      Effect(Panic, a)
    else
      Effect(Ok, Account(a.balance - amount, a.supply - amount))
  }

  /** A successful mint is undone by a burn of the same amount: the burn passes its
      guard and restores the original (balance, supply) pair. */
  lemma MintThenBurn(a: Account, amount: u64)
    requires Minted(a, amount).outcome == Ok
    ensures Burned(Minted(a, amount).account, amount) == Effect(Ok, a)
  {
  }

  /** A successful burn is undone by a mint of the same amount, which cannot overflow
      since both fields held at least as much before the burn. */
  lemma BurnThenMint(a: Account, amount: u64)
    requires Burned(a, amount).outcome == Ok
    ensures Minted(Burned(a, amount).account, amount) == Effect(Ok, a)
  {
  }

  /** A successful transfer is undone by transferring the same amount back. */
  lemma TransferBack(sender: Account, receiver: Account, amount: u64)
    requires Transferred(sender, receiver, amount).outcome == Ok
    ensures var t := Transferred(sender, receiver, amount);
            Transferred(t.receiver, t.sender, amount) == TransferEffect(Ok, receiver, sender)
  {
  }

  /** Only the balance is guarded in `burn`: an account that was initialised empty and then
      received tokens holds a balance above its own supply, and burning that balance
      passes the guard and then underflows the supply. */
  lemma BurnOfReceivedTokensPanics()
    ensures var t := Transferred(Initialized(1000), Initialized(0), 300);
            t.outcome == Ok && t.receiver == Account(300, 0) &&
            Burned(t.receiver, 300).outcome == Panic
  {
  }
}
