# Token ledger program: a Dafny model

This project models the Solana/Anchor token program `token_contract` (file `lib.rs`).
The program keeps token account records, and each record holds two `u64` fields:
`balance` and a `supply` figure that is recorded on that record alone. Five handlers
work on these records:

- `initialize` sets both fields to the initial supply.
- `transfer` moves balance from a sender record to a distinct receiver record. It refuses
  with `InsufficientBalance` when the sender cannot cover the amount.
- `mint` adds the amount to both fields of one record.
- `burn` refuses with `InsufficientBalance` when the balance is below the amount.
  Otherwise it subtracts the amount from both fields.
- `query_balance` returns the balance.

The project has three modules:

- `TokenModel` (`token_model.dfy`) defines the record as a value (`Account`), the error
  code and the outcomes of a call. It gives one specification function per mutating
  handler and proves the inverse laws between handlers.
- `TokenContract` (`token_contract.dfy`) defines the class `TokenAccount`, whose fields the
  handler methods update in place. Each state-changing handler is proved to yield exactly the
  outcome and the record values of its specification function. `QueryBalance` only reads.
- `Ledger` (`ledger.dfy`) runs handler calls one after another over a store of records
  addressed by index. The host runtime applies calls one at a time, but it addresses
  accounts by key; an index here stands for an account's address. It proves a ledger-wide
  fact. Any single record's `supply` may drift away from its `balance`, because transfers
  move balance only. Even so, no call changes the sum of all supplies minus the sum of all
  balances. So on a store built from nothing, the two sums are equal. This rests on every
  transfer naming two distinct accounts, which the model requires and the source does
  not check.

Arithmetic decisions:

- The handlers use plain `+=` and `-=` on `u64` (`lib.rs:27`, `lib.rs:36-37`, `lib.rs:51`).
  The model treats an overflow or underflow there as a panic. The outcome `Panic` aborts
  the transaction, and the runtime discards all of the call's writes, so the records are
  unchanged. `Panic` is not an error code, because the program declares only
  `InsufficientBalance`.
- The program declares no `Overflow` or `Underflow` error kind, and the model adds none.
- In `transfer`, the source debits the sender before the receiver's credit can panic. The
  runtime rolls back that debit, so the model checks the credit first and writes nothing on
  a panic. The observable result is the same.
- `burn` guards only the balance (`lib.rs:46`). A record whose supply is below the amount
  therefore passes the guard and then panics at `lib.rs:51`. `TokenModel.BurnOfReceivedTokensPanics`
  shows this with the receiver of a transfer.

## Model

| member | source | states |
|---|---|---|
| `TokenContract.Initialize` | lib.rs:10-15 | always `Ok`; both fields of the record become the initial supply, whatever they held before |
| `TokenModel.Transferred` | lib.rs:18-30 | `InsufficientBalance` exactly when the sender's balance is below the amount; a panic exactly when the receiver's credit overflows `u64`; any outcome other than `Ok` leaves both records unchanged; on `Ok` the sender loses and the receiver gains the amount; the sum of the two balances is conserved and both supplies are untouched in every case |
| `TokenContract.Transfer` | lib.rs:18-30 | for distinct records, the outcome and the new contents of both records are those `TokenModel.Transferred` gives for their old contents |
| `TokenModel.TransferBack` | lib.rs:18-30 | a successful transfer followed by a transfer of the same amount back succeeds and restores both records |
| `TokenModel.Minted` | lib.rs:33-40 | never `InsufficientBalance`; `Ok` exactly when neither field overflows; on `Ok` both fields grow by the amount, otherwise the record is unchanged; supply minus balance never changes |
| `TokenContract.Mint` | lib.rs:33-40 | the outcome and the new record are those `TokenModel.Minted` gives for its old contents |
| `TokenModel.Burned` | lib.rs:43-54 | `InsufficientBalance` exactly when the balance is below the amount; a panic exactly when the balance covers the amount but the supply does not; any outcome other than `Ok` leaves the record unchanged; on `Ok` both fields shrink by the amount; supply minus balance never changes |
| `TokenContract.Burn` | lib.rs:43-54 | the outcome and the new record are those `TokenModel.Burned` gives for its old contents |
| `TokenModel.MintThenBurn` | lib.rs:33-54 | after a successful mint, a burn of the same amount succeeds and restores the original (balance, supply) pair |
| `TokenModel.BurnThenMint` | lib.rs:33-54 | after a successful burn, a mint of the same amount cannot overflow and restores the original pair |
| `TokenModel.BurnOfReceivedTokensPanics` | lib.rs:43-54 | a record initialised with 0 that received 300 by transfer holds balance 300 and supply 0, and burning 300 passes the balance guard but underflows the supply |
| `TokenContract.QueryBalance` | lib.rs:57-59 | always succeeds with the record's balance and changes nothing |
| `Ledger.Apply` | lib.rs:10-54 | a call that does not end `Ok` leaves the whole store unchanged; only `initialize` adds a record |
| `Ledger.ApplyTotals` | lib.rs:10-54 | a transfer changes neither the total balance nor the total supply; `initialize`, a successful mint and a successful burn change both totals by the same amount; so no call changes total supply minus total balance |
| `Ledger.RunKeepsSurplus` | lib.rs:10-54 | no sequence of handler calls changes total supply minus total balance |
| `Ledger.SuppliesMatchBalances` | lib.rs:96-100 | on a store built from nothing by handler calls, each transfer between two distinct records, the supplies recorded on all records add up exactly to their balances |

## Left out

- Anchor plumbing is not modelled: `declare_id!`, the `#[program]` and `Context` wiring, and the `#[derive(Accounts)]` structs (`lib.rs:3`, `lib.rs:62-94`). These are bindings to a framework whose code is not part of this model.
- Account allocation, rent, the payer and signer checks and `system_program` are not modelled (`lib.rs:64-68`). The runtime performs these. In `Ledger`, `initialize` always appends a fresh record, and re-initialising an existing account is the storage layer's refusal, which is not modelled.
- Serialisation of `TokenAccount` and its 8-byte discriminator are not modelled. They are storage I/O.
- `TokenContract.Transfer` requires two distinct records. What Anchor does when the same account is passed as both sender and receiver depends on its deserialisation and write-back, which is not part of this model. `Ledger` likewise admits only transfers between two distinct existing indices.
- Whether unchecked `+=`/`-=` panics or wraps depends on a build profile that is not part of this model. The model takes the panic reading (see above) and does not model wrap-around.
- The error message string of `InsufficientBalance` (`lib.rs:104`) is not modelled.
- The atomic rollback of a panicked call is taken as given from the runtime: the model's `Panic` outcome simply leaves the records unchanged.
