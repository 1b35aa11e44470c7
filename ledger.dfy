/** The program's handlers run one after another by the host over a store of account
    records, each record addressed by its index. The supply figure lives on each record,
    so it says nothing about the ledger as a whole; this module proves what does hold
    ledger-wide: no handler call changes the sum of the supplies minus the sum of the
    balances, so on a ledger whose accounts were all created by `initialize` the two
    sums are equal. */
module Ledger {
  import opened TokenModel

  /** One handler invocation with the indices of the records it is given. */
  datatype Call =
    | Initialize(initialSupply: u64)
    | Transfer(from: nat, to: nat, amount: u64)
    | Mint(target: nat, amount: u64)
    | Burn(target: nat, amount: u64)

  /** The host passes existing records only, and two distinct ones to a transfer;
      `initialize` creates a new record at the end of the store. */
  predicate Admits(ledger: seq<Account>, c: Call)
  {
    match c
    case Initialize(_) => true
    case Transfer(from, to, _) => from < |ledger| && to < |ledger| && from != to
    case Mint(target, _) => target < |ledger|
    case Burn(target, _) => target < |ledger|
  }

  datatype Step = Step(outcome: Outcome, ledger: seq<Account>)

  /** The outcome of one call and the store afterwards. A call that does not end `Ok`
      leaves the store as it was. */
  function Apply(ledger: seq<Account>, c: Call): (r: Step)
    requires Admits(ledger, c)
    ensures r.outcome != Ok ==> r.ledger == ledger
    ensures |r.ledger| == |ledger| + (if c.Initialize? then 1 else 0)
  {
    match c
    case Initialize(initialSupply) =>
      Step(Ok, ledger + [Initialized(initialSupply)])
    case Transfer(from, to, amount) =>
      var t := Transferred(ledger[from], ledger[to], amount);
      Step(t.outcome, ledger[from := t.sender][to := t.receiver])
    case Mint(target, amount) =>
      var e := Minted(ledger[target], amount);
      Step(e.outcome, ledger[target := e.account])
    case Burn(target, amount) =>
      var e := Burned(ledger[target], amount);
      Step(e.outcome, ledger[target := e.account])
  }

  /** Sum of the balances of all records. */
  function TotalBalance(ledger: seq<Account>): int
  {
    if ledger == [] then 0 else TotalBalance(ledger[..|ledger| - 1]) + ledger[|ledger| - 1].balance as int
  }

  /** Sum of the supply figures of all records. */
  function TotalSupply(ledger: seq<Account>): int
  {
    if ledger == [] then 0 else TotalSupply(ledger[..|ledger| - 1]) + ledger[|ledger| - 1].supply as int
  }

  /** The ledger-wide quantity no handler call changes. */
  function Surplus(ledger: seq<Account>): int
  {
    TotalSupply(ledger) - TotalBalance(ledger)
  }

  /** Replacing one record changes each sum by the difference between new and old. */
  lemma {:induction false} TotalsOfUpdate(ledger: seq<Account>, i: nat, a: Account)
    requires i < |ledger|
    ensures TotalBalance(ledger[i := a]) == TotalBalance(ledger) - ledger[i].balance as int + a.balance as int
    ensures TotalSupply(ledger[i := a]) == TotalSupply(ledger) - ledger[i].supply as int + a.supply as int
  {
    var n := |ledger| - 1;
    var updated := ledger[i := a];
    if i < n {
      TotalsOfUpdate(ledger[..n], i, a);
      assert updated[..n] == ledger[..n][i := a];
    } else {
      assert updated[..n] == ledger[..n];
    }
  }

  /** How one handler call moves the two ledger-wide sums: a transfer moves neither
      (it conserves the balances it touches), `initialize`, a successful mint and a
      successful burn move both by the same amount. So no call changes the surplus. */
  lemma ApplyTotals(ledger: seq<Account>, c: Call)
    requires Admits(ledger, c)
    ensures var after := Apply(ledger, c);
            var delta := match c
                         case Initialize(initialSupply) => initialSupply as int
                         case Transfer(_, _, _) => 0
                         case Mint(_, amount) => if after.outcome == Ok then amount as int else 0
                         case Burn(_, amount) => if after.outcome == Ok then -(amount as int) else 0;
            TotalBalance(after.ledger) == TotalBalance(ledger) + delta &&
            TotalSupply(after.ledger) == TotalSupply(ledger) + delta
    ensures Surplus(Apply(ledger, c).ledger) == Surplus(ledger)
  {
    match c
    case Initialize(initialSupply) =>
      var after := ledger + [Initialized(initialSupply)];
      assert after[..|after| - 1] == ledger;
    case Transfer(from, to, amount) =>
      var t := Transferred(ledger[from], ledger[to], amount);
      TotalsOfUpdate(ledger, from, t.sender);
      TotalsOfUpdate(ledger[from := t.sender], to, t.receiver);
    case Mint(target, amount) =>
      TotalsOfUpdate(ledger, target, Minted(ledger[target], amount).account);
    case Burn(target, amount) =>
      TotalsOfUpdate(ledger, target, Burned(ledger[target], amount).account);
  }

  /** Calls the host can make one after another from `ledger`. */
  predicate Admissible(ledger: seq<Account>, calls: seq<Call>)
    decreases |calls|
  {
    calls == [] || (Admits(ledger, calls[0]) && Admissible(Apply(ledger, calls[0]).ledger, calls[1..]))
  }

  /** The store after running `calls` in order. */
  function Run(ledger: seq<Account>, calls: seq<Call>): seq<Account>
    requires Admissible(ledger, calls)
    decreases |calls|
  {
    if calls == [] then ledger else Run(Apply(ledger, calls[0]).ledger, calls[1..])
  }

  /** No sequence of handler calls changes the ledger's surplus. */
  lemma {:induction false} RunKeepsSurplus(ledger: seq<Account>, calls: seq<Call>)
    requires Admissible(ledger, calls)
    ensures Surplus(Run(ledger, calls)) == Surplus(ledger)
    decreases |calls|
  {
    if calls != [] {
      ApplyTotals(ledger, calls[0]);
      RunKeepsSurplus(Apply(ledger, calls[0]).ledger, calls[1..]);
    }
  }

  /** Starting from an empty store, the supplies recorded on all accounts add up to
      exactly the balances they hold, although a single account's supply may be above
      or below its balance. */
  lemma SuppliesMatchBalances(calls: seq<Call>)
    requires Admissible([], calls)
    ensures TotalSupply(Run([], calls)) == TotalBalance(Run([], calls))
  {
    RunKeepsSurplus([], calls);
  }
}
