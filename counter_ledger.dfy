/** The counter account as the handlers change it: in place, through a
    mutable borrow of the account, with events appended to the
    transaction's log. */
module CounterLedger {
  import opened Wrappers
  import opened Solana
  import opened CounterProgram

  class Counter {
    const program: Program
    /** The stored `count`; None while the account does not exist. */
    var count: Option<u64>
    /** Every event emitted so far, oldest first. */
    var events: seq<Event>

    /** The ledger before the counter account is created. */
    constructor (program: Program)
      ensures this.program == program
      ensures count == None && events == []
    {
      this.program := program;
      count := None;
      events := [];
    }

    ghost function Snapshot(): Ledger
      reads this
    {
      Ledger(count, events)
    }

    /** `initialize::handler` behind the `InitializeAccounts` constraints. */
    method Initialize(accounts: Accounts) returns (outcome: Outcome)
      modifies this
      ensures Step(Snapshot(), outcome) == CounterProgram.Initialize(program, old(Snapshot()), accounts)
    {
      if !accounts.payerSigned {
        return Err(AccountNotSigner);
      }
      if accounts.counter != CounterAddress(program) {
        return Err(ConstraintSeeds);
      }
      if count.Some? {
        return Err(AccountAlreadyInUse);
      }
      count := Some(0);
      events := events + [CounterInitialized(accounts.counter, accounts.payer)];
      outcome := Ok;
    }

    /** The account checks `IncrementAccounts` and `DecrementAccounts`
        share. */
    method CheckAccounts(accounts: Accounts) returns (error: Option<ProgramError>)
      ensures error == CheckExisting(program, Snapshot(), accounts)
      ensures error.None? <==> accounts.payerSigned && accounts.counter == CounterAddress(program) && count.Some?
      ensures !accounts.payerSigned ==> error == Some(AccountNotSigner)
      ensures accounts.payerSigned && accounts.counter != CounterAddress(program) ==> error == Some(ConstraintSeeds)
      ensures accounts.payerSigned && accounts.counter == CounterAddress(program) && count.None? ==>
        error == Some(AccountNotInitialized)
    {
      if !accounts.payerSigned {
        return Some(AccountNotSigner);
      }
      if accounts.counter != CounterAddress(program) {
        return Some(ConstraintSeeds);
      }
      if count.None? {
        return Some(AccountNotInitialized);
      }
      error := None;
    }

    /** `increment::handler` behind the `IncrementAccounts` constraints. */
    method Increment(accounts: Accounts) returns (outcome: Outcome)
      modifies this
      ensures Step(Snapshot(), outcome) == CounterProgram.Increment(program, old(Snapshot()), accounts)
    {
      var error := CheckAccounts(accounts);
      if error.Some? {
        return Err(error.value);
      }
      var next := CheckedAdd(count.value, 1);
      if next.None? {
        return Err(Custom(Overflow));
      }
      count := next;
      events := events + [CounterUpdated(accounts.counter, accounts.payer, next.value)];
      outcome := Ok;
    }

    /** `decrement::handler` behind the `DecrementAccounts` constraints. */
    method Decrement(accounts: Accounts) returns (outcome: Outcome)
      modifies this
      ensures Step(Snapshot(), outcome) == CounterProgram.Decrement(program, old(Snapshot()), accounts)
    {
      var error := CheckAccounts(accounts);
      if error.Some? {
        return Err(error.value);
      }
      var next := CheckedSub(count.value, 1);
      if next.None? {
        return Err(Custom(Underflow));
      }
      count := next;
      events := events + [CounterUpdated(accounts.counter, accounts.payer, next.value)];
      outcome := Ok;
    }
  }
}
