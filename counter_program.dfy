/** The on-chain counter program: one counter account at a program-derived
    address, created by `initialize` and moved by `increment` and
    `decrement` with checked arithmetic. Each instruction is a function
    from the ledger before it to the ledger after it and its outcome. */
module CounterProgram {
  import opened Wrappers
  import opened Solana

  /** The bytes of "counter_seed", the counter account's only seed. */
  const COUNTER_SEED: Seed := [0x63, 0x6f, 0x75, 0x6e, 0x74, 0x65, 0x72, 0x5f, 0x73, 0x65, 0x65, 0x64]

  /** The counter account's address: `seeds = [seeds::COUNTER]` under the
      program's id. */
  function CounterAddress(program: Program): Pubkey {
    DeriveAddress(program, [COUNTER_SEED])
  }

  /** The program's own errors (`#[error_code] enum CounterError`). */
  datatype CounterError = Overflow | Underflow

  /** The error's code, its variant name. */
  function ErrorCode(e: CounterError): string {
    match e
    case Overflow => "Overflow"
    case Underflow => "Underflow"
  }

  /** Anchor numbers an `#[error_code]` enum from 6000 in declaration order. */
  function ErrorNumber(e: CounterError): nat {
    match e
    case Overflow => 6000
    case Underflow => 6001
  }

  function ErrorMessage(e: CounterError): string {
    match e
    case Overflow => "Counter overflow: cannot increment beyond u64::MAX"
    case Underflow => "Counter underflow: cannot decrement below zero"
  }

  /** Why an instruction fails: the program's own errors, or one of the
      account constraints the instruction's `Accounts` struct declares. */
  datatype ProgramError =
    | Custom(error: CounterError)
      /** `payer: Signer<'info>` on an account that did not sign. */
    | AccountNotSigner
      /** `seeds = [seeds::COUNTER]` on an account other than the PDA. */
    | ConstraintSeeds
      /** `init` on an account that already exists. */
    | AccountAlreadyInUse
      /** `Account<'info, Counter>` on an account that holds no counter. */
    | AccountNotInitialized

  datatype Outcome = Ok | Err(error: ProgramError)

  /** The program's events (`#[event]` structs). */
  datatype Event =
    | CounterInitialized(counter: Pubkey, caller: Pubkey)
    | CounterUpdated(counter: Pubkey, caller: Pubkey, count: u64)

  /** The accounts an instruction is given: the payer, whether it signed,
      and the account passed as the counter. */
  datatype Accounts = Accounts(payer: Pubkey, payerSigned: bool, counter: Pubkey)

  /** What the program can see and change: the count stored in the counter
      account (None while the account does not exist) and the events
      emitted so far. */
  datatype Ledger = Ledger(count: Option<u64>, events: seq<Event>)

  const Fresh: Ledger := Ledger(None, [])

  /** The ledger after an instruction, and whether it succeeded. */
  datatype Step = Step(ledger: Ledger, outcome: Outcome)

  /** Rust `u64::checked_add`. */
  function CheckedAdd(a: u64, b: u64): (r: Option<u64>)
    ensures r.Some? <==> a + b <= U64_MAX
    ensures r.Some? ==> r.value == a + b
  {
    if a + b <= U64_MAX then Some(a + b) else None
  }

  /** Rust `u64::checked_sub`. */
  function CheckedSub(a: u64, b: u64): (r: Option<u64>)
    ensures r.Some? <==> a >= b
    ensures r.Some? ==> r.value == a - b
  {
    if a >= b then Some(a - b) else None
  }

  /** The constraints `increment` and `decrement` share: a signing payer
      and an existing counter account at the counter PDA. */
  function CheckExisting(program: Program, l: Ledger, a: Accounts): (r: Option<ProgramError>)
    ensures r.None? <==> a.payerSigned && a.counter == CounterAddress(program) && l.count.Some?
    ensures !a.payerSigned ==> r == Some(AccountNotSigner)
    ensures a.payerSigned && a.counter != CounterAddress(program) ==> r == Some(ConstraintSeeds)
    ensures a.payerSigned && a.counter == CounterAddress(program) && l.count.None? ==> r == Some(AccountNotInitialized)
  {
    if !a.payerSigned then Some(AccountNotSigner)
    else if a.counter != CounterAddress(program) then Some(ConstraintSeeds)
    else if l.count.None? then Some(AccountNotInitialized)
    else None
  }

  /** `initialize`: creates the counter account at the PDA with count 0 and
      emits `CounterInitialized`. */
  function Initialize(program: Program, l: Ledger, a: Accounts): (s: Step)
    ensures s.outcome.Ok? <==> a.payerSigned && a.counter == CounterAddress(program) && l.count.None?
    ensures s.outcome.Ok? ==> s.ledger.count == Some(0)
    ensures s.outcome.Ok? ==> s.ledger.events == l.events + [CounterInitialized(CounterAddress(program), a.payer)]
    ensures s.outcome.Err? ==> s.ledger == l
    ensures !a.payerSigned ==> s.outcome == Err(AccountNotSigner)
    ensures a.payerSigned && a.counter != CounterAddress(program) ==> s.outcome == Err(ConstraintSeeds)
    ensures a.payerSigned && a.counter == CounterAddress(program) && l.count.Some? ==> s.outcome == Err(AccountAlreadyInUse)
  {
    if !a.payerSigned then Step(l, Err(AccountNotSigner))
    else if a.counter != CounterAddress(program) then Step(l, Err(ConstraintSeeds))
    else if l.count.Some? then Step(l, Err(AccountAlreadyInUse))
    else Step(Ledger(Some(0), l.events + [CounterInitialized(a.counter, a.payer)]), Ok)
  }

  /** `increment`: adds one to the count, failing with `Overflow` at
      2^64 - 1, and emits `CounterUpdated` with the new count. */
  function Increment(program: Program, l: Ledger, a: Accounts): (s: Step)
    ensures s.outcome.Ok? <==>
      a.payerSigned && a.counter == CounterAddress(program) && l.count.Some? && l.count.value < U64_MAX
    ensures s.outcome.Ok? ==> s.ledger.count == Some(l.count.value + 1)
    ensures s.outcome.Ok? ==>
      s.ledger.events == l.events + [CounterUpdated(CounterAddress(program), a.payer, l.count.value + 1)]
    ensures s.outcome.Err? ==> s.ledger == l
    ensures !a.payerSigned ==> s.outcome == Err(AccountNotSigner)
    ensures a.payerSigned && a.counter != CounterAddress(program) ==> s.outcome == Err(ConstraintSeeds)
    ensures a.payerSigned && a.counter == CounterAddress(program) && l.count.None? ==> s.outcome == Err(AccountNotInitialized)
    ensures a.payerSigned && a.counter == CounterAddress(program) && l.count == Some(U64_MAX) ==> s.outcome == Err(Custom(Overflow))
  {
    match CheckExisting(program, l, a)
    case Some(e) => Step(l, Err(e))
    case None =>
      match CheckedAdd(l.count.value, 1)
      case None => Step(l, Err(Custom(Overflow)))
      case Some(n) => Step(Ledger(Some(n), l.events + [CounterUpdated(a.counter, a.payer, n)]), Ok)
  }

  /** `decrement`: subtracts one from the count, failing with `Underflow`
      at 0, and emits `CounterUpdated` with the new count. */
  function Decrement(program: Program, l: Ledger, a: Accounts): (s: Step)
    ensures s.outcome.Ok? <==>
      a.payerSigned && a.counter == CounterAddress(program) && l.count.Some? && l.count.value > 0
    ensures s.outcome.Ok? ==> s.ledger.count == Some(l.count.value - 1)
    ensures s.outcome.Ok? ==>
      s.ledger.events == l.events + [CounterUpdated(CounterAddress(program), a.payer, l.count.value - 1)]
    ensures s.outcome.Err? ==> s.ledger == l
    ensures !a.payerSigned ==> s.outcome == Err(AccountNotSigner)
    ensures a.payerSigned && a.counter != CounterAddress(program) ==> s.outcome == Err(ConstraintSeeds)
    ensures a.payerSigned && a.counter == CounterAddress(program) && l.count.None? ==> s.outcome == Err(AccountNotInitialized)
    ensures a.payerSigned && a.counter == CounterAddress(program) && l.count == Some(0) ==> s.outcome == Err(Custom(Underflow))
  {
    match CheckExisting(program, l, a)
    case Some(e) => Step(l, Err(e))
    case None =>
      match CheckedSub(l.count.value, 1)
      case None => Step(l, Err(Custom(Underflow)))
      case Some(n) => Step(Ledger(Some(n), l.events + [CounterUpdated(a.counter, a.payer, n)]), Ok)
  }

  /** An instruction of the program, as a transaction carries it. */
  datatype Instruction =
    | InitializeIx(accounts: Accounts)
    | IncrementIx(accounts: Accounts)
    | DecrementIx(accounts: Accounts)

  /** The dispatch of `#[program] mod counter`. */
  function Execute(program: Program, l: Ledger, ix: Instruction): Step {
    match ix
    case InitializeIx(a) => Initialize(program, l, a)
    case IncrementIx(a) => Increment(program, l, a)
    case DecrementIx(a) => Decrement(program, l, a)
  }

  /** The ledger after each instruction in turn, each in its own
      transaction: a failed one leaves the ledger as it was. */
  function Replay(program: Program, l: Ledger, ixs: seq<Instruction>): Ledger {
    if ixs == [] then l
    else Execute(program, Replay(program, l, ixs[..|ixs| - 1]), ixs[|ixs| - 1]).ledger
  }
}
