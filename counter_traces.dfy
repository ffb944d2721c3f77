/** What holds of any sequence of counter instructions: the event log only
    grows, a created counter stays created, the log always reports the
    stored count, and n increments after `initialize` leave n. */
module CounterTraces {
  import opened Wrappers
  import opened Solana
  import opened CounterProgram

  /** `n` copies of one instruction. */
  function Repeat(ix: Instruction, n: nat): (r: seq<Instruction>)
    ensures |r| == n && forall i :: 0 <= i < n ==> r[i] == ix
  {
    if n == 0 then [] else Repeat(ix, n - 1) + [ix]
  }

  lemma ReplayAppend(program: Program, l: Ledger, ixs: seq<Instruction>, ix: Instruction)
    ensures Replay(program, l, ixs + [ix]) == Execute(program, Replay(program, l, ixs), ix).ledger
  {
    assert (ixs + [ix])[..|ixs|] == ixs;
  }

  /** The events of a run only ever extend the log, and a created counter
      account is never removed. */
  lemma {:induction false} ReplayOnlyAppends(program: Program, l: Ledger, ixs: seq<Instruction>)
    ensures l.events <= Replay(program, l, ixs).events
    ensures l.count.Some? ==> Replay(program, l, ixs).count.Some?
  {
    if ixs != [] {
      ReplayOnlyAppends(program, l, ixs[..|ixs| - 1]);
    }
  }

  /** The count an event reports: 0 for `CounterInitialized`, the new count
      for `CounterUpdated`. */
  function Reported(e: Event): u64 {
    match e
    case CounterInitialized(_, _) => 0
    case CounterUpdated(_, _, c) => c
  }

  /** The log explains the account: it is empty exactly while no counter
      exists, every event names the counter PDA, and the latest event
      reports the stored count. */
  ghost predicate LogReportsCount(program: Program, l: Ledger) {
    && (l.count.None? <==> l.events == [])
    && (forall i :: 0 <= i < |l.events| ==> l.events[i].counter == CounterAddress(program))
    && (l.events != [] ==> l.count == Some(Reported(l.events[|l.events| - 1])))
  }

  lemma ExecuteReportsCount(program: Program, l: Ledger, ix: Instruction)
    requires LogReportsCount(program, l)
    ensures LogReportsCount(program, Execute(program, l, ix).ledger)
  {
  }

  /** Every run from a ledger whose log explains it keeps the log
      explaining it; in particular every run from a fresh ledger. */
  lemma {:induction false} ReplayReportsCount(program: Program, l: Ledger, ixs: seq<Instruction>)
    requires LogReportsCount(program, l)
    ensures LogReportsCount(program, Replay(program, l, ixs))
  {
    if ixs != [] {
      ReplayReportsCount(program, l, ixs[..|ixs| - 1]);
      ExecuteReportsCount(program, Replay(program, l, ixs[..|ixs| - 1]), ixs[|ixs| - 1]);
    }
  }

  /** The accounts a well-formed transaction gives every instruction: the
      payer signs and the counter is the PDA. */
  function WellFormed(program: Program, payer: Pubkey): Accounts {
    Accounts(payer, true, CounterAddress(program))
  }

  /** The `CounterUpdated` events that counting from 1 up to `n` emits. */
  function CountedUpTo(program: Program, payer: Pubkey, n: nat): (r: seq<Event>)
    requires n <= U64_MAX
    ensures |r| == n
  {
    if n == 0 then [] else CountedUpTo(program, payer, n - 1) + [CounterUpdated(CounterAddress(program), payer, n)]
  }

  /** `initialize` followed by n increments leaves count n and a log of
      `CounterInitialized` then `CounterUpdated` with 1, 2, ..., n. */
  lemma {:induction false} IncrementsFromFresh(program: Program, payer: Pubkey, n: nat)
    requires n <= U64_MAX
    ensures var a := WellFormed(program, payer);
      Replay(program, Fresh, [InitializeIx(a)] + Repeat(IncrementIx(a), n))
      == Ledger(Some(n), [CounterInitialized(CounterAddress(program), payer)] + CountedUpTo(program, payer, n))
  {
    var a := WellFormed(program, payer);
    var created := [CounterInitialized(CounterAddress(program), payer)];
    if n == 0 {
      assert [InitializeIx(a)] + Repeat(IncrementIx(a), 0) == [] + [InitializeIx(a)];
      ReplayAppend(program, Fresh, [], InitializeIx(a));
    } else {
      var prev := [InitializeIx(a)] + Repeat(IncrementIx(a), n - 1);
      IncrementsFromFresh(program, payer, n - 1);
      var before := Replay(program, Fresh, prev);
      assert before == Ledger(Some(n - 1), created + CountedUpTo(program, payer, n - 1));
      assert [InitializeIx(a)] + Repeat(IncrementIx(a), n) == prev + [IncrementIx(a)];
      ReplayAppend(program, Fresh, prev, IncrementIx(a));
      IncrementCounted(program, payer, n, created);
    }
  }

  /** One more increment below the maximum extends the counted log by
      the next count. */
  lemma IncrementCounted(program: Program, payer: Pubkey, n: nat, created: seq<Event>)
    requires 0 < n <= U64_MAX
    ensures var l := Ledger(Some(n - 1), created + CountedUpTo(program, payer, n - 1));
      Increment(program, l, WellFormed(program, payer)) == Step(Ledger(Some(n), created + CountedUpTo(program, payer, n)), Ok)
  {
    var l := Ledger(Some(n - 1), created + CountedUpTo(program, payer, n - 1));
    var after := Increment(program, l, WellFormed(program, payer));
    assert after.outcome.Ok?;
    assert after.ledger.events == created + CountedUpTo(program, payer, n);
  }

  /** A successful increment followed by a decrement restores the count,
      and the log gains the two updates. */
  lemma IncrementThenDecrement(program: Program, l: Ledger, a: Accounts)
    requires Increment(program, l, a).outcome.Ok?
    ensures var up := Increment(program, l, a).ledger;
      var down := Decrement(program, up, a);
      && down.outcome.Ok?
      && down.ledger.count == l.count
      && down.ledger.events == l.events + [
        CounterUpdated(CounterAddress(program), a.payer, l.count.value + 1),
        CounterUpdated(CounterAddress(program), a.payer, l.count.value)]
  {
  }

  /** A successful decrement followed by an increment restores the count. */
  lemma DecrementThenIncrement(program: Program, l: Ledger, a: Accounts)
    requires Decrement(program, l, a).outcome.Ok?
    ensures var down := Decrement(program, l, a).ledger;
      var up := Increment(program, down, a);
      up.outcome.Ok? && up.ledger.count == l.count
  {
  }

  /** Creating the counter twice fails the second time, with the ledger as
      the first call left it. */
  lemma InitializeTwice(program: Program, l: Ledger, a: Accounts, b: Accounts)
    requires Initialize(program, l, a).outcome.Ok?
    ensures var once := Initialize(program, l, a).ledger;
      var twice := Initialize(program, once, b);
      twice.outcome.Err? && twice.ledger == once
      && (b.payerSigned && b.counter == CounterAddress(program) ==> twice.outcome == Err(AccountAlreadyInUse))
  {
  }
}
