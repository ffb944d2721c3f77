# Counter program and its event-checking test harness, in Dafny

This project models two parts of a Solana/Anchor demo repository.

- **The on-chain counter program** (`programs/counter`). It keeps one
  `u64` count in an account at a program-derived address (PDA). `initialize`
  creates that account with count 0. `increment` and `decrement` change the
  count with checked arithmetic and fail with `Overflow` or `Underflow`
  when it would leave `0 ..= 2^64 - 1`. Each successful instruction emits
  one event: `CounterInitialized` or `CounterUpdated`. The handlers change
  the account in place, so the model is a class `CounterLedger.Counter`.
  Its fields are the optional count and an append-only event log. Each of
  its methods is proved equal to a pure step function in `CounterProgram`.
  Those step functions state success, each error case and the new state.
  `CounterTraces` proves what holds across runs of instructions.
- **The test harness's event reconciler and assertions** (`tests/utils`).
  `fetchAllEvents` scans inner-instruction data, then log lines, for event
  payloads. It decodes each payload with the first decoder that yields an
  event, and keeps one event per `(program id, payload)`. `EventReconciler`
  models it with the same loops: `TryDecode` over the decoders, and
  `ScanInstructions` and `ScanLogs` over the transaction, which
  `FetchAllEvents` runs in turn. Each loop is proved equal to a fold
  (`ScanAll`), and `ReconcilerProperties`
  proves the fold's guarantees. `Assertions` models `assertEvent`,
  `compareValues` and `expectError` as functions and proves their pass
  conditions.
- **The test suite's scenarios** (`tests/counter.test.ts`). `CounterTests`
  replays them on the ledger class and checks their events through the
  reconciler and assertion models.

Files: `wrappers.dfy` (Option, Result, first-match search), `text.dfy`
(JavaScript `includes`, `toLowerCase`, number rendering), `solana.dfy`
(addresses, `u64`, PDA derivation), `counter_program.dfy`,
`counter_ledger.dfy`, `counter_traces.dfy`, `event_reconciler.dfy`,
`reconciler_properties.dfy`, `assertions.dfy`, `counter_tests.dfy`.

Decisions where the code decides:

- The counter seed is `"counter_seed"`, the bytes `utils/constants.ts`
  gives.
- PDA derivation (`find_program_address`, `findProgramAddressSync`) is the
  function-typed field `Program.findProgramAddress`. It is deterministic and
  otherwise uninterpreted.
- The model checks an instruction's accounts in this order: the payer
  signed (`AccountNotSigner`), the counter account is the PDA
  (`ConstraintSeeds`), then the account exists (`AccountNotInitialized`) or
  does not exist for `initialize` (`AccountAlreadyInUse`).
- Custom error numbers are 6000 (`Overflow`) and 6001 (`Underflow`).
  Anchor numbers `#[error_code]` variants from 6000.
- `fetchEvent` matches names exactly. `assertEvent` matches them ignoring
  case. Only `assertEvent` is case-insensitive.
- In `expectError`, the `expect.fail` inside the `try` is caught by the
  same `try`. When the promise resolves, the error examined is therefore
  that assertion error, and every branch then fails.
- `SendTransactionError || Error` evaluates to `SendTransactionError`.
  With no expectation, only a `SendTransactionError` passes.
- The falsy expectations `""` and `0` behave as no expectation (`Given`).
- `tryDecode` returns at the first decoder that yields an event, even
  when that event's key was already seen. Later decoders are not tried.
- The de-duplication key `${programId}:${payload}` is the pair
  `DedupeKey(programId, payload)`. The two are interchangeable because a
  base58 program id never contains `:`, so the string splits uniquely.
- `/^Program data: (.+)$/` matches a line when the text after the prefix
  is non-empty and holds no JavaScript line terminator (`IsProgramData`).

## Model

| member | source | states |
|---|---|---|
| CounterProgram.Initialize | programs/counter/src/instructions/initialize.rs:8-32 | Succeeds iff the payer signed, the counter account is the `COUNTER` PDA, and no counter exists yet. On success the count is 0 and exactly one `CounterInitialized {counter: PDA, caller: payer}` is appended. Each failure names its constraint and leaves the ledger unchanged. |
| CounterProgram.Increment | programs/counter/src/instructions/increment.rs:4-23 | Succeeds iff the payer signed, the account is the PDA, the counter exists and the count is below 2^64-1. On success the count is old+1 and `CounterUpdated` carries the PDA, the payer and the new count. Each failure has its own error: `AccountNotSigner`, `ConstraintSeeds`, `AccountNotInitialized`, then `Overflow` at 2^64-1. Every failure leaves the ledger unchanged. |
| CounterProgram.Decrement | programs/counter/src/instructions/decrement.rs:4-23 | Succeeds iff the payer signed, the account is the PDA, the counter exists and the count is above 0. On success the count is old-1 and `CounterUpdated` reports it. Each failure has its own error: `AccountNotSigner`, `ConstraintSeeds`, `AccountNotInitialized`, then `Underflow` at 0. Every failure leaves the ledger unchanged. |
| CounterProgram.CheckedAdd | programs/counter/src/instructions/increment.rs:6 | `checked_add` yields a value iff the sum fits in `u64`, and that value is the sum. |
| CounterProgram.CheckedSub | programs/counter/src/instructions/decrement.rs:6 | `checked_sub` yields a value iff no underflow occurs, and that value is the difference. |
| CounterProgram.CheckExisting | programs/counter/src/instructions/increment.rs:13-23 | The shared account checks pass iff the payer signed, the account is the PDA and the counter exists. An unsigned payer gives `AccountNotSigner`, a wrong address `ConstraintSeeds`, and a missing counter `AccountNotInitialized`. |
| CounterLedger.Counter.Initialize | programs/counter/src/instructions/initialize.rs:8-15 | The in-place handler leaves the count, the log and the outcome exactly as `CounterProgram.Initialize` prescribes. |
| CounterLedger.Counter.CheckAccounts | programs/counter/src/instructions/increment.rs:13-23 | Passes iff the payer signed, the account is the PDA and the counter exists. Otherwise it reports `AccountNotSigner`, `ConstraintSeeds` or `AccountNotInitialized`, in that order of precedence. |
| CounterLedger.Counter.Increment | programs/counter/src/instructions/increment.rs:4-11 | The in-place handler leaves the count, the log and the outcome exactly as `CounterProgram.Increment` prescribes; the `?` returns before anything is written. |
| CounterLedger.Counter.Decrement | programs/counter/src/instructions/decrement.rs:4-11 | The in-place handler leaves the count, the log and the outcome exactly as `CounterProgram.Decrement` prescribes. |
| CounterTraces.ReplayOnlyAppends | programs/counter/src/instructions/increment.rs:6-8 | Over any run, the event log only grows, and a created counter account is never removed. |
| CounterTraces.ReplayReportsCount | programs/counter/src/instructions/increment.rs:8 | Invariant of every run: the log is empty exactly while no counter exists, and every event names the counter PDA. The latest event reports the stored count. |
| CounterTraces.IncrementsFromFresh | tests/counter.test.ts:75-91 | `initialize` then n increments (n ≤ 2^64-1) leaves count n. The log is `CounterInitialized` followed by `CounterUpdated` 1, 2, …, n. |
| CounterTraces.IncrementThenDecrement | programs/counter/src/instructions/decrement.rs:6 | After a successful increment, a decrement succeeds and restores the count. The log gains the two updates. |
| CounterTraces.DecrementThenIncrement | programs/counter/src/instructions/increment.rs:6 | After a successful decrement, an increment succeeds and restores the count. |
| CounterTraces.InitializeTwice | programs/counter/src/instructions/initialize.rs:22-29 | A second `initialize` fails with the ledger unchanged. With valid accounts the error is `AccountAlreadyInUse`. |
| Wrappers.FindFirst | tests/utils/event.ts:67 | Returns the index of the first element satisfying the predicate, with none before it; returns None iff no element does. |
| Text.ToLower | tests/utils/assertions.ts:79 | Lower-casing keeps the length and maps each character by `LowerChar`. |
| Text.EqualsIgnoringCaseIsCaseOnly | tests/utils/assertions.ts:79 | Names equal ignoring case have equal length and agree on every non-letter. |
| Text.NatToDecimal | tests/utils/assertions.ts:65 | `${i}` is a non-empty string of digits with no leading zero. |
| Text.DecimalRoundTrip | tests/utils/assertions.ts:46 | Reading the rendered digits back gives the number, so distinct error numbers render to distinct texts. |
| Text.IntToDecimal | tests/utils/assertions.ts:46 | `${n}` of an integer below 10^21 in magnitude is a signed decimal numeral that starts with `-` exactly when n is negative. |
| Text.IntDecimalRoundTrip | tests/utils/assertions.ts:46 | For an integer n, the plain decimal text starts with `-` exactly when n is negative, and reading it back gives n. This is what `${n}` prints for integers below 10^21 in magnitude. |
| Text.ContainsSuffix | tests/utils/assertions.ts:45-49 | A log containing `prefix + S` contains `S`. |
| EventReconciler.LogPayload | tests/utils/event.ts:55-59 | A line yields a payload iff the regular expression matches it, and then the prefix plus the payload is the line. |
| EventReconciler.InnerPayloads | tests/utils/event.ts:46-51 | The first loop hands `tryDecode` at most one payload per inner instruction. |
| EventReconciler.LogPayloads | tests/utils/event.ts:55-59 | The second loop hands `tryDecode` at most one payload per log line. |
| EventReconciler.DecodeStep | tests/utils/event.ts:22-43 | Something is recorded iff some decoder yields an event and the first such decoder's key is unseen. What is recorded is that decoder's event and key, and every earlier decoder failed. |
| EventReconciler.TryDecode | tests/utils/event.ts:22-43 | The decoder loop with early return appends exactly the event `DecodeStep` gives and adds its key to the seen set, or changes nothing. |
| EventReconciler.FetchAllEvents | tests/utils/event.ts:13-63 | The two scanning loops return exactly the fold `AllEvents` of `tryDecode` over the inner-instruction payloads, then the log payloads. |
| EventReconciler.ScanInstructions | tests/utils/event.ts:45-52 | The inner-instruction loop, which skips data shorter than 8 bytes, leaves exactly the events and seen keys of the `tryDecode` fold over the inner payloads. |
| EventReconciler.ScanLogs | tests/utils/event.ts:54-60 | The log loop, which skips lines the regular expression does not match, continues that fold over the log payloads, given the state the inner scan left. |
| EventReconciler.FetchEvent | tests/utils/event.ts:65-72 | Succeeds iff some event's name equals `eventName` exactly (case-sensitive), and returns the first such event. Otherwise it fails with `Event "<name>" not found`. |
| ReconcilerProperties.ScanAllFaithful | tests/utils/event.ts:22-43 | Every returned event is the first accepting decoder's reading of a scanned payload, under that decoder's program id. No dedupe key occurs twice. |
| ReconcilerProperties.ScanAllComplete | tests/utils/event.ts:45-60 | Every scanned payload that some decoder accepts has its key in the result. Payloads are dropped only as noise or as duplicates. |
| ReconcilerProperties.OnePayloadOneEvent | tests/utils/event.ts:27-36 | No two returned events come from the same payload. |
| ReconcilerProperties.PayloadOnBothChannels | tests/utils/event.ts:27-36 | A decodable payload seen both in an inner instruction and in a log line yields exactly one event. |
| ReconcilerProperties.InnerBeforeLogs | tests/utils/event.ts:45-60 | The result starts with the inner-instruction scan's events, unchanged and in order. Every later event's payload came from a log line. |
| ReconcilerProperties.ScanAllOrdered | tests/utils/event.ts:31-36 | Events are ordered by the position of their payload's first occurrence in the scan. |
| ReconcilerProperties.ScanAllBound | tests/utils/event.ts:22-60 | There are never more events than scanned payloads. |
| ReconcilerProperties.AllEventsBound | tests/utils/event.ts:45-60 | The event count is at most the number of inner instructions with at least 8 bytes plus the number of log lines the regular expression matches. |
| ReconcilerProperties.InnerPayloadsMembers | tests/utils/event.ts:46-51 | The inner payloads are exactly the base64 texts of the data, after its first 8 bytes, of the instructions with at least 8 bytes. |
| ReconcilerProperties.InnerPayloadsBound | tests/utils/event.ts:47-48 | An instruction shorter than 8 bytes, appended anywhere, adds no payload. A list of only such instructions yields none. There are at most as many payloads as instructions. |
| ReconcilerProperties.InnerPayloadsCount | tests/utils/event.ts:46-51 | The number of inner payloads equals the number of instructions with at least 8 bytes of data. |
| ReconcilerProperties.LogPayloadsCount | tests/utils/event.ts:55-59 | The number of log payloads equals the number of lines that `/^Program data: (.+)$/` matches. |
| ReconcilerProperties.InnerPayloadsAppend | tests/utils/event.ts:46-52 | The payloads of two instruction lists are those of the first, then those of the second. |
| ReconcilerProperties.LogPayloadsAppend | tests/utils/event.ts:55-60 | The payloads of two lists of log lines are those of the first, then those of the second. |
| ReconcilerProperties.ScanAllNoise | tests/utils/event.ts:23-42 | Payloads that no decoder accepts leave the events and the seen keys as they were. |
| ReconcilerProperties.LogPayloadsMembers | tests/utils/event.ts:55-59 | The log payloads are exactly the payloads of the lines that match `Program data: `. |
| Assertions.CompareValuesIsEquality | tests/utils/assertions.ts:57-70 | `compareValues` passes iff the two values are equal: public keys, big numbers, arrays element by element, and deep equality otherwise. |
| Assertions.CompareItemsIsEquality | tests/utils/assertions.ts:62-66 | The element loop passes iff the remaining elements are equal. |
| Assertions.CompareValues | tests/utils/assertions.ts:57-70 | `compareValues` fails only with a mismatch at some path. |
| Assertions.CompareItems | tests/utils/assertions.ts:64-66 | The element loop fails only with a mismatch at some path. |
| Assertions.ArrayMismatchPath | tests/utils/assertions.ts:62-66 | Arrays of different lengths fail at `field.length`. Equal-length arrays whose first difference is at i fail as element i does, under `field[i]`. |
| Assertions.CheckFieldsPassIff | tests/utils/assertions.ts:89-100 | The field loop passes iff every expected key is a field of the event holding an equal value. |
| Assertions.CheckFields | tests/utils/assertions.ts:89-100 | The field loop fails only with a mismatch or with `FieldNotFound` for this event. |
| Assertions.MissingFieldReported | tests/utils/assertions.ts:94-96 | The first expected key missing from the event, with no mismatch before it, is reported as `FieldNotFound`. |
| Assertions.Matching | tests/utils/assertions.ts:79 | The filter keeps exactly the events whose name equals `eventName` ignoring case, and no more of them than there are events. |
| Assertions.MatchingAppend | tests/utils/assertions.ts:79 | Filtering a concatenation is filtering each part and concatenating, so matches keep their order and multiplicity. |
| Assertions.MatchingOne | tests/utils/assertions.ts:79 | A single event is kept iff its name matches ignoring case. |
| Assertions.AssertEvent | tests/utils/assertions.ts:72-101 | Fails with `EventNotFound` iff at most `eventIdx` events match, and that failure names the event and the index. Otherwise it passes without expected data, or checks the fields of match number `eventIdx`. |
| Assertions.AssertEventPassIff | tests/utils/assertions.ts:72-101 | `assertEvent` passes iff match number `eventIdx` exists and holds every expected field with an equal value. |
| Assertions.ExpectError | tests/utils/assertions.ts:9-55 | `expectError` passes only on a rejected promise, and only for a `SendTransactionError` or, with a given expectation, an `AnchorError` with a code. With an expectation given, a `SendTransactionError` without logs fails with `LogsMissing`. The `Expect*` lemmas below state its behaviour case by case. |
| Assertions.ExpectErrorFailsOnSuccess | tests/utils/assertions.ts:12-21 | A promise that resolves never satisfies `expectError`, whatever is expected. |
| Assertions.ExpectAnyError | tests/utils/assertions.ts:23-27 | With no (or a falsy) expectation, it passes iff the promise rejected with a `SendTransactionError`. |
| Assertions.ExpectErrorNumberInLogs | tests/utils/assertions.ts:40-51 | For a numeric expectation N, a `SendTransactionError` passes iff some log contains `Error Number: N`. |
| Assertions.ExpectErrorCodeInLogs | tests/utils/assertions.ts:40-51 | For a textual expectation S, a `SendTransactionError` passes iff some log contains S. The `Error Code: S` search is subsumed. |
| Assertions.ExpectAnchorError | tests/utils/assertions.ts:31-39 | An `AnchorError` with a code is matched by number against a numeric expectation and by code against a textual one. |
| Assertions.ExpectErrorFailurePaths | tests/utils/assertions.ts:31-54 | With an expectation given, an `AnchorError` without a code fails with `MissingErrorCode`, and a `SendTransactionError` without logs fails with `LogsMissing`. Any other error, including the harness's own assertion error after a resolved promise, fails with `UnexpectedError`. |
| CounterTests.EmittedLogs | programs/counter/src/instructions/increment.rs:8 | `emit!` writes one `Program data: <payload>` line per event, in order. |
| CounterTests.OneEmittedEvent | tests/utils/event.ts:45-62 | A transaction that logs one program event yields exactly that event, decoded by the counter decoder. This holds whatever inner instructions and other log lines surround it, as long as no decoder accepts their payloads. |
| CounterTests.EmittedEventAsserted | tests/counter.test.ts:68-72 | `assertEvent` at index 0 passes on a transaction emitting the event among undecodable noise, for expected data whose values are taken from the event's own fields. |
| CounterTests.EmittedEventOnce | tests/utils/assertions.ts:79-85 | `assertEvent` at index 1 fails with `EventNotFound` on a transaction that emitted the event once among undecodable noise. |
| CounterTests.AnchorErrorLineMentions | tests/utils/assertions.ts:44 | Anchor's failure line contains the error code and `Error Number: N`. |
| CounterTests.InitializesTheCounter | tests/counter.test.ts:36-50 | After `initialize` the count is 0, and `assertEvent("CounterInitialized", {counter, caller})` passes. The transaction may carry any inner instructions and log lines that no decoder accepts. |
| CounterTests.IncrementsTheCounter | tests/counter.test.ts:52-73 | After one increment the count is 1, and `assertEvent("CounterUpdated", {counter, caller, count: 1})` passes. The transaction may carry any inner instructions and log lines that no decoder accepts. |
| CounterTests.IncrementsTheCounterMultipleTimes | tests/counter.test.ts:75-91 | Three increments in a loop leave count 3. |
| CounterTests.DecrementsTheCounter | tests/counter.test.ts:93-118 | Two increments and a decrement leave count 1, and the decrement's `CounterUpdated` reports 1. The transaction may carry any inner instructions and log lines that no decoder accepts. |
| CounterTests.RejectsDecrementBelowZero | tests/counter.test.ts:120-128 | Decrementing 0 fails with `Underflow`. The count stays 0 and the log keeps only the `CounterInitialized` event. The promise settles from that outcome (`Settle`), with Anchor's error line in its logs. On it, `expectError(…, "Underflow")` passes and so does `expectError(…, 6001)`. |
| CounterTests.RejectsDoubleInitialization | tests/counter.test.ts:130-138 | A second `initialize` fails with `AccountAlreadyInUse`, and the ledger is unchanged. `expectError` with no expectation passes on the promise settled from that outcome (`Settle`). |

## Left out

- Transaction assembly, signing, submission and confirmation (`utils/tx.ts`, `tests/utils/tx.ts`): these are foreign calls into web3.js and LiteSVM. Each instruction is modelled as its own transaction, and a failed transaction writes nothing.
- `utils/pda.ts` is modelled only as the uninterpreted `Program.findProgramAddress`. The bump seed and the event-authority PDA are not used by the modelled core.
- Instruction builders and CLI entry points (`scripts/`), IDL registration (`scripts/surfpool/cheats.ts`), and file and environment loading (`utils/program.ts`, `utils/env.ts`): these are I/O.
- Borsh serialisation, base64 and bs58 encoding, and Anchor's event decoder: these are the abstract parameters `encode`, `base64` and `Decoder.decode`. A decoder that returns nothing and one that throws are both skipped.
- `utils/converters.ts`: its duck-typing checks become the constructors of `EventReconciler.Value`.
- Account space and rent, the payer's lamports, signature verification, writability (`mut`, `ConstraintMut`) and the `system_program` account check.
- CounterLedger.Counter.CheckAccounts: the seeds check comes before the account is loaded as a `Counter`. Anchor loads `Account<'info, Counter>` first. That load fails with `AccountNotInitialized` only for a system-owned account with no lamports. An account that holds lamports but belongs to the system program, or belongs to another program, fails with `AccountOwnedByWrongProgram`, which the model does not have. So a funded but uninitialised PDA is reported as `AccountNotInitialized` here and as `AccountOwnedByWrongProgram` by Anchor. Counters are only ever created at the PDA, so `ConstraintSeeds` rarely, if ever, reaches a caller of `increment` or `decrement`. Every one of these cases fails without writing anything.
- CounterProgram.CheckExisting: the same simplification covers this function and the error clauses of `CounterProgram.Increment` and `CounterProgram.Decrement`. The model reports a missing counter as `AccountNotInitialized` and checks seeds before ownership; Anchor's precedence and its `AccountOwnedByWrongProgram` error are as described in the line above.
- Text.ToLower: maps ASCII letters only. JavaScript's full Unicode case mapping is not modelled; event names are ASCII identifiers.
- Failure messages are structured `Assertions.Failure` values. Their text, the transaction signature they name, and the `console.error` dump are not modelled.
- `fetchAllEvents`, `fetchEvent` and `assertEvent` take the transaction's metadata directly. Looking it up by signature in the simulator is I/O.
- The scenarios' transactions carry arbitrary inner instructions and log lines around the event's line, such as the system program's `CreateAccount` that `init` invokes. They are assumed to hold no payload that a decoder accepts (`CounterTests.OnlyNoise`); what the runtime actually logs is not modelled.
- Text.IntToDecimal: JavaScript numbers are modelled as unbounded `int`, printed in plain decimal. That matches `${n}` only for integers below 10^21 in magnitude; from there JavaScript prints exponent form (`1e+21`). Fractional and NaN expectations cannot be expressed by `Assertions.ByNumber(int)`. Anchor error numbers are `u32`, well inside that range.
- Text.IntDecimalRoundTrip: holds for every `int`, but it describes JavaScript's `${n}` only within the range the line above gives.
- `expectError` treats a promise rejecting with `undefined`, and every non-Anchor, non-`SendTransactionError` value, as `OtherErr`. All of these fail.
