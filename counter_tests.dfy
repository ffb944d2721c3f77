/** The scenarios of the counter test suite, run against the counter
    ledger; the events each transaction emits are checked through the
    harness's reconciler and assertions, as the suite does. */
module CounterTests {
  import opened Wrappers
  import opened Text
  import opened Solana
  import opened CounterProgram
  import opened CounterLedger
  import opened CounterTraces
  import opened EventReconciler
  import opened ReconcilerProperties
  import opened Assertions

  /** How the harness's decoder presents one of the program's events. */
  function AnchorView(e: Event): AnchorEvent {
    match e
    case CounterInitialized(counter, caller) =>
      AnchorEvent("CounterInitialized", map["counter" := PublicKey(counter), "caller" := PublicKey(caller)])
    case CounterUpdated(counter, caller, count) =>
      AnchorEvent("CounterUpdated", map["counter" := PublicKey(counter), "caller" := PublicKey(caller), "count" := BN(count)])
  }

  /** `emit!` writes one "Program data: <base64>" line per event; `encode`
      stands for the event's serialisation and base64 text. */
  function EmittedLogs(events: seq<Event>, encode: Event -> string): (logs: seq<string>)
    ensures |logs| == |events|
    ensures forall i :: 0 <= i < |events| ==> logs[i] == PROGRAM_DATA + encode(events[i])
  {
    if events == [] then [] else [PROGRAM_DATA + encode(events[0])] + EmittedLogs(events[1..], encode)
  }

  /** The harness's first decoder reads back every event the program
      emits, and every encoded event is a one-line payload. */
  ghost predicate DecodesProgramEvents(decoders: seq<Decoder>, encode: Event -> string) {
    && |decoders| > 0
    && (forall e :: decoders[0].decode(encode(e)) == Decoded(AnchorView(e)))
    && (forall e :: IsProgramData(PROGRAM_DATA + encode(e)))
  }

  /** No decoder yields an event for any of these payloads. */
  ghost predicate Undecodable(decoders: seq<Decoder>, payloads: seq<string>) {
    forall p :: p in payloads ==> FirstDecoder(decoders, p).None?
  }

  /** What a transaction records besides its event: inner instructions,
      such as the system program's `CreateAccount` that `init` invokes,
      and the runtime's other log lines before and after the event's
      line. None of it decodes as an event. */
  ghost predicate OnlyNoise(decoders: seq<Decoder>, base64: seq<bv8> -> string,
                            inner: seq<seq<EventReconciler.Instruction>>, before: seq<string>, after: seq<string>) {
    && Undecodable(decoders, InnerPayloads(Flatten(inner), base64))
    && Undecodable(decoders, LogPayloads(before))
    && Undecodable(decoders, LogPayloads(after))
  }

  /** A transaction that emits the one event `e`. */
  function EmittingTx(inner: seq<seq<EventReconciler.Instruction>>, before: seq<string>, e: Event, encode: Event -> string,
                      after: seq<string>): TransactionMetadata {
    TransactionMetadata(inner, before + EmittedLogs([e], encode) + after)
  }

  /** A transaction that emits one event yields exactly that event; its
      other inner instructions and log lines are dropped. */
  lemma OneEmittedEvent(decoders: seq<Decoder>, encode: Event -> string, base64: seq<bv8> -> string,
                        inner: seq<seq<EventReconciler.Instruction>>, before: seq<string>, e: Event, after: seq<string>)
    requires DecodesProgramEvents(decoders, encode)
    requires OnlyNoise(decoders, base64, inner, before, after)
    ensures AllEvents(decoders, EmittingTx(inner, before, e, encode, after), base64)
      == [DecodedEvent(decoders[0].programId, decoders[0].name, AnchorView(e))]
  {
    var payload := encode(e);
    EmittingPayloads(encode, base64, inner, before, e, after);
    var ips, lbs, las := InnerPayloads(Flatten(inner), base64), LogPayloads(before), LogPayloads(after);
    ScanAllConcat(decoders, Empty, ips, lbs);
    ScanAllNoise(decoders, Empty, ips);
    ScanAllNoise(decoders, Empty, lbs);
    assert FirstDecoder(decoders, payload) == Some(0);
    ScanAllSnoc(decoders, Empty, ips + lbs, payload);
    var one := ScanAll(decoders, Empty, (ips + lbs) + [payload]);
    assert one.events == [DecodedEvent(decoders[0].programId, decoders[0].name, AnchorView(e))];
    ScanAllConcat(decoders, Empty, (ips + lbs) + [payload], las);
    ScanAllNoise(decoders, one, las);
  }

  /** The payloads of such a transaction: the inner ones, those of the
      lines before, the event's, and those of the lines after. */
  lemma EmittingPayloads(encode: Event -> string, base64: seq<bv8> -> string,
                         inner: seq<seq<EventReconciler.Instruction>>, before: seq<string>, e: Event, after: seq<string>)
    requires IsProgramData(PROGRAM_DATA + encode(e))
    ensures Payloads(EmittingTx(inner, before, e, encode, after), base64)
      == (InnerPayloads(Flatten(inner), base64) + LogPayloads(before)) + [encode(e)] + LogPayloads(after)
  {
    var payload := encode(e);
    var line := PROGRAM_DATA + payload;
    assert EmittedLogs([e], encode) == [line];
    assert LogPayload(line) == Some(payload);
    assert LogPayloads([line]) == LogPayloads([]) + [payload];
    LogPayloadsAppend(before, [line]);
    LogPayloadsAppend(before + [line], after);
  }

  /** The test's `assertEvent` on the one event of a transaction, with
      values taken from the event's own fields as expected data, passes. */
  lemma EmittedEventAsserted(decoders: seq<Decoder>, encode: Event -> string, base64: seq<bv8> -> string,
                             inner: seq<seq<EventReconciler.Instruction>>, before: seq<string>, e: Event, after: seq<string>,
                             expected: seq<(string, Value)>)
    requires DecodesProgramEvents(decoders, encode)
    requires OnlyNoise(decoders, base64, inner, before, after)
    requires forall i :: 0 <= i < |expected| ==>
      expected[i].0 in AnchorView(e).data && AnchorView(e).data[expected[i].0] == expected[i].1
    ensures AssertEvent(decoders, EmittingTx(inner, before, e, encode, after), base64,
                        AnchorView(e).name, Some(expected), 0) == Pass
  {
    var tx := EmittingTx(inner, before, e, encode, after);
    OneEmittedEvent(decoders, encode, base64, inner, before, e, after);
    var d := DecodedEvent(decoders[0].programId, decoders[0].name, AnchorView(e));
    MatchingOne(d, AnchorView(e).name);
    AssertEventPassIff(decoders, tx, base64, AnchorView(e).name, Some(expected), 0);
  }

  /** The event occurs once, so asking for its second occurrence fails. */
  lemma EmittedEventOnce(decoders: seq<Decoder>, encode: Event -> string, base64: seq<bv8> -> string,
                         inner: seq<seq<EventReconciler.Instruction>>, before: seq<string>, e: Event, after: seq<string>,
                         expected: Option<seq<(string, Value)>>)
    requires DecodesProgramEvents(decoders, encode)
    requires OnlyNoise(decoders, base64, inner, before, after)
    ensures AssertEvent(decoders, EmittingTx(inner, before, e, encode, after), base64,
                        AnchorView(e).name, expected, 1) == Fail(EventNotFound(AnchorView(e).name, 1))
  {
    OneEmittedEvent(decoders, encode, base64, inner, before, e, after);
    MatchingOne(DecodedEvent(decoders[0].programId, decoders[0].name, AnchorView(e)), AnchorView(e).name);
  }

  /** "initializes the counter": count 0 and a `CounterInitialized` event
      naming the counter PDA and the payer. */
  method InitializesTheCounter(program: Program, payer: Pubkey, decoders: seq<Decoder>,
                               encode: Event -> string, base64: seq<bv8> -> string,
                               inner: seq<seq<EventReconciler.Instruction>>, before: seq<string>, after: seq<string>)
    returns (count: Option<u64>, verdict: Verdict)
    requires DecodesProgramEvents(decoders, encode)
    requires OnlyNoise(decoders, base64, inner, before, after)
    ensures count == Some(0) && verdict == Pass
  {
    var counter := new Counter(program);
    var address := CounterAddress(program);
    var outcome := counter.Initialize(Accounts(payer, true, address));
    var emitted := CounterInitialized(address, payer);
    assert counter.events == [emitted];
    var tx := EmittingTx(inner, before, counter.events[0], encode, after);
    count := counter.count;
    var expected := [("counter", PublicKey(address)), ("caller", PublicKey(payer))];
    EmittedEventAsserted(decoders, encode, base64, inner, before, emitted, after, expected);
    verdict := AssertEvent(decoders, tx, base64, "CounterInitialized", Some(expected), 0);
  }

  /** "increments the counter": count 1 and a `CounterUpdated` event
      reporting it. */
  method IncrementsTheCounter(program: Program, payer: Pubkey, decoders: seq<Decoder>,
                              encode: Event -> string, base64: seq<bv8> -> string,
                              inner: seq<seq<EventReconciler.Instruction>>, before: seq<string>, after: seq<string>)
    returns (count: Option<u64>, verdict: Verdict)
    requires DecodesProgramEvents(decoders, encode)
    requires OnlyNoise(decoders, base64, inner, before, after)
    ensures count == Some(1) && verdict == Pass
  {
    var counter := new Counter(program);
    var address := CounterAddress(program);
    var a := Accounts(payer, true, address);
    var outcome := counter.Initialize(a);
    var logged := |counter.events|;
    outcome := counter.Increment(a);
    var emitted := CounterUpdated(address, payer, 1);
    assert counter.events[logged..] == [emitted];
    var tx := EmittingTx(inner, before, counter.events[logged], encode, after);
    count := counter.count;
    var expected := [("counter", PublicKey(address)), ("caller", PublicKey(payer)), ("count", BN(1))];
    EmittedEventAsserted(decoders, encode, base64, inner, before, emitted, after, expected);
    verdict := AssertEvent(decoders, tx, base64, "CounterUpdated", Some(expected), 0);
  }

  /** "increments the counter multiple times": three increments leave 3. */
  method IncrementsTheCounterMultipleTimes(program: Program, payer: Pubkey) returns (count: Option<u64>)
    ensures count == Some(3)
  {
    var counter := new Counter(program);
    var a := Accounts(payer, true, CounterAddress(program));
    var outcome := counter.Initialize(a);
    for i := 0 to 3
      invariant counter.program == program
      invariant counter.count == Some(i)
    {
      outcome := counter.Increment(a);
    }
    count := counter.count;
  }

  /** "decrements the counter": two increments and a decrement leave 1,
      reported by the decrement's `CounterUpdated` event. */
  method DecrementsTheCounter(program: Program, payer: Pubkey, decoders: seq<Decoder>,
                              encode: Event -> string, base64: seq<bv8> -> string,
                              inner: seq<seq<EventReconciler.Instruction>>, before: seq<string>, after: seq<string>)
    returns (count: Option<u64>, verdict: Verdict)
    requires DecodesProgramEvents(decoders, encode)
    requires OnlyNoise(decoders, base64, inner, before, after)
    ensures count == Some(1) && verdict == Pass
  {
    var counter := new Counter(program);
    var address := CounterAddress(program);
    var a := Accounts(payer, true, address);
    var outcome := counter.Initialize(a);
    outcome := counter.Increment(a);
    outcome := counter.Increment(a);
    var logged := |counter.events|;
    outcome := counter.Decrement(a);
    var emitted := CounterUpdated(address, payer, 1);
    assert counter.events[logged..] == [emitted];
    var tx := EmittingTx(inner, before, counter.events[logged], encode, after);
    count := counter.count;
    var expected := [("counter", PublicKey(address)), ("caller", PublicKey(payer)), ("count", BN(1))];
    EmittedEventAsserted(decoders, encode, base64, inner, before, emitted, after, expected);
    verdict := AssertEvent(decoders, tx, base64, "CounterUpdated", Some(expected), 0);
  }

  /** The line Anchor logs for a failed instruction, after a location
      prefix: "... Error Code: <code>. Error Number: <n>. Error Message: <msg>." */
  function AnchorErrorLine(prefix: string, code: string, number: string, message: string): string {
    prefix + "Error Code: " + code + ". Error Number: " + number + ". Error Message: " + message + "."
  }

  function AnchorErrorLog(prefix: string, e: CounterError): string {
    AnchorErrorLine(prefix, ErrorCode(e), IntToDecimal(ErrorNumber(e)), ErrorMessage(e))
  }

  /** Anchor's failure line names the error's code and its number, so
      `expectError` finds either in it. */
  lemma AnchorErrorLineMentions(prefix: string, code: string, number: string, message: string)
    ensures Contains(AnchorErrorLine(prefix, code, number, message), code)
    ensures Contains(AnchorErrorLine(prefix, code, number, message), "Error Number: " + number)
  {
    var line := AnchorErrorLine(prefix, code, number, message);
    var head, tail := prefix + "Error Code: ", ". Error Message: " + message + ".";
    assert line == head + code + (". Error Number: " + number + tail);
    ContainsInfix(head, code, ". Error Number: " + number + tail);
    assert line == (head + code + ". ") + ("Error Number: " + number) + tail;
    ContainsInfix(head + code + ". ", "Error Number: " + number, tail);
  }

  /** How the test's transaction promise settles: it resolves when the
      instruction succeeds, and otherwise rejects with a
      `SendTransactionError` that carries the transaction's logs. */
  function Settle(outcome: Outcome, logs: seq<string>): (settled: Settlement)
    ensures settled.Resolved? <==> outcome.Ok?
  {
    if outcome.Ok? then Resolved else Rejected(SendTransactionErr(Some(logs)))
  }

  /** The logs of a transaction: the runtime's other lines, followed by
      Anchor's error line when the instruction failed with a custom
      error. */
  function TransactionLogs(otherLogs: seq<string>, prefix: string, outcome: Outcome): seq<string> {
    if outcome.Err? && outcome.error.Custom? then otherLogs + [AnchorErrorLog(prefix, outcome.error.error)]
    else otherLogs
  }

  /** "rejects decrement below zero (underflow)": the decrement fails with
      `Underflow`, the count stays 0, no event is emitted, and the test's
      `expectError(..., "Underflow")` passes on the failure's logs; so
      does the expectation by number, 6001. */
  method RejectsDecrementBelowZero(program: Program, payer: Pubkey, otherLogs: seq<string>, prefix: string)
    returns (outcome: Outcome, count: Option<u64>, events: seq<Event>, byCode: Verdict, byNumber: Verdict)
    ensures outcome == Err(Custom(Underflow))
    ensures count == Some(0) && events == [CounterInitialized(CounterAddress(program), payer)]
    ensures byCode == Pass && byNumber == Pass
  {
    var counter := new Counter(program);
    var a := Accounts(payer, true, CounterAddress(program));
    outcome := counter.Initialize(a);
    outcome := counter.Decrement(a);
    count, events := counter.count, counter.events;
    var logs := TransactionLogs(otherLogs, prefix, outcome);
    var settled := Settle(outcome, logs);
    assert logs[|otherLogs|] == AnchorErrorLog(prefix, Underflow);
    AnchorErrorLineMentions(prefix, "Underflow", IntToDecimal(6001), ErrorMessage(Underflow));
    ExpectErrorCodeInLogs(logs, "Underflow");
    byCode := ExpectError(settled, ByCode("Underflow"));
    byNumber := ExpectError(settled, ByNumber(6001));
  }

  /** "rejects double initialization": the second `initialize` fails on
      the existing account, leaves the ledger as it was, and satisfies an
      `expectError` without expectation. */
  method RejectsDoubleInitialization(program: Program, payer: Pubkey, otherLogs: seq<string>, prefix: string)
    returns (outcome: Outcome, count: Option<u64>, events: seq<Event>, verdict: Verdict)
    ensures outcome == Err(AccountAlreadyInUse)
    ensures count == Some(0) && events == [CounterInitialized(CounterAddress(program), payer)]
    ensures verdict == Pass
  {
    var counter := new Counter(program);
    var a := Accounts(payer, true, CounterAddress(program));
    outcome := counter.Initialize(a);
    outcome := counter.Initialize(a);
    count, events := counter.count, counter.events;
    var settled := Settle(outcome, TransactionLogs(otherLogs, prefix, outcome));
    verdict := ExpectError(settled, NoExpectation);
  }
}
