/** The test harness's assertions: `assertEvent` with its field-by-field
    `compareValues`, and `expectError`. Each yields a verdict; a failure
    carries what the thrown assertion error reports. */
module Assertions {
  import opened Wrappers
  import opened Text
  import opened EventReconciler

  datatype Failure =
      /** No `index`-th event of that name (ignoring case). */
    | EventNotFound(eventName: string, index: nat)
      /** The event has no field `key`. */
    | FieldNotFound(key: string, eventName: string)
      /** The values at `path` differ. */
    | Mismatch(path: string)
      /** No expectation given, and the error is not a `SendTransactionError`. */
    | NotSendTransactionError
      /** An `AnchorError` without an error code. */
    | MissingErrorCode
    | WrongErrorNumber(actualNumber: int)
    | WrongErrorCode(actualCode: string)
      /** A `SendTransactionError` that carries no logs. */
    | LogsMissing
      /** The expected error appears in none of the logs. */
    | NotInLogs
      /** An error of any other kind, including the assertion error the
          harness raises itself when the transaction succeeds. */
    | UnexpectedError

  datatype Verdict = Pass | Fail(failure: Failure)

  function Check(same: bool, path: string): Verdict {
    if same then Pass else Fail(Mismatch(path))
  }

  /** `compareValues`: public keys by `equals`, big numbers by `eq`,
      arrays by length and then element by element under `path[i]`, and
      anything else by deep equality. */
  function CompareValues(actual: Value, expected: Value, path: string): (v: Verdict)
    ensures v.Fail? ==> v.failure.Mismatch?
    decreases expected, 1
  {
    if expected.PublicKey? && actual.PublicKey? then Check(actual.key == expected.key, path)
    else if expected.BN? && actual.BN? then Check(actual.n == expected.n, path)
    else if expected.Array? && actual.Array? then
      if |actual.items| != |expected.items| then Fail(Mismatch(path + ".length"))
      else CompareItems(actual.items, expected, path, 0)
    else Check(actual == expected, path)
  }

  /** The element loop of `compareValues`, from index `i` on; the first
      mismatch ends it. */
  function CompareItems(actual: seq<Value>, expected: Value, path: string, i: nat): (v: Verdict)
    requires expected.Array? && |actual| == |expected.items| && i <= |actual|
    ensures v.Fail? ==> v.failure.Mismatch?
    decreases expected, 0, |actual| - i
  {
    if i == |actual| then Pass
    else match CompareValues(actual[i], expected.items[i], path + "[" + NatToDecimal(i) + "]")
      case Fail(f) => Fail(f)
      case Pass => CompareItems(actual, expected, path, i + 1)
  }

  /** `compareValues` passes exactly on equal values: each of its cases
      decides equality for the values it handles. */
  lemma {:induction false} CompareValuesIsEquality(actual: Value, expected: Value, path: string)
    ensures CompareValues(actual, expected, path) == Pass <==> actual == expected
    decreases expected, 1
  {
    if expected.Array? && actual.Array? && |actual.items| == |expected.items| {
      CompareItemsIsEquality(actual.items, expected, path, 0);
      assert actual.items[0..] == actual.items && expected.items[0..] == expected.items;
    }
  }

  lemma {:induction false} CompareItemsIsEquality(actual: seq<Value>, expected: Value, path: string, i: nat)
    requires expected.Array? && |actual| == |expected.items| && i <= |actual|
    ensures CompareItems(actual, expected, path, i) == Pass <==> actual[i..] == expected.items[i..]
    decreases expected, 0, |actual| - i
  {
    if i < |actual| {
      CompareValuesIsEquality(actual[i], expected.items[i], path + "[" + NatToDecimal(i) + "]");
      CompareItemsIsEquality(actual, expected, path, i + 1);
      assert actual[i..] == [actual[i]] + actual[i + 1..];
      assert expected.items[i..] == [expected.items[i]] + expected.items[i + 1..];
    }
  }

  /** Arrays of different lengths fail at `path.length`; arrays of equal
      length that agree before index i and differ at i fail as their
      elements at i do, under `path[i]`. */
  lemma ArrayMismatchPath(actual: seq<Value>, expected: seq<Value>, path: string, i: nat)
    requires |actual| == |expected| ==> i < |actual| && actual[..i] == expected[..i] && actual[i] != expected[i]
    ensures |actual| != |expected| ==> CompareValues(Array(actual), Array(expected), path) == Fail(Mismatch(path + ".length"))
    ensures |actual| == |expected| ==>
      CompareValues(Array(actual), Array(expected), path) == CompareValues(actual[i], expected[i], path + "[" + NatToDecimal(i) + "]")
      && CompareValues(Array(actual), Array(expected), path).Fail?
  {
    if |actual| == |expected| {
      ItemsAgreeUpTo(actual, Array(expected), path, 0, i);
      CompareValuesIsEquality(actual[i], expected[i], path + "[" + NatToDecimal(i) + "]");
    }
  }

  lemma {:induction false} ItemsAgreeUpTo(actual: seq<Value>, expected: Value, path: string, k: nat, i: nat)
    requires expected.Array? && |actual| == |expected.items| && k <= i < |actual|
    requires actual[..i] == expected.items[..i]
    ensures CompareItems(actual, expected, path, k) == CompareItems(actual, expected, path, i)
    decreases i - k
  {
    if k < i {
      assert actual[k] == actual[..i][k] == expected.items[k];
      CompareValuesIsEquality(actual[k], expected.items[k], path + "[" + NatToDecimal(k) + "]");
      ItemsAgreeUpTo(actual, expected, path, k + 1, i);
    }
  }

  /** The loop over `Object.entries(expectedData)`: each key must be a
      field of the event, and its value must compare equal. */
  function CheckFields(data: map<string, Value>, entries: seq<(string, Value)>, eventName: string): (v: Verdict)
    ensures v.Fail? ==> v.failure.Mismatch? || (v.failure.FieldNotFound? && v.failure.eventName == eventName)
  {
    if entries == [] then Pass
    else
      var (key, expected) := entries[0];
      if key !in data then Fail(FieldNotFound(key, eventName))
      else match CompareValues(data[key], expected, eventName + "." + key)
        case Fail(f) => Fail(f)
        case Pass => CheckFields(data, entries[1..], eventName)
  }

  /** The field check passes exactly when every expected key is present
      with an equal value. */
  lemma {:induction false} CheckFieldsPassIff(data: map<string, Value>, entries: seq<(string, Value)>, eventName: string)
    ensures CheckFields(data, entries, eventName) == Pass <==>
      forall i :: 0 <= i < |entries| ==> entries[i].0 in data && data[entries[i].0] == entries[i].1
  {
    if entries != [] {
      var (key, expected) := entries[0];
      if key in data {
        CompareValuesIsEquality(data[key], expected, eventName + "." + key);
      }
      CheckFieldsPassIff(data, entries[1..], eventName);
      assert forall i :: 1 <= i < |entries| ==> entries[i] == entries[1..][i - 1];
    }
  }

  /** The first expected key missing from the event, when it comes before
      any mismatch, is the one reported. */
  lemma {:induction false} MissingFieldReported(data: map<string, Value>, entries: seq<(string, Value)>, eventName: string, k: nat)
    requires k < |entries| && entries[k].0 !in data
    requires forall i :: 0 <= i < k ==> entries[i].0 in data && data[entries[i].0] == entries[i].1
    ensures CheckFields(data, entries, eventName) == Fail(FieldNotFound(entries[k].0, eventName))
  {
    if k > 0 {
      CompareValuesIsEquality(data[entries[0].0], entries[0].1, eventName + "." + entries[0].0);
      MissingFieldReported(data, entries[1..], eventName, k - 1);
    }
  }

  /** The events whose name equals `eventName` ignoring case, in order. */
  function Matching(events: seq<DecodedEvent>, eventName: string): (r: seq<DecodedEvent>)
    ensures |r| <= |events|
    ensures forall e :: e in r <==> e in events && EqualsIgnoringCase(e.event.name, eventName)
  {
    if events == [] then []
    else
      var last := events[|events| - 1];
      Matching(events[..|events| - 1], eventName) + (if EqualsIgnoringCase(last.event.name, eventName) then [last] else [])
  }

  /** Filtering a concatenation filters each part, and a single event is
      kept exactly when its name matches: the matches keep the events'
      order and multiplicity. */
  lemma {:induction false} MatchingAppend(a: seq<DecodedEvent>, b: seq<DecodedEvent>, eventName: string)
    ensures Matching(a + b, eventName) == Matching(a, eventName) + Matching(b, eventName)
  {
    if b != [] {
      var init, last := b[..|b| - 1], b[|b| - 1];
      assert (a + b)[..|a + b| - 1] == a + init;
      MatchingAppend(a, init, eventName);
    } else {
      assert a + b == a;
    }
  }

  lemma MatchingOne(e: DecodedEvent, eventName: string)
    ensures Matching([e], eventName) == if EqualsIgnoringCase(e.event.name, eventName) then [e] else []
  {
    assert [e][..0] == [];
  }

  /** `assertEvent`: among the transaction's events named `eventName`
      ignoring case, the `eventIdx`-th must exist and, when expected data
      is given, carry every expected field with an equal value. */
  function AssertEvent(decoders: seq<Decoder>, tx: TransactionMetadata, base64: seq<bv8> -> string,
                       eventName: string, expectedData: Option<seq<(string, Value)>>, eventIdx: nat): (v: Verdict)
    ensures var events := Matching(AllEvents(decoders, tx, base64), eventName);
      v.Fail? && v.failure.EventNotFound? <==> |events| <= eventIdx
    ensures v.Fail? && v.failure.EventNotFound? ==> v.failure == EventNotFound(eventName, eventIdx)
    ensures var events := Matching(AllEvents(decoders, tx, base64), eventName);
      (|events| < eventIdx + 1 ==> v == Fail(EventNotFound(eventName, eventIdx)))
      && (|events| >= eventIdx + 1 && expectedData.None? ==> v == Pass)
      && (|events| >= eventIdx + 1 && expectedData.Some? ==>
            v == CheckFields(events[eventIdx].event.data, expectedData.value, eventName))
  {
    var events := Matching(AllEvents(decoders, tx, base64), eventName);
    if |events| < eventIdx + 1 then Fail(EventNotFound(eventName, eventIdx))
    else if expectedData.None? then Pass
    else CheckFields(events[eventIdx].event.data, expectedData.value, eventName)
  }

  /** `assertEvent` passes exactly when the `eventIdx`-th event of that
      name exists and holds every expected field with an equal value. */
  lemma AssertEventPassIff(decoders: seq<Decoder>, tx: TransactionMetadata, base64: seq<bv8> -> string,
                           eventName: string, expectedData: Option<seq<(string, Value)>>, eventIdx: nat)
    ensures var events := Matching(AllEvents(decoders, tx, base64), eventName);
      AssertEvent(decoders, tx, base64, eventName, expectedData, eventIdx) == Pass <==>
        eventIdx < |events| &&
        (expectedData.Some? ==> forall i :: 0 <= i < |expectedData.value| ==>
          var (key, value) := expectedData.value[i];
          key in events[eventIdx].event.data && events[eventIdx].event.data[key] == value)
  {
    var events := Matching(AllEvents(decoders, tx, base64), eventName);
    if eventIdx < |events| && expectedData.Some? {
      CheckFieldsPassIff(events[eventIdx].event.data, expectedData.value, eventName);
    }
  }

  /** What `expectError` is told to look for. JavaScript treats `""` and
      `0` like no expectation at all. */
  datatype Expectation = NoExpectation | ByCode(code: string) | ByNumber(number: int)

  predicate Given(e: Expectation) {
    !(e.NoExpectation? || e == ByCode("") || e == ByNumber(0))
  }

  /** What the awaited promise rejected with. */
  datatype Thrown =
    | AnchorErr(code: Option<string>, number: int)
    | SendTransactionErr(logs: Option<seq<string>>)
    | OtherErr

  /** How the awaited promise settled. */
  datatype Settlement = Resolved | Rejected(error: Thrown)

  predicate SomeLogContains(logs: seq<string>, t: string) {
    exists i :: 0 <= i < |logs| && Contains(logs[i], t)
  }

  /** The text searched for in the logs. */
  function SearchTerm(e: Expectation): string
    requires !e.NoExpectation?
  {
    if e.ByNumber? then "Error Number: " + IntToDecimal(e.number) else "Error Code: " + e.code
  }

  /** `expectError`. A resolved promise makes the harness's own
      `expect.fail` throw inside the `try`, so the error examined is that
      assertion error. */
  function ExpectError(settled: Settlement, expected: Expectation): (v: Verdict)
    ensures v == Pass ==> settled.Rejected?
    ensures v == Pass ==>
      settled.error.SendTransactionErr? || (Given(expected) && settled.error.AnchorErr? && settled.error.code.Some?)
    ensures Given(expected) && settled.Rejected? && settled.error.SendTransactionErr? && settled.error.logs.None? ==>
      v == Fail(LogsMissing)
  {
    var error := if settled.Resolved? then OtherErr else settled.error;
    if !Given(expected) then
      if error.SendTransactionErr? then Pass else Fail(NotSendTransactionError)
    else match error
      case AnchorErr(code, number) =>
        if code.None? then Fail(MissingErrorCode)
        else if expected.ByNumber? then
          if number == expected.number then Pass else Fail(WrongErrorNumber(number))
        else if code.value == expected.code then Pass else Fail(WrongErrorCode(code.value))
      case SendTransactionErr(logs) =>
        if logs.None? then Fail(LogsMissing)
        else
          var hasAnchorError := SomeLogContains(logs.value, SearchTerm(expected));
          var hasSubstringMatch := expected.ByCode? && SomeLogContains(logs.value, expected.code);
          if hasAnchorError || hasSubstringMatch then Pass else Fail(NotInLogs)
      case OtherErr => Fail(UnexpectedError)
  }

  /** A transaction that succeeds never satisfies `expectError`. */
  lemma ExpectErrorFailsOnSuccess(expected: Expectation)
    ensures ExpectError(Resolved, expected).Fail?
  {
  }

  /** Without an expectation, any `SendTransactionError` passes and
      nothing else does. */
  lemma ExpectAnyError(settled: Settlement, expected: Expectation)
    requires !Given(expected)
    ensures ExpectError(settled, expected) == Pass <==> settled.Rejected? && settled.error.SendTransactionErr?
  {
  }

  /** A numeric expectation N passes on a `SendTransactionError` exactly
      when some log contains "Error Number: N". */
  lemma ExpectErrorNumberInLogs(logs: seq<string>, n: int)
    requires n != 0
    ensures ExpectError(Rejected(SendTransactionErr(Some(logs))), ByNumber(n)) == Pass <==>
      SomeLogContains(logs, "Error Number: " + IntToDecimal(n))
  {
  }

  /** A textual expectation S passes on a `SendTransactionError` exactly
      when some log contains S: the "Error Code: S" search adds nothing,
      because that text contains S. */
  lemma ExpectErrorCodeInLogs(logs: seq<string>, code: string)
    requires code != ""
    ensures ExpectError(Rejected(SendTransactionErr(Some(logs))), ByCode(code)) == Pass <==>
      SomeLogContains(logs, code)
  {
    if SomeLogContains(logs, "Error Code: " + code) {
      var i :| 0 <= i < |logs| && Contains(logs[i], "Error Code: " + code);
      ContainsSuffix(logs[i], "Error Code: ", code);
    }
  }

  /** With an expectation given, the remaining error paths: an
      `AnchorError` without a code, a `SendTransactionError` without logs,
      and any other error (including the harness's own assertion error on
      success) each fail with their own failure. */
  lemma ExpectErrorFailurePaths(settled: Settlement, expected: Expectation)
    requires Given(expected)
    ensures settled.Rejected? && settled.error.AnchorErr? && settled.error.code.None? ==>
      ExpectError(settled, expected) == Fail(MissingErrorCode)
    ensures settled.Rejected? && settled.error.SendTransactionErr? && settled.error.logs.None? ==>
      ExpectError(settled, expected) == Fail(LogsMissing)
    ensures settled.Resolved? || settled.error.OtherErr? ==> ExpectError(settled, expected) == Fail(UnexpectedError)
  {
  }

  /** An `AnchorError` with a code is matched by number against a numeric
      expectation and by code against a textual one. */
  lemma ExpectAnchorError(code: string, number: int, expected: Expectation)
    requires Given(expected)
    ensures ExpectError(Rejected(AnchorErr(Some(code), number)), expected) == Pass <==>
      (if expected.ByNumber? then number == expected.number else code == expected.code)
  {
  }
}
