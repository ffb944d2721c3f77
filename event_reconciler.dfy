/** The test harness's event reconciler: it scans a transaction's inner
    instructions and then its log lines for event payloads, decodes each
    with the first decoder that accepts it, and keeps one event per
    (program id, payload). */
module EventReconciler {
  import opened Wrappers
  import opened Solana

  /** A decoded field value, as the harness inspects it. */
  datatype Value =
    | PublicKey(key: Pubkey)
    | BN(n: int)
    | Array(items: seq<Value>)
    | Num(x: int)
    | Str(s: string)
    | Bool(b: bool)

  /** An Anchor event: its name and its fields. */
  datatype AnchorEvent = AnchorEvent(name: string, data: map<string, Value>)

  datatype ProgramName = Counter

  datatype DecodedEvent = DecodedEvent(programId: string, programName: ProgramName, event: AnchorEvent)

  /** What one decoder does with a payload: an event, nothing, or a throw. */
  datatype DecodeAttempt = Decoded(event: AnchorEvent) | NoEvent | Threw

  /** A known program: its id as text, its name and its event decoder. */
  datatype Decoder = Decoder(programId: string, name: ProgramName, decode: string -> DecodeAttempt)

  /** An inner (cross-program) instruction; only its data is read. */
  datatype Instruction = Instruction(data: seq<bv8>)

  /** What the simulator records of an executed transaction. */
  datatype TransactionMetadata = TransactionMetadata(innerInstructions: seq<seq<Instruction>>, logs: seq<string>)

  /** The de-duplication key, `${programId}:${payload}`. */
  datatype DedupeKey = DedupeKey(programId: string, payload: string)

  /** The length of the event-instruction tag stripped from inner data. */
  const DISCRIMINATOR_LEN: nat := 8

  const PROGRAM_DATA: string := "Program data: "

  /** JavaScript `Array.prototype.flat` on an array of arrays. */
  function Flatten(groups: seq<seq<Instruction>>): seq<Instruction> {
    if groups == [] then [] else Flatten(groups[..|groups| - 1]) + groups[|groups| - 1]
  }

  /** The payload an inner instruction carries: its data without the first
      8 bytes, base64-encoded; nothing when it has fewer than 8 bytes. */
  function InnerPayload(ix: Instruction, base64: seq<bv8> -> string): seq<string> {
    if |ix.data| < DISCRIMINATOR_LEN then [] else [base64(ix.data[DISCRIMINATOR_LEN..])]
  }

  /** The payloads of the inner instructions, in scan order. */
  function InnerPayloads(ixs: seq<Instruction>, base64: seq<bv8> -> string): (r: seq<string>)
    ensures |r| <= |ixs|
  {
    if ixs == [] then []
    else InnerPayloads(ixs[..|ixs| - 1], base64) + InnerPayload(ixs[|ixs| - 1], base64)
  }

  /** The JavaScript line terminators, which `.` in a regular expression
      does not match. */
  predicate IsLineTerminator(c: char) {
    c == '\n' || c == '\r' || c == '\U{2028}' || c == '\U{2029}'
  }

  /** `/^Program data: (.+)$/` matches `line`: it is "Program data: "
      followed by at least one character, none a line terminator. */
  predicate IsProgramData(line: string) {
    && PROGRAM_DATA <= line
    && |line| > |PROGRAM_DATA|
    && forall i :: |PROGRAM_DATA| <= i < |line| ==> !IsLineTerminator(line[i])
  }

  /** `log.match(/^Program data: (.+)$/)?.[1]`: the text after the prefix,
      on the lines the expression matches. */
  function LogPayload(line: string): (r: Option<string>)
    ensures r.Some? <==> IsProgramData(line)
    ensures r.Some? ==> PROGRAM_DATA + r.value == line
  {
    if IsProgramData(line) then Some(line[|PROGRAM_DATA|..]) else None
  }

  /** The payloads of the log lines, in scan order. */
  function LogPayloads(logs: seq<string>): (r: seq<string>)
    ensures |r| <= |logs|
  {
    if logs == [] then []
    else
      var last := LogPayload(logs[|logs| - 1]);
      LogPayloads(logs[..|logs| - 1]) + (if last.Some? then [last.value] else [])
  }

  /** Every payload `fetchAllEvents` hands to `tryDecode`: those of the
      inner instructions, then those of the log lines. */
  function Payloads(tx: TransactionMetadata, base64: seq<bv8> -> string): seq<string> {
    InnerPayloads(Flatten(tx.innerInstructions), base64) + LogPayloads(tx.logs)
  }

  /** The index of the first decoder that yields an event for `payload`. */
  function FirstDecoder(decoders: seq<Decoder>, payload: string): Option<nat> {
    FindFirst(decoders, (d: Decoder) => d.decode(payload).Decoded?)
  }

  /** What `tryDecode` appends for `payload` given the keys seen so far:
      the first decoder's event and its key, unless no decoder yields an
      event or that key was seen already. */
  function DecodeStep(decoders: seq<Decoder>, seen: set<DedupeKey>, payload: string): (r: Option<(DedupeKey, DecodedEvent)>)
    ensures r.Some? <==>
      exists i :: 0 <= i < |decoders| && decoders[i].decode(payload).Decoded?
        && DedupeKey(decoders[FirstDecoder(decoders, payload).value].programId, payload) !in seen
    ensures r.Some? ==>
      var d := decoders[FirstDecoder(decoders, payload).value];
      && r.value.0 == DedupeKey(d.programId, payload)
      && r.value.1 == DecodedEvent(d.programId, d.name, d.decode(payload).event)
      && (forall j :: 0 <= j < FirstDecoder(decoders, payload).value ==> !decoders[j].decode(payload).Decoded?)
  {
    match FirstDecoder(decoders, payload)
    case None => None
    case Some(i) =>
      var d := decoders[i];
      var key := DedupeKey(d.programId, payload);
      if key in seen then None
      else Some((key, DecodedEvent(d.programId, d.name, d.decode(payload).event)))
  }

  /** The reconciler's state as a value: the events so far and the key of
      each, in the same order. */
  datatype Scan = Scan(events: seq<DecodedEvent>, keys: seq<DedupeKey>)

  const Empty: Scan := Scan([], [])

  function KeySet(keys: seq<DedupeKey>): set<DedupeKey> {
    set k | k in keys
  }

  lemma KeySetAppend(keys: seq<DedupeKey>, key: DedupeKey)
    ensures KeySet(keys + [key]) == KeySet(keys) + {key}
  {
  }

  function TryDecodeSpec(decoders: seq<Decoder>, s: Scan, payload: string): Scan {
    match DecodeStep(decoders, KeySet(s.keys), payload)
    case None => s
    case Some((key, event)) => Scan(s.events + [event], s.keys + [key])
  }

  /** `tryDecode` on each payload in turn. */
  function ScanAll(decoders: seq<Decoder>, s: Scan, payloads: seq<string>): Scan {
    if payloads == [] then s
    else TryDecodeSpec(decoders, ScanAll(decoders, s, payloads[..|payloads| - 1]), payloads[|payloads| - 1])
  }

  /** The events `fetchAllEvents` returns for a transaction. */
  function AllEvents(decoders: seq<Decoder>, tx: TransactionMetadata, base64: seq<bv8> -> string): seq<DecodedEvent> {
    ScanAll(decoders, Empty, Payloads(tx, base64)).events
  }

  /** `tryDecode`: tries the decoders in order and, at the first that
      yields an event, records it unless its key was seen. */
  method TryDecode(decoders: seq<Decoder>, events: seq<DecodedEvent>, seen: set<DedupeKey>, payload: string)
    returns (events': seq<DecodedEvent>, seen': set<DedupeKey>)
    ensures DecodeStep(decoders, seen, payload).None? ==> events' == events && seen' == seen
    ensures DecodeStep(decoders, seen, payload).Some? ==>
      var (key, event) := DecodeStep(decoders, seen, payload).value;
      events' == events + [event] && seen' == seen + {key}
  {
    events', seen' := events, seen;
    for i := 0 to |decoders|
      invariant forall j :: 0 <= j < i ==> !decoders[j].decode(payload).Decoded?
    {
      var d := decoders[i];
      var attempt := d.decode(payload);
      if attempt.Decoded? {
        var key := DedupeKey(d.programId, payload);
        if key in seen {
          return;
        }
        events' := events + [DecodedEvent(d.programId, d.name, attempt.event)];
        seen' := seen + {key};
        return;
      }
    }
  }

  lemma InnerPayloadsPrefix(ixs: seq<Instruction>, i: nat, base64: seq<bv8> -> string)
    requires i < |ixs|
    ensures InnerPayloads(ixs[..i + 1], base64) == InnerPayloads(ixs[..i], base64) + InnerPayload(ixs[i], base64)
  {
    assert ixs[..i + 1][..i] == ixs[..i];
  }

  lemma LogPayloadsPrefix(logs: seq<string>, j: nat)
    requires j < |logs|
    ensures var found := LogPayload(logs[j]);
      LogPayloads(logs[..j + 1]) == LogPayloads(logs[..j]) + (if found.Some? then [found.value] else [])
  {
    assert logs[..j + 1][..j] == logs[..j];
  }

  /** Scanning one more payload is one more `tryDecode`, which records its
      key in the seen set exactly when it appends an event. */
  lemma ScanOneMore(decoders: seq<Decoder>, payloads: seq<string>, payload: string)
    ensures var before := ScanAll(decoders, Empty, payloads);
      var after := ScanAll(decoders, Empty, payloads + [payload]);
      var step := DecodeStep(decoders, KeySet(before.keys), payload);
      && (step.None? ==> after == before)
      && (step.Some? ==> after.events == before.events + [step.value.1]
                         && KeySet(after.keys) == KeySet(before.keys) + {step.value.0})
  {
    assert (payloads + [payload])[..|payloads|] == payloads;
    var before := ScanAll(decoders, Empty, payloads);
    var step := DecodeStep(decoders, KeySet(before.keys), payload);
    if step.Some? {
      KeySetAppend(before.keys, step.value.0);
    }
  }

  /** `fetchAllEvents`: the inner-instruction scan, then the log scan. */
  method FetchAllEvents(decoders: seq<Decoder>, tx: TransactionMetadata, base64: seq<bv8> -> string)
    returns (events: seq<DecodedEvent>)
    ensures events == AllEvents(decoders, tx, base64)
  {
    var seen: set<DedupeKey>;
    events, seen := ScanInstructions(decoders, Flatten(tx.innerInstructions), base64);
    events, seen := ScanLogs(decoders, InnerPayloads(Flatten(tx.innerInstructions), base64), tx.logs, events, seen);
  }

  /** The first loop of `fetchAllEvents`: every inner instruction with at
      least 8 bytes of data hands its payload to `tryDecode`. */
  method ScanInstructions(decoders: seq<Decoder>, flat: seq<Instruction>, base64: seq<bv8> -> string)
    returns (events: seq<DecodedEvent>, seen: set<DedupeKey>)
    ensures var s := ScanAll(decoders, Empty, InnerPayloads(flat, base64));
      events == s.events && seen == KeySet(s.keys)
  {
    events, seen := [], {};
    for i := 0 to |flat|
      invariant var s := ScanAll(decoders, Empty, InnerPayloads(flat[..i], base64));
        events == s.events && seen == KeySet(s.keys)
    {
      InnerPayloadsPrefix(flat, i, base64);
      var data := flat[i].data;
      if |data| < DISCRIMINATOR_LEN {
        assert InnerPayloads(flat[..i], base64) + [] == InnerPayloads(flat[..i], base64);
        continue;
      }
      var payload := base64(data[DISCRIMINATOR_LEN..]);
      ScanOneMore(decoders, InnerPayloads(flat[..i], base64), payload);
      events, seen := TryDecode(decoders, events, seen, payload);
    }
    assert flat[..|flat|] == flat;
  }

  /** The second loop of `fetchAllEvents`: every `Program data:` line
      hands its payload to `tryDecode`, continuing the scan of the inner
      payloads `inner`. */
  method ScanLogs(decoders: seq<Decoder>, ghost inner: seq<string>, logs: seq<string>,
                  events0: seq<DecodedEvent>, seen0: set<DedupeKey>)
    returns (events: seq<DecodedEvent>, seen: set<DedupeKey>)
    requires var s := ScanAll(decoders, Empty, inner); events0 == s.events && seen0 == KeySet(s.keys)
    ensures var s := ScanAll(decoders, Empty, inner + LogPayloads(logs));
      events == s.events && seen == KeySet(s.keys)
  {
    events, seen := events0, seen0;
    assert inner + LogPayloads(logs[..0]) == inner;
    for j := 0 to |logs|
      invariant var s := ScanAll(decoders, Empty, inner + LogPayloads(logs[..j]));
        events == s.events && seen == KeySet(s.keys)
    {
      LogPayloadsPrefix(logs, j);
      var found := LogPayload(logs[j]);
      if found.None? {
        assert LogPayloads(logs[..j]) + [] == LogPayloads(logs[..j]);
        continue;
      }
      ScanOneMore(decoders, inner + LogPayloads(logs[..j]), found.value);
      assert inner + LogPayloads(logs[..j + 1]) == inner + LogPayloads(logs[..j]) + [found.value];
      events, seen := TryDecode(decoders, events, seen, found.value);
    }
    assert logs[..|logs|] == logs;
  }

  /** `fetchEvent`: the first event whose name is exactly `eventName`. */
  function FetchEvent(decoders: seq<Decoder>, tx: TransactionMetadata, base64: seq<bv8> -> string, eventName: string)
    : (r: Result<DecodedEvent, string>)
    ensures var events := AllEvents(decoders, tx, base64);
      r.Success? <==> exists i :: 0 <= i < |events| && events[i].event.name == eventName
    ensures var events := AllEvents(decoders, tx, base64);
      r.Success? ==> exists i :: (0 <= i < |events| && events[i] == r.value && r.value.event.name == eventName
        && forall j :: 0 <= j < i ==> events[j].event.name != eventName)
    ensures r.Failure? ==> r.error == "Event \"" + eventName + "\" not found"
  {
    var events := AllEvents(decoders, tx, base64);
    match FindFirst(events, (e: DecodedEvent) => e.event.name == eventName)
    case None => Failure("Event \"" + eventName + "\" not found")
    case Some(i) => Success(events[i])
  }
}
