/** What `fetchAllEvents` guarantees, proved of its specification: each
    event is the first decoder's reading of some scanned payload, no key
    and no payload occurs twice, nothing decodable is lost, events keep
    the order in which their payloads were first scanned, inner-instruction
    events precede log events, and there are no more events than
    payloads. */
module ReconcilerProperties {
  import opened Wrappers
  import opened EventReconciler

  /** `event` is what the first accepting decoder makes of `key.payload`,
      and `key` names that decoder's program. */
  ghost predicate Explains(decoders: seq<Decoder>, key: DedupeKey, event: DecodedEvent) {
    var first := FirstDecoder(decoders, key.payload);
    && first.Some?
    && key.programId == decoders[first.value].programId
    && event == DecodedEvent(decoders[first.value].programId, decoders[first.value].name,
                             decoders[first.value].decode(key.payload).event)
  }

  ghost predicate Faithful(decoders: seq<Decoder>, s: Scan, payloads: seq<string>) {
    && |s.events| == |s.keys|
    && (forall i, j :: 0 <= i < j < |s.keys| ==> s.keys[i] != s.keys[j])
    && (forall i :: 0 <= i < |s.keys| ==> s.keys[i].payload in payloads && Explains(decoders, s.keys[i], s.events[i]))
  }

  lemma ScanAllSnoc(decoders: seq<Decoder>, s: Scan, payloads: seq<string>, payload: string)
    ensures ScanAll(decoders, s, payloads + [payload]) == TryDecodeSpec(decoders, ScanAll(decoders, s, payloads), payload)
  {
    assert (payloads + [payload])[..|payloads|] == payloads;
  }

  /** Every event is explained by its key, whose payload was scanned, and
      no key occurs twice. */
  lemma {:induction false} ScanAllFaithful(decoders: seq<Decoder>, payloads: seq<string>)
    ensures Faithful(decoders, ScanAll(decoders, Empty, payloads), payloads)
  {
    if payloads != [] {
      var init, last := payloads[..|payloads| - 1], payloads[|payloads| - 1];
      assert payloads == init + [last];
      ScanAllFaithful(decoders, init);
      ScanAllSnoc(decoders, Empty, init, last);
    }
  }

  /** Keys are only ever added. */
  lemma {:induction false} ScanAllGrows(decoders: seq<Decoder>, s: Scan, payloads: seq<string>)
    ensures var r := ScanAll(decoders, s, payloads);
      s.events <= r.events && s.keys <= r.keys
  {
    if payloads != [] {
      var init, last := payloads[..|payloads| - 1], payloads[|payloads| - 1];
      ScanAllGrows(decoders, s, init);
    }
  }

  /** Every scanned payload that some decoder accepts has its key among
      the result's: a payload is dropped only as noise or as a duplicate. */
  lemma {:induction false} ScanAllComplete(decoders: seq<Decoder>, payloads: seq<string>, p: string)
    requires p in payloads && FirstDecoder(decoders, p).Some?
    ensures DedupeKey(decoders[FirstDecoder(decoders, p).value].programId, p) in ScanAll(decoders, Empty, payloads).keys
  {
    var init, last := payloads[..|payloads| - 1], payloads[|payloads| - 1];
    assert payloads == init + [last];
    ScanAllSnoc(decoders, Empty, init, last);
    ScanAllGrows(decoders, ScanAll(decoders, Empty, init), [last]);
    if p in init {
      ScanAllComplete(decoders, init, p);
    }
  }

  /** No two events come from the same payload, so a payload observed on
      both channels yields at most one event. */
  lemma OnePayloadOneEvent(decoders: seq<Decoder>, payloads: seq<string>)
    ensures var s := ScanAll(decoders, Empty, payloads);
      forall i, j :: 0 <= i < j < |s.keys| ==> s.keys[i].payload != s.keys[j].payload
  {
    ScanAllFaithful(decoders, payloads);
  }

  /** There are no more events than scanned payloads. */
  lemma {:induction false} ScanAllBound(decoders: seq<Decoder>, payloads: seq<string>)
    ensures |ScanAll(decoders, Empty, payloads).events| <= |payloads|
  {
    if payloads != [] {
      ScanAllBound(decoders, payloads[..|payloads| - 1]);
    }
  }

  /** Scanning two lists is scanning the first and then the second from
      where the first left off. */
  lemma {:induction false} ScanAllConcat(decoders: seq<Decoder>, s: Scan, xs: seq<string>, ys: seq<string>)
    ensures ScanAll(decoders, s, xs + ys) == ScanAll(decoders, ScanAll(decoders, s, xs), ys)
  {
    if ys == [] {
      assert xs + ys == xs;
    } else {
      var init, last := ys[..|ys| - 1], ys[|ys| - 1];
      assert ys == init + [last];
      assert xs + ys == (xs + init) + [last];
      ScanAllConcat(decoders, s, xs, init);
      ScanAllSnoc(decoders, s, xs + init, last);
      ScanAllSnoc(decoders, ScanAll(decoders, s, xs), init, last);
    }
  }

  /** What a scan adds to a state comes from the payloads it scans. */
  lemma {:induction false} ScanAllAddsFrom(decoders: seq<Decoder>, s: Scan, payloads: seq<string>)
    requires |s.events| == |s.keys|
    ensures var r := ScanAll(decoders, s, payloads);
      |r.events| == |r.keys| && forall i :: |s.keys| <= i < |r.keys| ==> r.keys[i].payload in payloads
  {
    if payloads != [] {
      var init, last := payloads[..|payloads| - 1], payloads[|payloads| - 1];
      ScanAllAddsFrom(decoders, s, init);
    }
  }

  /** `fetchAllEvents` returns the events of the inner-instruction scan
      first, unchanged and in order, and after them only events whose
      payloads came from log lines. */
  lemma InnerBeforeLogs(decoders: seq<Decoder>, tx: TransactionMetadata, base64: seq<bv8> -> string)
    ensures var inner := ScanAll(decoders, Empty, InnerPayloads(Flatten(tx.innerInstructions), base64));
      var all := ScanAll(decoders, Empty, Payloads(tx, base64));
      && inner.events <= all.events
      && AllEvents(decoders, tx, base64) == all.events
      && forall i :: |inner.keys| <= i < |all.keys| ==> all.keys[i].payload in LogPayloads(tx.logs)
  {
    var ips := InnerPayloads(Flatten(tx.innerInstructions), base64);
    var inner := ScanAll(decoders, Empty, ips);
    ScanAllConcat(decoders, Empty, ips, LogPayloads(tx.logs));
    ScanAllGrows(decoders, inner, LogPayloads(tx.logs));
    ScanAllFaithful(decoders, ips);
    ScanAllAddsFrom(decoders, inner, LogPayloads(tx.logs));
  }

  /** A payload carried both by an inner instruction and by a log line,
      and accepted by some decoder, yields exactly one event. */
  lemma PayloadOnBothChannels(decoders: seq<Decoder>, tx: TransactionMetadata, base64: seq<bv8> -> string, p: string)
    requires p in InnerPayloads(Flatten(tx.innerInstructions), base64)
    requires p in LogPayloads(tx.logs)
    requires FirstDecoder(decoders, p).Some?
    ensures var s := ScanAll(decoders, Empty, Payloads(tx, base64));
      exists i :: 0 <= i < |s.keys| && s.keys[i].payload == p
        && (forall j :: 0 <= j < |s.keys| && j != i ==> s.keys[j].payload != p)
  {
    var ps := Payloads(tx, base64);
    ScanAllComplete(decoders, ps, p);
    OnePayloadOneEvent(decoders, ps);
  }

  /** The position of the first occurrence of `p` in `payloads`. */
  ghost function FirstPosition(payloads: seq<string>, p: string): (k: nat)
    requires p in payloads
    ensures k < |payloads| && payloads[k] == p && forall m :: 0 <= m < k ==> payloads[m] != p
  {
    FindFirst(payloads, (q: string) => q == p).value
  }

  lemma FirstPositionInPrefix(payloads: seq<string>, n: nat, p: string)
    requires n <= |payloads| && p in payloads[..n]
    ensures p in payloads && FirstPosition(payloads, p) == FirstPosition(payloads[..n], p)
  {
  }

  /** Events come in the order in which their payloads were first
      scanned. */
  lemma {:induction false} ScanAllOrdered(decoders: seq<Decoder>, payloads: seq<string>)
    ensures var s := ScanAll(decoders, Empty, payloads);
      forall i, j :: 0 <= i < j < |s.keys| ==>
        s.keys[i].payload in payloads && s.keys[j].payload in payloads &&
        FirstPosition(payloads, s.keys[i].payload) < FirstPosition(payloads, s.keys[j].payload)
  {
    if payloads != [] {
      var init, last := payloads[..|payloads| - 1], payloads[|payloads| - 1];
      assert payloads == init + [last];
      ScanAllOrdered(decoders, init);
      ScanAllFaithful(decoders, init);
      ScanAllFaithful(decoders, payloads);
      ScanAllSnoc(decoders, Empty, init, last);
      var before := ScanAll(decoders, Empty, init);
      var s := ScanAll(decoders, Empty, payloads);
      forall i | 0 <= i < |before.keys|
        ensures FirstPosition(payloads, before.keys[i].payload) == FirstPosition(init, before.keys[i].payload)
      {
        FirstPositionInPrefix(payloads, |init|, before.keys[i].payload);
      }
      if |s.keys| > |before.keys| {
        // The appended key's payload is `last`, and `last` is new: had it
        // been scanned before, its key would be recorded already.
        var n := |before.keys|;
        assert s.keys == before.keys + [s.keys[n]];
        if last in init {
          ScanAllComplete(decoders, init, last);
          assert false;
        }
        assert FirstPosition(payloads, last) == |init|;
      }
    }
  }

  /** The payloads of inner instructions are exactly the base64 texts of
      the data of those with at least 8 bytes, after their first 8. */
  lemma {:induction false} InnerPayloadsMembers(ixs: seq<Instruction>, base64: seq<bv8> -> string, p: string)
    ensures p in InnerPayloads(ixs, base64) <==>
      exists i :: 0 <= i < |ixs| && |ixs[i].data| >= 8 && p == base64(ixs[i].data[8..])
  {
    if ixs != [] {
      var init := ixs[..|ixs| - 1];
      InnerPayloadsMembers(init, base64, p);
      assert forall i :: 0 <= i < |init| ==> init[i] == ixs[i];
    }
  }

  /** The payloads of log lines are exactly the `Program data: ` lines'
      remainders. */
  lemma {:induction false} LogPayloadsMembers(logs: seq<string>, p: string)
    ensures p in LogPayloads(logs) <==> exists j :: 0 <= j < |logs| && LogPayload(logs[j]) == Some(p)
  {
    if logs != [] {
      var init, last := logs[..|logs| - 1], logs[|logs| - 1];
      var found := LogPayload(last);
      var tail := if found.Some? then [found.value] else [];
      assert LogPayloads(logs) == LogPayloads(init) + tail;
      LogPayloadsMembers(init, p);
      if p in LogPayloads(logs) {
        if p in LogPayloads(init) {
          var j :| 0 <= j < |init| && LogPayload(init[j]) == Some(p);
          assert logs[j] == init[j];
        } else {
          assert LogPayload(logs[|logs| - 1]) == Some(p);
        }
      }
      if exists j :: 0 <= j < |logs| && LogPayload(logs[j]) == Some(p) {
        var j :| 0 <= j < |logs| && LogPayload(logs[j]) == Some(p);
        if j < |init| {
          assert init[j] == logs[j];
        } else {
          assert tail == [p];
        }
      }
    }
  }

  /** There are no more inner payloads than instructions, and
      instructions with fewer than 8 bytes contribute none. */
  lemma {:induction false} InnerPayloadsBound(ixs: seq<Instruction>, base64: seq<bv8> -> string)
    ensures |InnerPayloads(ixs, base64)| <= |ixs|
    ensures (forall i :: 0 <= i < |ixs| ==> |ixs[i].data| < 8) ==> InnerPayloads(ixs, base64) == []
    ensures forall ix: Instruction :: |ix.data| < 8 ==> InnerPayloads(ixs + [ix], base64) == InnerPayloads(ixs, base64)
  {
    if ixs != [] {
      InnerPayloadsBound(ixs[..|ixs| - 1], base64);
    }
  }

  /** The inner payloads of two instruction lists are those of the first
      followed by those of the second. */
  lemma {:induction false} InnerPayloadsAppend(xs: seq<Instruction>, ys: seq<Instruction>, base64: seq<bv8> -> string)
    ensures InnerPayloads(xs + ys, base64) == InnerPayloads(xs, base64) + InnerPayloads(ys, base64)
  {
    if ys == [] {
      assert xs + ys == xs;
    } else {
      var init := ys[..|ys| - 1];
      assert (xs + ys)[..|xs + ys| - 1] == xs + init;
      InnerPayloadsAppend(xs, init, base64);
    }
  }

  /** The log payloads of two lists of lines are those of the first
      followed by those of the second. */
  lemma {:induction false} LogPayloadsAppend(xs: seq<string>, ys: seq<string>)
    ensures LogPayloads(xs + ys) == LogPayloads(xs) + LogPayloads(ys)
  {
    if ys == [] {
      assert xs + ys == xs;
    } else {
      var init := ys[..|ys| - 1];
      assert (xs + ys)[..|xs + ys| - 1] == xs + init;
      LogPayloadsAppend(xs, init);
    }
  }

  /** The number of inner instructions with at least 8 bytes of data. */
  function LongInstructions(ixs: seq<Instruction>): nat {
    if ixs == [] then 0 else (if |ixs[0].data| >= 8 then 1 else 0) + LongInstructions(ixs[1..])
  }

  /** The number of log lines `/^Program data: (.+)$/` matches. */
  function ProgramDataLines(logs: seq<string>): nat {
    if logs == [] then 0 else (if IsProgramData(logs[0]) then 1 else 0) + ProgramDataLines(logs[1..])
  }

  /** Every inner instruction of at least 8 bytes yields one payload and
      every shorter one none. */
  lemma {:induction false} InnerPayloadsCount(ixs: seq<Instruction>, base64: seq<bv8> -> string)
    ensures |InnerPayloads(ixs, base64)| == LongInstructions(ixs)
  {
    if ixs != [] {
      assert ixs == [ixs[0]] + ixs[1..];
      InnerPayloadsAppend([ixs[0]], ixs[1..], base64);
      assert [ixs[0]][..0] == [];
      InnerPayloadsCount(ixs[1..], base64);
    }
  }

  /** Every matching log line yields one payload and every other none. */
  lemma {:induction false} LogPayloadsCount(logs: seq<string>)
    ensures |LogPayloads(logs)| == ProgramDataLines(logs)
  {
    if logs != [] {
      assert logs == [logs[0]] + logs[1..];
      LogPayloadsAppend([logs[0]], logs[1..]);
      assert [logs[0]][..0] == [];
      LogPayloadsCount(logs[1..]);
    }
  }

  /** `fetchAllEvents` returns at most one event per inner instruction of
      at least 8 bytes plus one per matching log line. */
  lemma AllEventsBound(decoders: seq<Decoder>, tx: TransactionMetadata, base64: seq<bv8> -> string)
    ensures |AllEvents(decoders, tx, base64)| <=
      LongInstructions(Flatten(tx.innerInstructions)) + ProgramDataLines(tx.logs)
  {
    ScanAllBound(decoders, Payloads(tx, base64));
    InnerPayloadsCount(Flatten(tx.innerInstructions), base64);
    LogPayloadsCount(tx.logs);
  }

  /** Payloads that no decoder accepts leave the scan as it was. */
  lemma {:induction false} ScanAllNoise(decoders: seq<Decoder>, s: Scan, payloads: seq<string>)
    requires forall p :: p in payloads ==> FirstDecoder(decoders, p).None?
    ensures ScanAll(decoders, s, payloads) == s
  {
    if payloads != [] {
      var init := payloads[..|payloads| - 1];
      assert forall p :: p in init ==> p in payloads;
      ScanAllNoise(decoders, s, init);
    }
  }
}
