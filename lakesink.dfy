/**
 * The batching lake sink (src/lakesink.rs).  Each loop step resolves the race
 * between the next consumed record and cancellation; a record is pushed onto
 * the batch, a full batch is stored as one blob and only then are the offsets
 * committed, and cancellation drains a non-empty batch once before the loop
 * ends.  The lake and the broker are oracles: each event carries the answers
 * they give to a flush the event triggers.
 */
module LakeSink {
  import opened Wrappers
  import opened KafkaStream
  import opened SinkTrace
  import opened BatchSize
  import BatchBlob
  import Utf8

  datatype LakeSinkError = RecordStream(cause: RecordStreamError) | Lake

  /** One resolution of the consume/cancel race, with the lake's and the broker's answers to a flush it leads to. */
  datatype Event =
    | Consumed(recv: Recv, lakeAccepts: bool, brokerAccepts: bool)
    | CancelFired(lakeAccepts: bool, brokerAccepts: bool)

  /** What one loop iteration leads to: another iteration, `break`, or an error out of `?`. */
  datatype StepOutcome = Continue | Finished | Failed(error: LakeSinkError)

  /** How `start_lakesink` ends on a finite run of events. */
  datatype SinkOutcome =
    | ConfigAbort(config: ConfigError)   // the batch-size panic
    | Waiting                            // still blocked in the race when the events run out
    | Done                               // `Ok(())` after cancellation
    | Stopped(error: LakeSinkError)      // `Err(..)`

  /** The effects of `store_batch`: store, then commit (sending `offsets`), then the flush metric. */
  function FlushEffects(batch: seq<string>, offsets: map<TopicPartition, int>, lakeAccepts: bool, brokerAccepts: bool): seq<Effect>
  {
    if !lakeAccepts then []
    else [Stored(batch, BatchBlob.Join(batch)), Committed(offsets)] + (if brokerAccepts then [Flushed] else [])
  }

  /** The result of `store_batch`: the store's error first, then the commit's. */
  function FlushResult(lakeAccepts: bool, brokerAccepts: bool): (r: Result<(), LakeSinkError>)
    ensures r.Ok? <==> lakeAccepts && brokerAccepts
    ensures !lakeAccepts ==> r == Err(Lake)
    ensures lakeAccepts && !brokerAccepts ==> r == Err(RecordStream(CommitError))
  {
    if !lakeAccepts then Err(Lake)
    else if !brokerAccepts then Err(RecordStream(CommitError))
    else Ok(())
  }

  function AfterFlush(r: Result<(), LakeSinkError>, success: StepOutcome): StepOutcome
  {
    if r.Ok? then success else Failed(r.error)
  }

  /** What the loop carries from one iteration to the next: the batch, the history so far and the stream's tracker. */
  datatype LoopState = LoopState(batch: seq<string>, trace: seq<Effect>, tpl: map<TopicPartition, int>)

  /** The state before the first iteration: empty batch, empty history, empty tracker. */
  const START := LoopState([], [], map[])

  /** One loop iteration on `s`, as a value: the reference `LakeSink.Step` is proved against. */
  function StepSpec(batchSize: nat, s: LoopState, ev: Event): (StepOutcome, LoopState)
  {
    match ev
    case Consumed(RecvFailed, _, _) => (Failed(RecordStream(ReceiveError)), s)
    case Consumed(Delivered(msg), lakeAccepts, brokerAccepts) =>
      (match DecodePayload(msg.payload)
       case Err(e) => (Failed(RecordStream(e)), s)
       case Ok(record) =>
         var tpl := s.tpl[msg.Key() := msg.offset + 1];
         var pushed := s.batch + [record];
         var got := s.trace + [Received(msg, record)];
         if |pushed| < batchSize then (Continue, LoopState(pushed, got, tpl))
         else
           var r := FlushResult(lakeAccepts, brokerAccepts);
           (AfterFlush(r, Continue),
            LoopState(if r.Ok? then [] else pushed, got + FlushEffects(pushed, tpl, lakeAccepts, brokerAccepts), tpl)))
    case CancelFired(lakeAccepts, brokerAccepts) =>
      if s.batch == [] then (Finished, s)
      else
        (AfterFlush(FlushResult(lakeAccepts, brokerAccepts), Finished),
         s.(trace := s.trace + FlushEffects(s.batch, s.tpl, lakeAccepts, brokerAccepts)))
  }

  /**
   * The loop from state `s` over `events`: how it ends, its final state, and
   * how many events it looked at before it stopped.
   */
  function RunFrom(batchSize: nat, s: LoopState, events: seq<Event>): (r: (SinkOutcome, LoopState, nat))
    ensures r.2 <= |events| && !r.0.ConfigAbort?
    ensures r.0.Waiting? ==> r.2 == |events|
    ensures !r.0.Waiting? ==> 0 < r.2
    decreases |events|
  {
    if events == [] then (Waiting, s, 0)
    else
      var step := StepSpec(batchSize, s, events[0]);
      match step.0
      case Continue =>
        var rest := RunFrom(batchSize, step.1, events[1..]);
        (rest.0, rest.1, rest.2 + 1)
      case Finished => (Done, step.1, 1)
      case Failed(e) => (Stopped(e), step.1, 1)
  }

  /** `start_lakesink` as a value: its outcome, its history, and how many events it looked at. */
  function RunSpec(env: map<string, string>, events: seq<Event>): (r: (SinkOutcome, seq<Effect>, nat))
    ensures r.2 <= |events|
    ensures r.0.ConfigAbort? <==> BatchSizeFromEnv(env).Err?
  {
    match BatchSizeFromEnv(env)
    case Err(e) => (ConfigAbort(e), [], 0)
    case Ok(size) =>
      var (outcome, last, n) := RunFrom(size, START, events);
      (outcome, last.trace, n)
  }

  /** An event the loop gets past without failing on it: a delivered message whose payload decodes. */
  predicate Proceeds(ev: Event)
  {
    ev.Consumed? && ev.recv.Delivered? && DecodePayload(ev.recv.msg.payload).Ok?
  }

  /** The messages of the events that get a record onto the batch, in order. */
  function Decoded(events: seq<Event>): seq<Message>
  {
    if events == [] then []
    else (if Proceeds(events[0]) then [events[0].recv.msg] else []) + Decoded(events[1..])
  }

  /** Nothing is pending: either nothing happened yet, or the last flush stored and committed `tpl` and was counted. */
  predicate Drained(t: seq<Effect>, tpl: map<TopicPartition, int>)
  {
    t == [] || (|t| >= 2 && t[|t| - 1] == Flushed && t[|t| - 2] == Committed(tpl))
  }

  /** A flush adds no consumed message, and stores exactly the batch when the lake accepts it. */
  lemma FlushEffectsHistory(t: seq<Effect>, batch: seq<string>, offsets: map<TopicPartition, int>, lakeAccepts: bool, brokerAccepts: bool)
    ensures Messages(t + FlushEffects(batch, offsets, lakeAccepts, brokerAccepts)) == Messages(t)
    ensures StoredRecords(t + FlushEffects(batch, offsets, lakeAccepts, brokerAccepts))
      == StoredRecords(t) + (if lakeAccepts then batch else [])
    ensures lakeAccepts && brokerAccepts ==> Drained(t + FlushEffects(batch, offsets, lakeAccepts, brokerAccepts), offsets)
  {
    if lakeAccepts {
      var t1 := t + [Stored(batch, BatchBlob.Join(batch))];
      var t2 := t1 + [Committed(offsets)];
      AppendEffect(t, Stored(batch, BatchBlob.Join(batch)));
      AppendEffect(t1, Committed(offsets));
      if brokerAccepts {
        AppendEffect(t2, Flushed);
        assert t + FlushEffects(batch, offsets, lakeAccepts, brokerAccepts) == t2 + [Flushed];
      } else {
        assert t + FlushEffects(batch, offsets, lakeAccepts, brokerAccepts) == t2;
      }
    } else {
      assert t + FlushEffects(batch, offsets, lakeAccepts, brokerAccepts) == t;
    }
  }

  /** One step adds exactly the message of an event that proceeds to the history, and no other. */
  lemma StepSpecMessages(batchSize: nat, s: LoopState, ev: Event)
    ensures Messages(StepSpec(batchSize, s, ev).1.trace)
      == Messages(s.trace) + (if Proceeds(ev) then [ev.recv.msg] else [])
  {
    if Proceeds(ev) {
      RecordStepHistory(batchSize, s, ev.recv.msg, DecodePayload(ev.recv.msg.payload).value, ev.lakeAccepts, ev.brokerAccepts);
    } else if ev.CancelFired? && s.batch != [] {
      FlushEffectsHistory(s.trace, s.batch, s.tpl, ev.lakeAccepts, ev.brokerAccepts);
    }
  }

  /** The history after a record step: the record's arrival, then the flush it triggers, if any. */
  lemma RecordStepHistory(batchSize: nat, s: LoopState, msg: Message, record: string, lakeAccepts: bool, brokerAccepts: bool)
    requires DecodePayload(msg.payload) == Ok(record)
    ensures var step := StepSpec(batchSize, s, Consumed(Delivered(msg), lakeAccepts, brokerAccepts));
      && Messages(step.1.trace) == Messages(s.trace) + [msg]
      && (step.0.Continue? && step.1.batch == [] ==> Drained(step.1.trace, step.1.tpl))
  {
    var step := StepSpec(batchSize, s, Consumed(Delivered(msg), lakeAccepts, brokerAccepts));
    var got := s.trace + [Received(msg, record)];
    var tpl := s.tpl[msg.Key() := msg.offset + 1];
    var pushed := s.batch + [record];
    assert Messages(got) == Messages(s.trace) + [msg] by {
      AppendEffect(s.trace, Received(msg, record));
    }
    if |pushed| < batchSize {
      assert step.1 == LoopState(pushed, got, tpl);
    } else {
      assert step.1.trace == got + FlushEffects(pushed, tpl, lakeAccepts, brokerAccepts) && step.1.tpl == tpl;
      FlushEffectsHistory(got, pushed, tpl, lakeAccepts, brokerAccepts);
    }
  }

  /** What ends a loop at the event `ev`: the receive or decode error it carries, or the refusal of the flush it triggers. */
  lemma StepSpecOutcome(batchSize: nat, s: LoopState, ev: Event)
    ensures var o := StepSpec(batchSize, s, ev).0;
      && (ev.Consumed? && ev.recv.RecvFailed? <==> o == Failed(RecordStream(ReceiveError)))
      && (ev.Consumed? && ev.recv.Delivered? && DecodePayload(ev.recv.msg.payload).Err?
          <==> o == Failed(RecordStream(DeserializeError)))
      && (o == Failed(Lake) ==> !ev.lakeAccepts)
      && (o == Failed(RecordStream(CommitError)) ==> ev.lakeAccepts && !ev.brokerAccepts)
      && (o.Continue? ==> Proceeds(ev))
      && (o.Finished? <==> ev.CancelFired? && (s.batch == [] || (ev.lakeAccepts && ev.brokerAccepts)))
  {
  }

  /** Once nothing is pending with an empty batch, a step that empties the batch or ends the loop leaves nothing pending. */
  lemma StepSpecDrains(batchSize: nat, s: LoopState, ev: Event)
    requires s.batch == [] ==> Drained(s.trace, s.tpl)
    ensures var (o, next) := StepSpec(batchSize, s, ev);
      (o.Continue? || o.Finished?) && (next.batch == [] || o.Finished?) ==> Drained(next.trace, next.tpl)
  {
    if Proceeds(ev) {
      RecordStepHistory(batchSize, s, ev.recv.msg, DecodePayload(ev.recv.msg.payload).value, ev.lakeAccepts, ev.brokerAccepts);
    } else if ev.CancelFired? && s.batch != [] {
      FlushEffectsHistory(s.trace, s.batch, s.tpl, ev.lakeAccepts, ev.brokerAccepts);
    }
  }

  /** A run's result, seen from `k` events earlier. */
  function Later(r: (SinkOutcome, LoopState, nat), k: nat): (SinkOutcome, LoopState, nat)
  {
    (r.0, r.1, r.2 + k)
  }

  /** One more iteration of a run that has looked at `i` events: its result, now seen from `i + 1` events in. */
  lemma RunFromAdvance(batchSize: nat, run: (SinkOutcome, LoopState, nat), s: LoopState, events: seq<Event>, i: nat,
                       o: StepOutcome, next: LoopState)
    requires i < |events| && run == Later(RunFrom(batchSize, s, events[i..]), i)
    requires StepSpec(batchSize, s, events[i]) == (o, next)
    ensures o.Continue? ==> run == Later(RunFrom(batchSize, next, events[i + 1..]), i + 1)
    ensures o.Finished? ==> run == (Done, next, i + 1)
    ensures o.Failed? ==> run == (Stopped(o.error), next, i + 1)
  {
    assert events[i..][0] == events[i] && events[i..][1..] == events[i + 1..];
  }

  /** Events after the one the loop stopped at are never looked at: any continuation gives the same run. */
  lemma {:induction false} RunFromIgnoresRest(batchSize: nat, s: LoopState, events: seq<Event>, rest: seq<Event>)
    requires !RunFrom(batchSize, s, events).0.Waiting?
    ensures RunFrom(batchSize, s, events[..RunFrom(batchSize, s, events).2] + rest) == RunFrom(batchSize, s, events)
    decreases |events|
  {
    var n := RunFrom(batchSize, s, events).2;
    var longer := events[..n] + rest;
    assert longer[0] == events[0];
    var (o, next) := StepSpec(batchSize, s, events[0]);
    if o.Continue? {
      RunFromIgnoresRest(batchSize, next, events[1..], rest);
      assert longer[1..] == events[1..][..n - 1] + rest;
    }
  }

  /** `start_lakesink` never looks past the event it stopped at: what follows it cannot change the run. */
  lemma RunSpecIgnoresRest(env: map<string, string>, events: seq<Event>, rest: seq<Event>)
    requires !RunSpec(env, events).0.Waiting?
    ensures RunSpec(env, events[..RunSpec(env, events).2] + rest) == RunSpec(env, events)
  {
    if BatchSizeFromEnv(env).Ok? {
      RunFromIgnoresRest(BatchSizeFromEnv(env).value, START, events, rest);
    }
  }

  /**
   * Every event before the one the loop stopped at delivered a decodable
   * message, and the event it stopped at says why it stopped.
   */
  lemma {:induction false} RunFromLooksAt(batchSize: nat, s: LoopState, events: seq<Event>)
    ensures var (outcome, _, n) := RunFrom(batchSize, s, events);
      && (forall j :: 0 <= j < n && (j < n - 1 || outcome.Waiting?) ==> Proceeds(events[j]))
      && (!outcome.Waiting? ==> var ev := events[n - 1];
           && (outcome.Done? ==> ev.CancelFired?)
           && (ev.Consumed? && ev.recv.RecvFailed? <==> outcome == Stopped(RecordStream(ReceiveError)))
           && (ev.Consumed? && ev.recv.Delivered? && DecodePayload(ev.recv.msg.payload).Err?
               <==> outcome == Stopped(RecordStream(DeserializeError)))
           && (outcome == Stopped(Lake) ==> !ev.lakeAccepts)
           && (outcome == Stopped(RecordStream(CommitError)) ==> ev.lakeAccepts && !ev.brokerAccepts))
    decreases |events|
  {
    if events != [] {
      var (o, next) := StepSpec(batchSize, s, events[0]);
      StepSpecOutcome(batchSize, s, events[0]);
      if o.Continue? {
        RunFromLooksAt(batchSize, next, events[1..]);
        var n := RunFrom(batchSize, s, events).2;
        assert forall j :: 1 <= j < n ==> events[j] == events[1..][j - 1];
      }
    }
  }

  lemma DecodedPrefix(events: seq<Event>, n: nat)
    requires 0 < n <= |events|
    ensures Decoded(events[..n])
      == (if Proceeds(events[0]) then [events[0].recv.msg] else []) + Decoded(events[1..][..n - 1])
  {
    assert events[..n][0] == events[0];
    assert events[..n][1..] == events[1..][..n - 1];
  }

  /** The history gains exactly the messages of the events that proceeded, in order. */
  lemma {:induction false} RunFromMessages(batchSize: nat, s: LoopState, events: seq<Event>)
    ensures var r := RunFrom(batchSize, s, events);
      Messages(r.1.trace) == Messages(s.trace) + Decoded(events[..r.2])
    decreases |events|
  {
    var r := RunFrom(batchSize, s, events);
    if events == [] {
      assert events[..0] == [];
    } else if StepSpec(batchSize, s, events[0]).0.Continue? {
      var next := StepSpec(batchSize, s, events[0]).1;
      var tail := RunFrom(batchSize, next, events[1..]);
      var head := if Proceeds(events[0]) then [events[0].recv.msg] else [];
      RunFromMessages(batchSize, next, events[1..]);
      assert r.1 == tail.1 && r.2 == tail.2 + 1;
      assert Messages(next.trace) == Messages(s.trace) + head by {
        StepSpecMessages(batchSize, s, events[0]);
      }
      assert Decoded(events[..r.2]) == head + Decoded(events[1..][..tail.2]) by {
        DecodedPrefix(events, r.2);
      }
      Regroup(Messages(r.1.trace), Messages(next.trace), Messages(s.trace), head,
        Decoded(events[1..][..tail.2]), Decoded(events[..r.2]));
    } else {
      StopMessages(batchSize, s, events);
    }
  }

  lemma Regroup(total: seq<Message>, mid: seq<Message>, first: seq<Message>, head: seq<Message>, rest: seq<Message>, all: seq<Message>)
    requires total == mid + rest && mid == first + head && all == head + rest
    ensures total == first + all
  {
  }

  lemma StopMessages(batchSize: nat, s: LoopState, events: seq<Event>)
    requires events != [] && !StepSpec(batchSize, s, events[0]).0.Continue?
    ensures var r := RunFrom(batchSize, s, events);
      Messages(r.1.trace) == Messages(s.trace) + Decoded(events[..r.2])
  {
    var r := RunFrom(batchSize, s, events);
    StepSpecMessages(batchSize, s, events[0]);
    DecodedPrefix(events, 1);
    assert r.2 == 1 && r.1 == StepSpec(batchSize, s, events[0]).1;
    assert events[1..][..0] == [];
  }

  /** A loop that ends by cancellation leaves nothing pending: the last flush was stored, committed and counted. */
  lemma {:induction false} RunFromDrains(batchSize: nat, s: LoopState, events: seq<Event>)
    requires s.batch == [] ==> Drained(s.trace, s.tpl)
    ensures var (outcome, last, _) := RunFrom(batchSize, s, events);
      outcome.Done? ==> Drained(last.trace, last.tpl)
    decreases |events|
  {
    if events != [] {
      var (o, next) := StepSpec(batchSize, s, events[0]);
      StepSpecDrains(batchSize, s, events[0]);
      if o.Continue? {
        RunFromDrains(batchSize, next, events[1..]);
      }
    }
  }

  class LakeSink {
    const batchSize: nat
    const stream: KafkaRecordStream
    var batch: seq<string>
    ghost var trace: seq<Effect>

    /** Holds at all times: the history obeys the sink's rules and the tracker reflects every consumed message. */
    ghost predicate Consistent()
      reads this, stream
    {
      stream.consumerEnabled && SinkTraceOk(trace, Threshold(batchSize)) && stream.tpl == Offsets(trace)
    }

    /** Holds at the top of every loop iteration: the batch is below the threshold and holds exactly the unstored records. */
    ghost predicate Valid()
      reads this, stream
    {
      Consistent() && Buffered()
    }

    /** The loop's state as a value. */
    ghost function State(): LoopState
      reads this, stream
    {
      LoopState(batch, trace, stream.tpl)
    }

    /** The batch is below the threshold and holds exactly the records consumed but not yet stored. */
    ghost predicate Buffered()
      reads this
    {
      |batch| < Threshold(batchSize) && StoredRecords(trace) + batch == ReceivedRecords(trace)
    }

    /** The state `start_lakesink` enters its loop with, once the batch size is known. */
    constructor (batchSize: nat, env: map<string, string>)
      ensures Valid() && fresh(stream)
      ensures this.batchSize == batchSize && batch == [] && trace == []
      ensures stream.topic == SelectTopic(true, env) && !stream.producerEnabled
    {
      this.batchSize := batchSize;
      stream := new KafkaRecordStream(false, true, true, env);
      batch := [];
      trace := [];
    }

    /** `store_batch`: join, store, commit, count; the first failure ends it. */
    method StoreBatch(lakeAccepts: bool, brokerAccepts: bool) returns (r: Result<(), LakeSinkError>)
      requires Consistent()
      requires 0 < |batch| <= Threshold(batchSize) && StoredRecords(trace) + batch == ReceivedRecords(trace)
      modifies this`trace
      ensures Consistent()
      ensures trace == old(trace) + FlushEffects(batch, stream.tpl, lakeAccepts, brokerAccepts)
      ensures r == FlushResult(lakeAccepts, brokerAccepts)
      ensures lakeAccepts ==> StoredRecords(trace) == ReceivedRecords(trace)
    {
      var contents := BatchBlob.Join(batch);
      if !lakeAccepts {
        return Err(Lake);
      }
      FlushAllowed(trace, batch, Threshold(batchSize));
      trace := trace + [Stored(batch, contents)];
      var sent, committed := stream.CommitLastConsume(brokerAccepts);
      trace := trace + [Committed(sent)];
      if committed.Err? {
        return Err(RecordStream(committed.error));
      }
      trace := trace + [Flushed];
      r := Ok(());
    }

    /** `metrics.record_received()` and `batch.push(record)` for a record whose message the stream has just tracked. */
    method Push(msg: Message, record: string)
      requires stream.consumerEnabled && SinkTraceOk(trace, Threshold(batchSize)) && Buffered()
      requires DecodePayload(msg.payload) == Ok(record)
      requires stream.tpl == Offsets(trace)[msg.Key() := msg.offset + 1]
      modifies this`trace, this`batch
      ensures Consistent()
      ensures trace == old(trace) + [Received(msg, record)] && batch == old(batch) + [record]
      ensures |batch| <= Threshold(batchSize) && StoredRecords(trace) + batch == ReceivedRecords(trace)
    {
      var received := Received(msg, record);
      AppendAllowed(trace, received, Threshold(batchSize));
      AppendEffect(trace, received);
      AppendOffsets(trace, received);
      trace := trace + [received];
      batch := batch + [record];
    }

    /** The record arm of the race: `consume` won with `recv`. */
    method OnRecord(recv: Recv, lakeAccepts: bool, brokerAccepts: bool) returns (o: StepOutcome)
      requires Valid()
      modifies this, stream
      ensures Consistent()
      ensures o.Continue? ==> Valid()
      ensures !o.Finished?
      // a failed receive or an undecodable payload ends the sink; nothing is stored or committed
      ensures recv.RecvFailed? ==> o == Failed(RecordStream(ReceiveError)) && trace == old(trace) && batch == old(batch)
      ensures recv.Delivered? && DecodePayload(recv.msg.payload).Err? ==>
        o == Failed(RecordStream(DeserializeError)) && trace == old(trace) && batch == old(batch)
      // a record is pushed; the flush runs exactly when the batch reaches the threshold
      ensures recv.Delivered? && DecodePayload(recv.msg.payload).Ok? ==>
        var record := DecodePayload(recv.msg.payload).value;
        var pushed := old(batch) + [record];
        var got := old(trace) + [Received(recv.msg, record)];
        stream.tpl == old(stream.tpl)[recv.msg.Key() := recv.msg.offset + 1] &&
        (|pushed| >= batchSize <==> |pushed| == Threshold(batchSize)) &&
        if |pushed| < batchSize then
          o == Continue && batch == pushed && trace == got
        else
          var r := FlushResult(lakeAccepts, brokerAccepts);
          trace == got + FlushEffects(pushed, stream.tpl, lakeAccepts, brokerAccepts) &&
          o == AfterFlush(r, Continue) && batch == (if r.Ok? then [] else pushed)
    {
      var res := stream.Consume(recv);
      if res.Err? {
        return Failed(RecordStream(res.error));
      }
      Push(recv.msg, res.value);
      if |batch| >= batchSize {
        var r := StoreBatch(lakeAccepts, brokerAccepts);
        if r.Err? {
          return Failed(r.error);
        }
        batch := [];
      }
      o := Continue;
    }

    /** The cancellation arm of the race: drain a non-empty batch once, then leave the loop. */
    method OnCancel(lakeAccepts: bool, brokerAccepts: bool) returns (o: StepOutcome)
      requires Valid()
      modifies this`trace
      ensures Consistent()
      ensures !o.Continue?
      ensures o.Finished? ==> StoredRecords(trace) == ReceivedRecords(trace)
      ensures old(batch) == [] ==> o == Finished && trace == old(trace)
      ensures old(batch) != [] ==>
        trace == old(trace) + FlushEffects(batch, stream.tpl, lakeAccepts, brokerAccepts) &&
        o == AfterFlush(FlushResult(lakeAccepts, brokerAccepts), Finished)
    {
      if batch != [] {
        var r := StoreBatch(lakeAccepts, brokerAccepts);
        if r.Err? {
          return Failed(r.error);
        }
      }
      o := Finished;
    }

    /** One iteration of the `loop`: the arm of the race that `ev` says won. */
    method Step(ev: Event) returns (o: StepOutcome)
      requires Valid()
      modifies this, stream
      ensures Consistent()
      ensures o.Continue? ==> Valid()
      ensures o.Finished? ==> StoredRecords(trace) == ReceivedRecords(trace)
      ensures (o, State()) == StepSpec(batchSize, old(State()), ev)
    {
      match ev {
        case Consumed(recv, lakeAccepts, brokerAccepts) =>
          o := OnRecord(recv, lakeAccepts, brokerAccepts);
        case CancelFired(lakeAccepts, brokerAccepts) =>
          o := OnCancel(lakeAccepts, brokerAccepts);
      }
    }

    /** The `loop` of `start_lakesink` over `events`, until cancellation, an error, or the end of the events. */
    method Run(events: seq<Event>) returns (outcome: SinkOutcome, ghost n: nat)
      requires Valid()
      modifies this, stream
      ensures Consistent()
      ensures (outcome, State(), n) == RunFrom(batchSize, old(State()), events)
      ensures outcome.Waiting? ==> Valid()
      ensures outcome.Done? ==> StoredRecords(trace) == ReceivedRecords(trace)
    {
      outcome := Waiting;
      var i := 0;
      ghost var run := RunFrom(batchSize, State(), events);
      assert events[i..] == events;
      while i < |events| && outcome.Waiting?
        invariant 0 <= i <= |events|
        invariant Consistent() && !outcome.ConfigAbort?
        invariant outcome.Waiting? ==> Valid()
        invariant outcome.Done? ==> StoredRecords(trace) == ReceivedRecords(trace)
        invariant run == RunFrom(batchSize, old(State()), events)
        invariant outcome.Waiting? ==> run == Later(RunFrom(batchSize, State(), events[i..]), i)
        invariant !outcome.Waiting? ==> run == (outcome, State(), i)
      {
        ghost var before := State();
        var o := Step(events[i]);
        ghost var after := State();
        RunFromAdvance(batchSize, run, before, events, i, o, after);
        if o.Finished? {
          outcome := Done;
        } else if o.Failed? {
          outcome := Stopped(o.error);
        }
        i := i + 1;
      }
      n := i;
    }
  }

  /**
   * `start_lakesink` over a finite run of race resolutions: read the batch
   * size, set up the stream, then loop until cancellation or an error.  `n`
   * is the number of events the loop looked at.
   */
  method RunLakeSink(env: map<string, string>, events: seq<Event>)
    returns (outcome: SinkOutcome, ghost trace: seq<Effect>, ghost n: nat)
    ensures (outcome, trace, n) == RunSpec(env, events)
    ensures outcome.ConfigAbort? <==> BatchSizeFromEnv(env).Err?
    ensures BatchSizeFromEnv(env).Err? ==> outcome == ConfigAbort(BatchSizeFromEnv(env).error) && trace == [] && n == 0
    ensures BatchSizeFromEnv(env).Ok? ==> SinkTraceOk(trace, Threshold(BatchSizeFromEnv(env).value))
    // the records consumed are the decodable deliveries among the events looked at
    ensures Messages(trace) == Decoded(events[..n])
    ensures forall j :: 0 <= j < n && (j < n - 1 || outcome.Waiting?) ==> Proceeds(events[j])
    // `Ok(())` only after cancellation, with every consumed record stored and its offset committed
    ensures outcome.Done? ==> events[n - 1].CancelFired?
    ensures outcome.Done? ==> StoredRecords(trace) == ReceivedRecords(trace) && Drained(trace, Offsets(trace))
    ensures outcome.Waiting? ==>
      n == |events| && |ReceivedRecords(trace)| - |StoredRecords(trace)| < Threshold(BatchSizeFromEnv(env).value)
  {
    var size := BatchSizeFromEnv(env);
    if size.Err? {
      return ConfigAbort(size.error), [], 0;
    }
    var sink := new LakeSink(size.value, env);
    assert sink.State() == START;
    outcome, n := sink.Run(events);
    trace := sink.trace;
    RunFromLooksAt(size.value, START, events);
    RunFromMessages(size.value, START, events);
    RunFromDrains(size.value, START, events);
  }

  lemma DecodeAscii(c: char)
    requires c as int < 0x80
    ensures DecodePayload(Some([c as int])) == Ok([c])
  {
    KafkaStream.DecodePayloadOfText([c]);
    assert Utf8.Encode([c]) == [c as int];
  }

  /** A fresh sink on the output topic that has consumed "a" and "b" from partition 0 at offsets 10 and 11. */
  method TwoBuffered(batchSize: nat) returns (sink: LakeSink)
    requires 2 < batchSize
    ensures fresh(sink) && fresh(sink.stream) && sink.Valid() && sink.batchSize == batchSize
    ensures sink.batch == ["a", "b"] && sink.stream.tpl == map[("p3a-star-out", 0) := 12]
  {
    sink := new LakeSink(batchSize, map[]);
    DecodeAscii('a');
    DecodeAscii('b');
    var o := sink.OnRecord(Delivered(Message("p3a-star-out", 0, 10, Some([97]))), true, true);
    assert o == Continue && sink.batch == ["a"];
    o := sink.OnRecord(Delivered(Message("p3a-star-out", 0, 11, Some([98]))), true, true);
    assert o == Continue;
  }

  /** Batch size 3: the third record triggers one flush of all three, joined by newlines, then the commit. */
  method ScenarioBatchOfThree()
  {
    var sink := TwoBuffered(3);
    DecodeAscii('c');
    ghost var before := sink.trace;
    var mc := Message("p3a-star-out", 0, 12, Some([99]));
    var o := sink.OnRecord(Delivered(mc), true, true);
    assert o == Continue && sink.batch == [];
    assert sink.stream.tpl == map[("p3a-star-out", 0) := 13];
    BatchBlob.JoinOfThreeLetters();
    assert ["a", "b"] + ["c"] == ["a", "b", "c"];
    assert sink.trace == before + [Received(mc, "c")] + FlushEffects(["a", "b", "c"], sink.stream.tpl, true, true);
    assert sink.trace[|before| + 1..] == [Stored(["a", "b", "c"], "a\nb\nc"), Committed(map[("p3a-star-out", 0) := 13]), Flushed];
  }

  /** Batch size 1000 and two records, then cancellation: exactly one flush, of those two records. */
  method ScenarioDrainOnCancel()
  {
    var sink := TwoBuffered(1000);
    ghost var before := sink.trace;
    var o := sink.OnCancel(true, true);
    assert o == Finished;
    assert sink.trace == before + FlushEffects(["a", "b"], map[("p3a-star-out", 0) := 12], true, true);
  }

  /** A store that fails on the first flush ends the sink: no commit is requested. */
  method ScenarioStoreFails()
  {
    var sink := new LakeSink(1, map[]);
    DecodeAscii('a');
    var o := sink.OnRecord(Delivered(Message("p3a-star-out", 0, 10, Some([97]))), false, true);
    assert o == Failed(Lake);
    assert forall i :: 0 <= i < |sink.trace| ==> !sink.trace[i].Committed?;
  }
}
