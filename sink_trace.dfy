/**
 * The observable effects of one lake sink, in the order they happen, and the
 * rule every step of that history obeys.  The lemmas read the crash-consistency
 * argument off the history: a commit is always preceded by the store of every
 * record consumed so far, and each committed offset belongs to such a record.
 */
module SinkTrace {
  import opened Wrappers
  import opened KafkaStream
  import BatchBlob

  datatype Effect =
    | Received(msg: Message, record: string)     // `metrics.record_received()` after a successful consume
    | Stored(batch: seq<string>, blob: string)   // `lake.store(blob)` succeeded
    | Committed(offsets: map<TopicPartition, int>) // `consumer.commit(tpl)` was requested
    | Flushed                                     // `metrics.records_flushed()`

  /** A running-mode flush happens when the batch reaches this length (a size of 0 flushes every record). */
  function Threshold(batchSize: nat): (cap: nat)
    ensures cap >= 1 && cap >= batchSize
    ensures batchSize > 0 ==> cap == batchSize
  {
    if batchSize == 0 then 1 else batchSize
  }

  /** The consumed records, in consumption order. */
  function ReceivedRecords(t: seq<Effect>): seq<string>
  {
    if t == [] then []
    else ReceivedRecords(t[..|t| - 1]) + (if t[|t| - 1].Received? then [t[|t| - 1].record] else [])
  }

  /** The consumed messages, in consumption order. */
  function Messages(t: seq<Effect>): (msgs: seq<Message>)
    ensures |msgs| == |ReceivedRecords(t)|
  {
    if t == [] then []
    else Messages(t[..|t| - 1]) + (if t[|t| - 1].Received? then [t[|t| - 1].msg] else [])
  }

  /** The records of all successful stores, batch after batch. */
  function StoredRecords(t: seq<Effect>): seq<string>
  {
    if t == [] then []
    else StoredRecords(t[..|t| - 1]) + (if t[|t| - 1].Stored? then t[|t| - 1].batch else [])
  }

  /** The offset tracker of the sink's own stream, which starts empty. */
  function Offsets(t: seq<Effect>): map<TopicPartition, int>
  {
    Tracked(map[], Messages(t))
  }

  /** Whether effect `e` may follow the history `t` in a sink whose flush threshold is `cap`. */
  ghost predicate Allowed(t: seq<Effect>, e: Effect, cap: nat)
  {
    match e
    case Received(msg, record) => DecodePayload(msg.payload) == Ok(record)
    case Stored(batch, blob) =>
      0 < |batch| <= cap && blob == BatchBlob.Join(batch) && StoredRecords(t) + batch <= ReceivedRecords(t)
    case Committed(offsets) =>
      |t| > 0 && t[|t| - 1].Stored? && StoredRecords(t) == ReceivedRecords(t) && offsets == Offsets(t)
    case Flushed => |t| > 0 && t[|t| - 1].Committed?
  }

  /** Every effect of `t` was allowed by the history before it. */
  ghost predicate SinkTraceOk(t: seq<Effect>, cap: nat)
    decreases |t|
  {
    t == [] || (SinkTraceOk(t[..|t| - 1], cap) && Allowed(t[..|t| - 1], t[|t| - 1], cap))
  }

  lemma AppendEffect(t: seq<Effect>, e: Effect)
    ensures (t + [e])[..|t|] == t
    ensures ReceivedRecords(t + [e]) == ReceivedRecords(t) + (if e.Received? then [e.record] else [])
    ensures Messages(t + [e]) == Messages(t) + (if e.Received? then [e.msg] else [])
    ensures StoredRecords(t + [e]) == StoredRecords(t) + (if e.Stored? then e.batch else [])
  {
    assert (t + [e])[..|t|] == t;
  }

  lemma AppendOffsets(t: seq<Effect>, e: Effect)
    ensures Offsets(t + [e]) == if e.Received? then Offsets(t)[e.msg.Key() := e.msg.offset + 1] else Offsets(t)
  {
    AppendEffect(t, e);
    if e.Received? {
      var m := Messages(t);
      var m' := m + [e.msg];
      assert m' == Messages(t + [e]);
      assert m'[..|m'| - 1] == m && m'[|m'| - 1] == e.msg;
      assert Tracked(map[], m') == Tracked(map[], m)[e.msg.Key() := e.msg.offset + 1];
    } else {
      assert Messages(t + [e]) == Messages(t);
    }
  }

  lemma AppendAllowed(t: seq<Effect>, e: Effect, cap: nat)
    requires SinkTraceOk(t, cap) && Allowed(t, e, cap)
    ensures SinkTraceOk(t + [e], cap)
  {
    AppendEffect(t, e);
  }

  /** The effects of a flush of the unstored records keep the history well-formed at every step. */
  lemma FlushAllowed(t: seq<Effect>, batch: seq<string>, cap: nat)
    requires SinkTraceOk(t, cap) && 0 < |batch| <= cap && StoredRecords(t) + batch == ReceivedRecords(t)
    ensures var t1 := t + [Stored(batch, BatchBlob.Join(batch))];
      var t2 := t1 + [Committed(Offsets(t))];
      && SinkTraceOk(t1, cap) && SinkTraceOk(t2, cap) && SinkTraceOk(t2 + [Flushed], cap)
      && StoredRecords(t1) == ReceivedRecords(t1) && StoredRecords(t2) == ReceivedRecords(t2)
      && StoredRecords(t2 + [Flushed]) == ReceivedRecords(t2 + [Flushed])
      && Offsets(t1) == Offsets(t) && Offsets(t2) == Offsets(t) && Offsets(t2 + [Flushed]) == Offsets(t)
  {
    var t1 := t + [Stored(batch, BatchBlob.Join(batch))];
    AppendEffect(t, t1[|t|]);
    AppendOffsets(t, t1[|t|]);
    AppendAllowed(t, t1[|t|], cap);
    var t2 := t1 + [Committed(Offsets(t))];
    AppendEffect(t1, t2[|t1|]);
    AppendOffsets(t1, t2[|t1|]);
    AppendAllowed(t1, t2[|t1|], cap);
    AppendEffect(t2, Flushed);
    AppendOffsets(t2, Flushed);
    AppendAllowed(t2, Flushed, cap);
  }

  lemma {:induction false} SinkTraceOkPrefix(t: seq<Effect>, cap: nat, n: nat)
    requires SinkTraceOk(t, cap) && n <= |t|
    ensures SinkTraceOk(t[..n], cap)
    decreases |t|
  {
    if n < |t| {
      assert t[..|t| - 1][..n] == t[..n];
      SinkTraceOkPrefix(t[..|t| - 1], cap, n);
    } else {
      assert t[..n] == t;
    }
  }

  /** What is stored is always a prefix of what was consumed: nothing is stored twice or out of order. */
  lemma {:induction false} StoredPrefixOfReceived(t: seq<Effect>, cap: nat)
    requires SinkTraceOk(t, cap)
    ensures StoredRecords(t) <= ReceivedRecords(t)
    decreases |t|
  {
    if t != [] {
      var s := t[..|t| - 1];
      StoredPrefixOfReceived(s, cap);
      assert t == s + [t[|t| - 1]];
      AppendEffect(s, t[|t| - 1]);
    }
  }

  /** Store before commit: a commit comes right after a store, when every consumed record is stored, and sends the tracker. */
  lemma StoreBeforeCommit(t: seq<Effect>, cap: nat, i: int)
    requires SinkTraceOk(t, cap) && 0 <= i < |t| && t[i].Committed?
    ensures 0 < i && t[i - 1].Stored?
    ensures StoredRecords(t[..i]) == ReceivedRecords(t[..i])
    ensures t[i].offsets == Offsets(t[..i])
  {
    SinkTraceOkPrefix(t, cap, i + 1);
    assert t[..i + 1][..i] == t[..i];
  }

  /** Every stored batch is non-empty, no longer than the threshold, and stored as its newline join. */
  lemma StoredBatchShape(t: seq<Effect>, cap: nat, i: int)
    requires SinkTraceOk(t, cap) && 0 <= i < |t| && t[i].Stored?
    ensures 0 < |t[i].batch| <= cap
    ensures t[i].blob == BatchBlob.Join(t[i].batch)
  {
    SinkTraceOkPrefix(t, cap, i + 1);
    assert t[..i + 1][..i] == t[..i];
  }

  /** `records_flushed` fires only right after a commit. */
  lemma FlushedAfterCommit(t: seq<Effect>, cap: nat, i: int)
    requires SinkTraceOk(t, cap) && 0 <= i < |t| && t[i].Flushed?
    ensures 0 < i && t[i - 1].Committed?
  {
    SinkTraceOkPrefix(t, cap, i + 1);
    assert t[..i + 1][..i] == t[..i];
  }

  /** Every consumed record is the decoded payload of the message it came from. */
  lemma {:induction false} RecordsAreDecodedPayloads(t: seq<Effect>, cap: nat, j: int)
    requires SinkTraceOk(t, cap) && 0 <= j < |Messages(t)|
    ensures DecodePayload(Messages(t)[j].payload) == Ok(ReceivedRecords(t)[j])
    decreases |t|
  {
    var s := t[..|t| - 1];
    assert t == s + [t[|t| - 1]];
    AppendEffect(s, t[|t| - 1]);
    if j < |Messages(s)| {
      RecordsAreDecodedPayloads(s, cap, j);
    }
  }

  /**
   * The crash-consistency guarantee.  Whatever offset a commit sends for a
   * partition is one past the offset of a message this sink consumed, and the
   * record of that message had already been stored when the commit was made.
   */
  lemma CommittedOffsetsWereStored(t: seq<Effect>, cap: nat, i: int, k: TopicPartition)
    requires SinkTraceOk(t, cap) && 0 <= i < |t| && t[i].Committed? && k in t[i].offsets
    ensures exists j ::
              && 0 <= j < |Messages(t[..i])|
              && Messages(t[..i])[j].Key() == k
              && t[i].offsets[k] == Messages(t[..i])[j].offset + 1
              && j < |StoredRecords(t[..i])|
              && DecodePayload(Messages(t[..i])[j].payload) == Ok(StoredRecords(t[..i])[j])
  {
    StoreBeforeCommit(t, cap, i);
    TrackedWitness(Messages(t[..i]), k);
    var j :| 0 <= j < |Messages(t[..i])| && Messages(t[..i])[j].Key() == k
      && Tracked(map[], Messages(t[..i]))[k] == Messages(t[..i])[j].offset + 1;
    SinkTraceOkPrefix(t, cap, i);
    RecordsAreDecodedPayloads(t[..i], cap, j);
  }
}
