# Lake sink and Kafka offset tracker, modelled in Dafny

This project models the two sequential pieces of logic at the heart of the
nested-star-processors lake sink. Together they make the pipeline
crash-consistent: a record's offset is committed to Kafka only after the batch
that holds it has been stored in the data lake.

- **The Kafka record stream** (`src/record_stream/kafka.rs`, module
  `KafkaStream`). `KafkaRecordStream::new` picks the topic. `consume` decodes
  the payload as UTF-8: an absent payload gives `""`, invalid bytes give a
  deserialisation error. Only after a successful decode does it set the
  tracker entry of `(topic, partition)` to `offset + 1`. `commit_last_consume`
  hands the whole tracker to the broker and does not change it. The tracker is
  a `map<(string, int), int>` field of a class. `Utf8` gives `str::from_utf8`
  a real definition: a decoder for well-formed UTF-8 and an encoder, proved
  inverse to each other.
- **The batching lake sink** (`src/lakesink.rs`, modules `BatchSize`,
  `BatchBlob`, `SinkTrace` and `LakeSink`). The batch size comes from
  `LAKE_SINK_BATCH_SIZE`, parsed like `usize::from_str`, with default `1000`.
  The loop is a class whose `batch` field is pushed to and cleared. One
  `tokio::select!` resolution is an `Event`: either the consumer delivered
  something, or cancellation fired. The lake's answer to `store` and the
  broker's answer to `commit` travel with the event.
  Every observable effect goes onto a ghost trace:
  - `Received`: a record was consumed (`record_received`);
  - `Stored`: a blob was stored;
  - `Committed`: a commit was requested;
  - `Flushed`: `records_flushed` fired.

  `SinkTraceOk` is the rule each trace step must obey. The lemmas of
  `SinkTrace` prove the following from it:
  - a commit always comes right after a store;
  - at each commit, every record consumed so far has been stored;
  - stored records are a prefix of the consumed records, so no record is
    stored twice or out of order;
  - every stored batch is non-empty and no longer than the threshold;
  - each committed offset is one past the offset of a consumed message, and
    that message's record was already stored.

The source files disagree with each other in two places. The model follows
`src/lakesink.rs` as written:
- `src/main.rs:86` calls `start_lakesink` with one argument, the cancellation
  token, but `src/lakesink.rs:36-39` also takes the metrics.
- `src/lakesink.rs:2` imports `crate::prometheus::DataLakeMetrics`, but the
  crate root `src/main.rs:1-9` declares no `prometheus` module. Here the
  metrics are the `Received` and `Flushed` trace effects.

Two details of the code are easy to misread:
- `consume` decodes the payload (`kafka.rs:121-127`) before it touches the
  tracker (`kafka.rs:133-138`). An undecodable payload therefore leaves the
  tracker unchanged.
- The panic message at `lakesink.rs:42` asks for a "positive integer", but
  `usize::from_str` accepts `"0"`, and the sink runs with it. With a batch
  size of 0, `batch.len() >= batch_size` holds after every push, so each
  record is flushed on its own. `SinkTrace.Threshold` is the batch length at
  which a flush happens: `max(batch_size, 1)`.

The loop has a reference definition as a value. `StepSpec` is one iteration on
a `LoopState` (batch, history, tracker). `RunFrom` runs the iterations over a
sequence of events and `RunSpec` is all of `start_lakesink`. The class methods
`LakeSink.Step`, `LakeSink.Run` and `RunLakeSink` are proved equal to these
definitions. The lemmas about the definitions say what a run means in terms
of its events.

## Model

| member | source | states |
|---|---|---|
| `KafkaStream.SelectTopic` | src/record_stream/kafka.rs:50-54 | output-topic mode uses `KAFKA_OUTPUT_TOPIC`, else `"p3a-star-out"`; encrypted mode uses `KAFKA_ENCRYPTED_TOPIC`, else `"p3a-star-enc"` |
| `KafkaStream.SelectTopicReadsOneVariable` | src/record_stream/kafka.rs:50-54 | each mode's topic does not depend on the other mode's environment variable |
| `KafkaStream.DecodePayload` | src/record_stream/kafka.rs:121-127 | absent payload gives `""`; a present payload decodes iff it is well-formed UTF-8, and the text re-encodes to exactly the payload bytes; every failure is a deserialisation error |
| `KafkaStream.DecodePayloadOfText` | src/record_stream/kafka.rs:121-123 | the UTF-8 encoding of any text is delivered as that same text |
| `Utf8.Decode` | src/record_stream/kafka.rs:121-127 | `str::from_utf8`: a decoded text never has more characters than the payload has bytes; with the two round trips below, it accepts exactly the encodings of texts |
| `Utf8.DecodeEncode` | src/record_stream/kafka.rs:121-123 | decoding the encoding of any string gives back the string |
| `Utf8.EncodeDecode` | src/record_stream/kafka.rs:121-127 | whatever the decoder accepts is canonical: re-encoding the text gives the same bytes |
| `KafkaStream.KafkaRecordStream.constructor` | src/record_stream/kafka.rs:49-61 | the stream starts with the selected topic, the requested producer/consumer switches and an empty tracker |
| `KafkaStream.KafkaRecordStream.Consume` | src/record_stream/kafka.rs:116-147 | a receive error gives a receive error; otherwise the result is the decoded payload; only on success is the partition's entry set to `offset + 1`, and no other entry changes; any error leaves the tracker unchanged |
| `KafkaStream.KafkaRecordStream.CommitLastConsume` | src/record_stream/kafka.rs:149-157 | sends exactly the current tracker, succeeds iff the broker accepts, and cannot modify the tracker (no `modifies` clause), so repeated commits send the same offsets until the next consume |
| `KafkaStream.TrackedKeys` | src/record_stream/kafka.rs:134-138 | after a run of consumes, the tracker has an entry for a partition iff it had one before or some consumed message belongs to it |
| `KafkaStream.TrackedUntouched` | src/record_stream/kafka.rs:134-138 | a partition that no consumed message belongs to keeps its entry, or stays absent |
| `KafkaStream.TrackedIsLastOffset` | src/record_stream/kafka.rs:134-138 | a partition's entry is one past the offset of the last message consumed from it |
| `KafkaStream.TrackedWitness` | src/record_stream/kafka.rs:134-138 | every entry of a tracker that started empty is one past the offset of some consumed message of that partition |
| `KafkaStream.TrackedAdvances` | src/record_stream/kafka.rs:137 | if each partition's offsets arrive strictly increasing, a partition's entry strictly grows whenever one of its messages is consumed |
| `BatchSize.ParseUsize` | src/lakesink.rs:40-42 | `usize::from_str`: an optional `+` and one or more digits; the value never exceeds `usize::MAX` |
| `BatchSize.ParseShowNat` | src/lakesink.rs:40-42 | every value up to `usize::MAX` is read back from its decimal form, with or without a leading `+` |
| `BatchSize.ParseRejectsOverflow` | src/lakesink.rs:40-42 | a value above `usize::MAX` is refused, with or without a leading `+` |
| `BatchSize.ParseLeadingZeros` | src/lakesink.rs:40-42 | leading zeros are accepted and do not change the value |
| `BatchSize.ParseUsizeCanonical` | src/lakesink.rs:40-42 | every accepted text is an optional `+`, some zeros, and the decimal form of the value read |
| `BatchSize.ParseRejectsNonDigit` | src/lakesink.rs:40-42 | any character other than a digit, apart from one leading `+`, makes the value unparsable |
| `BatchSize.BatchSizeFromEnv` | src/lakesink.rs:40-42 | an unset variable gives 1000; a parsable value is the batch size; an unparsable value is the configuration error that aborts the sink |
| `BatchSize.BatchSizeFromDecimal` | src/lakesink.rs:40-42 | a size written in decimal is the size the sink runs with |
| `BatchBlob.Join` | src/lakesink.rs:26 | `batch.join("\n")`: an empty batch is the empty blob and a one-record batch is that record; with `SplitJoin`, the records are recovered from the blob |
| `BatchBlob.SplitJoin` | src/lakesink.rs:26 | a non-empty batch of newline-free records is recovered by splitting its blob at newlines |
| `BatchBlob.JoinThree` | src/lakesink.rs:26 | three records are joined with a newline between each pair |
| `BatchBlob.JoinOfThreeLetters` | src/lakesink.rs:26 | `["a","b","c"]` is stored as `"a\nb\nc"` |
| `BatchBlob.NewlineInRecordIsAmbiguous` | src/lakesink.rs:26 | without escaping, a record that holds a newline gives the same blob as two records |
| `SinkTrace.Threshold` | src/lakesink.rs:54 | the batch length that triggers a flush is at least 1 and at least `batch_size`, and equals `batch_size` when that is positive |
| `SinkTrace.StoredPrefixOfReceived` | src/lakesink.rs:52-56 | the stored records, batch after batch, are a prefix of the consumed records in consumption order |
| `SinkTrace.StoreBeforeCommit` | src/lakesink.rs:27-29 | each commit directly follows a successful store; at that point every consumed record is stored, and the offsets sent are the tracker of every consumed message |
| `SinkTrace.StoredBatchShape` | src/lakesink.rs:26 | every stored batch is non-empty, no longer than the threshold, and stored as its newline join |
| `SinkTrace.FlushedAfterCommit` | src/lakesink.rs:29-31 | `records_flushed` fires only right after a commit |
| `SinkTrace.RecordsAreDecodedPayloads` | src/lakesink.rs:50-53 | each consumed record is the decoded payload of its message |
| `SinkTrace.CommittedOffsetsWereStored` | src/lakesink.rs:26-29 | every committed offset is one past the offset of a consumed message, and that message's record was stored before the commit |
| `LakeSink.FlushResult` | src/lakesink.rs:27-29 | a flush succeeds iff both the store and the commit succeed; a refused store is the lake error, and a refused commit after an accepted store is the commit error |
| `LakeSink.FlushEffectsHistory` | src/lakesink.rs:26-31 | the effects of `store_batch` consume nothing; they store exactly the batch iff the lake accepts it; when both store and commit succeed they end with the commit of the given offsets and the flush metric |
| `LakeSink.StepSpecOutcome` | src/lakesink.rs:48-66 | one iteration fails with a receive error iff the consumer failed, with a deserialisation error iff the payload does not decode, with the lake error only if the lake refused, with the commit error only if the lake accepted and the broker refused; it continues only on a decodable record; it leaves the loop normally iff cancellation fired and the batch was empty or both flush answers were yes |
| `LakeSink.StepSpecMessages` | src/lakesink.rs:50-53 | one iteration adds to the history exactly the message of a decodable delivery, and nothing otherwise |
| `LakeSink.RecordStepHistory` | src/lakesink.rs:50-57 | a decodable record adds its message to the history; when it leads to a successful flush, the history ends with the commit of the new tracker and the flush metric |
| `LakeSink.StepSpecDrains` | src/lakesink.rs:54-64 | if an empty batch means nothing is pending, then after an iteration that empties the batch or ends the loop, nothing is pending |
| `LakeSink.RunFrom` | src/lakesink.rs:48-67 | the loop looks at no more events than it is given; it is still waiting only when it has looked at all of them; otherwise it stopped at one of them; it never ends with a configuration error |
| `LakeSink.RunSpec` | src/lakesink.rs:36-69 | `start_lakesink` aborts on configuration iff the batch size cannot be read, and never looks at more events than it is given |
| `LakeSink.RunFromIgnoresRest` | src/lakesink.rs:48-67 | once the loop has stopped, the events after the one it stopped at cannot change its outcome, history or tracker |
| `LakeSink.RunSpecIgnoresRest` | src/lakesink.rs:36-69 | the same for all of `start_lakesink`: what follows the event it stopped at is never looked at |
| `LakeSink.RunFromLooksAt` | src/lakesink.rs:48-67 | every event before the last one looked at was a decodable delivery (all of them when the loop is still waiting); the last one is a cancellation when the loop ended normally, and it carries the cause when the loop failed |
| `LakeSink.RunFromMessages` | src/lakesink.rs:50-53 | a run adds to the history exactly the messages of the decodable deliveries among the events it looked at, in order |
| `LakeSink.RunFromDrains` | src/lakesink.rs:54-64 | a run that ends normally leaves nothing pending: its history is empty or ends with the commit of the current tracker and the flush metric |
| `LakeSink.LakeSink.constructor` | src/lakesink.rs:44-47 | the sink starts with an empty batch, an empty trace and a consumer-only stream on the output topic |
| `LakeSink.LakeSink.StoreBatch` | src/lakesink.rs:20-34 | a failed store adds no effect; otherwise the effects are the store of the joined batch, then a commit of the current tracker, then the flush metric if the commit succeeded; the trace invariant is kept |
| `LakeSink.LakeSink.Push` | src/lakesink.rs:52-53 | a decoded record is appended to the batch and to the trace as received, keeping the trace rules and the tracker equal to the trace's offsets; the batch then holds exactly the unstored records and is at most the threshold long |
| `LakeSink.LakeSink.OnRecord` | src/lakesink.rs:50-58 | a receive or decode error ends the sink with no store and no commit; otherwise the record is pushed and the tracker advanced; a flush runs exactly when the batch reaches the threshold; after a successful flush the batch is empty |
| `LakeSink.LakeSink.OnCancel` | src/lakesink.rs:59-65 | an empty batch ends the loop with no effect; a non-empty one is flushed exactly once, and the loop ends with `Ok` if that flush succeeds, with its error otherwise |
| `LakeSink.LakeSink.Step` | src/lakesink.rs:48-66 | one loop iteration gives exactly the outcome and the new batch, history and tracker of `StepSpec`; it keeps the trace rules, and the loop invariant whenever the loop goes on; a normal exit leaves nothing unstored |
| `LakeSink.LakeSink.Run` | src/lakesink.rs:48-67 | the loop gives exactly the outcome, final state and number of events looked at of `RunFrom`; it keeps the trace rules, and the loop invariant while still waiting; a normal exit leaves nothing unstored |
| `LakeSink.RunLakeSink` | src/lakesink.rs:36-69 | equals `RunSpec`: the sink aborts on configuration iff the batch size cannot be read, and then before anything else; the history obeys the sink's rules; its consumed messages are exactly the decodable deliveries among the events looked at; every event before the last one looked at was a decodable delivery; `Ok` comes only from a cancellation, with every consumed record stored and the last flush committing the offsets of every consumed message; a run still waiting has looked at every event and holds fewer unstored records than the threshold |

The three `Scenario…` methods in `LakeSink` (with their shared setup
`TwoBuffered`) are clients whose assertions follow from the contracts alone: batch size 3 stores `"a\nb\nc"`, a
cancellation drains a partial batch with exactly one flush, and a failed store
is never followed by a commit.

## Left out

- `produce` (`kafka.rs:106-114`): a thin wrapper over `FutureProducer::send`.
- Kafka client construction and configuration (`kafka.rs:56-101`): brokers, plaintext mode, group id, `subscribe`. These are foreign library calls. The producer/consumer switches are kept as flags. Calling `consume` or `commit` without a consumer panics in the source; here that is the precondition `consumerEnabled`.
- The rebalance and commit callbacks (`kafka.rs:27-39`): they only log.
- The `Offset store error` path (`kafka.rs:139-142`). How `TopicPartitionList` handles its entries, and when `add_partition_offset` fails, is library code that is not visible here. The model keeps the "set the partition's entry to `offset + 1`" update, as a map update.
- The `tokio::sync::Mutex` around the tracker and the `tokio::select!` race. These are concurrency. The race becomes a sequence of `Event`s, and the lock becomes exclusive access to the object.
- The data lake and the metrics are not part of this model. A store is a yes/no answer carried by the event. The two counters are the `Received` and `Flushed` trace effects.
- `CommitMode::Async`: a successful commit only means the broker accepted the request.
- Integer widths. Partitions (`i32`) and offsets (`i64`) are unbounded integers, so `offset + 1` does not overflow. `usize` is taken to be 64 bits wide when parsing the batch size.
- `env::var` errors for values that are not Unicode: the environment is a `map<string, string>`, so such values cannot occur.
- `Vec::with_capacity(batch_size)` failing to allocate for a huge batch size.
- Logging (`info!`, `debug!`, `trace!`).
- `src/main.rs` as a whole: CLI parsing, spawning the sink tasks, `process::exit`, `try_join_all`, and the cancellation fan-out to all sinks (`main.rs:105`). These are process orchestration and concurrency.
