/**
 * The Kafka-backed record stream (src/record_stream/kafka.rs): topic selection
 * at construction, payload decoding and the per-partition offset tracker that
 * `consume` fills and `commit_last_consume` hands to the broker.
 */
module KafkaStream {
  import opened Wrappers
  import Utf8

  const KAFKA_ENC_TOPIC_ENV_KEY := "KAFKA_ENCRYPTED_TOPIC"
  const KAFKA_OUT_TOPIC_ENV_KEY := "KAFKA_OUTPUT_TOPIC"
  const DEFAULT_ENC_KAFKA_TOPIC := "p3a-star-enc"
  const DEFAULT_OUT_KAFKA_TOPIC := "p3a-star-out"

  /** A tracker key: (topic, partition). */
  type TopicPartition = (string, int)

  /** A message as the consumer hands it over; the payload may be absent. */
  datatype Message = Message(topic: string, partition: int, offset: int, payload: Option<seq<Utf8.byte>>)
  {
    function Key(): TopicPartition { (topic, partition) }
  }

  /** What one `consumer.recv()` produced. */
  datatype Recv = RecvFailed | Delivered(msg: Message)

  datatype RecordStreamError = ReceiveError | DeserializeError | CommitError

  /** `env::var(key).unwrap_or(default)`. */
  function EnvOr(env: map<string, string>, key: string, default: string): string
  {
    if key in env then env[key] else default
  }

  /** The topic chosen in `KafkaRecordStream::new`. */
  function SelectTopic(useOutputTopic: bool, env: map<string, string>): (topic: string)
    ensures useOutputTopic && KAFKA_OUT_TOPIC_ENV_KEY in env ==> topic == env[KAFKA_OUT_TOPIC_ENV_KEY]
    ensures useOutputTopic && KAFKA_OUT_TOPIC_ENV_KEY !in env ==> topic == DEFAULT_OUT_KAFKA_TOPIC
    ensures !useOutputTopic && KAFKA_ENC_TOPIC_ENV_KEY in env ==> topic == env[KAFKA_ENC_TOPIC_ENV_KEY]
    ensures !useOutputTopic && KAFKA_ENC_TOPIC_ENV_KEY !in env ==> topic == DEFAULT_ENC_KAFKA_TOPIC
  {
    if useOutputTopic then
      EnvOr(env, KAFKA_OUT_TOPIC_ENV_KEY, DEFAULT_OUT_KAFKA_TOPIC)
    else
      EnvOr(env, KAFKA_ENC_TOPIC_ENV_KEY, DEFAULT_ENC_KAFKA_TOPIC)
  }

  /** Each mode reads only its own variable: the other one never influences the topic. */
  lemma SelectTopicReadsOneVariable(useOutputTopic: bool, env: map<string, string>, v: string)
    ensures var other := if useOutputTopic then KAFKA_ENC_TOPIC_ENV_KEY else KAFKA_OUT_TOPIC_ENV_KEY;
      SelectTopic(useOutputTopic, env[other := v]) == SelectTopic(useOutputTopic, env)
  {
  }

  /**
   * The payload as text: an absent payload is the empty string, a payload
   * that is well-formed UTF-8 is the text it encodes, anything else is a
   * deserialisation error.
   */
  function DecodePayload(payload: Option<seq<Utf8.byte>>): (r: Result<string, RecordStreamError>)
    ensures payload.None? ==> r == Ok("")
    ensures payload.Some? ==> (r.Ok? <==> Utf8.IsWellFormed(payload.value))
    ensures payload.Some? && r.Ok? ==> Utf8.Encode(r.value) == payload.value
    ensures r.Err? ==> r.error == DeserializeError
  {
    match payload
    case None => Ok("")
    case Some(bs) =>
      match Utf8.Decode(bs)
      case None => Err(DeserializeError)
      case Some(text) => Utf8.EncodeDecode(bs); Ok(text)
  }

  /** A text payload is delivered unchanged: decoding its encoding gives it back. */
  lemma DecodePayloadOfText(text: string)
    ensures DecodePayload(Some(Utf8.Encode(text))) == Ok(text)
  {
    Utf8.DecodeEncode(text);
  }

  /** The tracker after the messages `msgs` were consumed successfully, in order. */
  function Tracked(tpl: map<TopicPartition, int>, msgs: seq<Message>): map<TopicPartition, int>
  {
    if msgs == [] then tpl
    else
      var last := msgs[|msgs| - 1];
      Tracked(tpl, msgs[..|msgs| - 1])[last.Key() := last.offset + 1]
  }

  /** The tracker holds exactly the partitions it started with and those of the consumed messages. */
  lemma {:induction false} TrackedKeys(tpl: map<TopicPartition, int>, msgs: seq<Message>, k: TopicPartition)
    ensures k in Tracked(tpl, msgs) <==> k in tpl || exists i :: 0 <= i < |msgs| && msgs[i].Key() == k
  {
    if msgs != [] {
      var init := msgs[..|msgs| - 1];
      TrackedKeys(tpl, init, k);
      if k in Tracked(tpl, msgs) && k !in tpl && msgs[|msgs| - 1].Key() != k {
        var i :| 0 <= i < |init| && init[i].Key() == k;
        assert msgs[i].Key() == k;
      }
      if exists i :: 0 <= i < |msgs| && msgs[i].Key() == k {
        var i :| 0 <= i < |msgs| && msgs[i].Key() == k;
        if i < |init| {
          assert init[i].Key() == k;
        }
      }
    }
  }

  /** A partition that no message touched keeps its entry (or its absence). */
  lemma {:induction false} TrackedUntouched(tpl: map<TopicPartition, int>, msgs: seq<Message>, k: TopicPartition)
    requires forall i :: 0 <= i < |msgs| ==> msgs[i].Key() != k
    ensures k in Tracked(tpl, msgs) <==> k in tpl
    ensures k in tpl ==> Tracked(tpl, msgs)[k] == tpl[k]
  {
    if msgs != [] {
      TrackedUntouched(tpl, msgs[..|msgs| - 1], k);
    }
  }

  /** The entry of a partition is one past the offset of the LAST message consumed from it. */
  lemma {:induction false} TrackedIsLastOffset(tpl: map<TopicPartition, int>, msgs: seq<Message>, j: int)
    requires 0 <= j < |msgs|
    requires forall i :: j < i < |msgs| ==> msgs[i].Key() != msgs[j].Key()
    ensures msgs[j].Key() in Tracked(tpl, msgs)
    ensures Tracked(tpl, msgs)[msgs[j].Key()] == msgs[j].offset + 1
  {
    if j < |msgs| - 1 {
      TrackedIsLastOffset(tpl, msgs[..|msgs| - 1], j);
    }
  }

  /** Every entry of a tracker that started empty comes from a consumed message. */
  lemma {:induction false} TrackedWitness(msgs: seq<Message>, k: TopicPartition)
    requires k in Tracked(map[], msgs)
    ensures exists j :: 0 <= j < |msgs| && msgs[j].Key() == k && Tracked(map[], msgs)[k] == msgs[j].offset + 1
  {
    var last := msgs[|msgs| - 1];
    if last.Key() != k {
      TrackedWitness(msgs[..|msgs| - 1], k);
      var j :| 0 <= j < |msgs| - 1 && msgs[..|msgs| - 1][j].Key() == k
        && Tracked(map[], msgs[..|msgs| - 1])[k] == msgs[..|msgs| - 1][j].offset + 1;
      assert msgs[j].Key() == k;
    } else {
      assert msgs[|msgs| - 1].Key() == k;
    }
  }

  /** Offsets consumed from each partition grow strictly, as the log delivers them. */
  ghost predicate IncreasingPerPartition(msgs: seq<Message>) {
    forall i, j :: 0 <= i < j < |msgs| && msgs[i].Key() == msgs[j].Key() ==> msgs[i].offset < msgs[j].offset
  }

  /**
   * When offsets arrive in increasing order per partition, the tracker entry
   * of a partition strictly grows whenever another message of it is consumed.
   */
  lemma TrackedAdvances(msgs: seq<Message>, i: int, j: int, k: TopicPartition)
    requires IncreasingPerPartition(msgs)
    requires 0 <= i < j <= |msgs|
    requires k in Tracked(map[], msgs[..i])
    requires exists m :: i <= m < j && msgs[m].Key() == k
    ensures k in Tracked(map[], msgs[..j])
    ensures Tracked(map[], msgs[..i])[k] < Tracked(map[], msgs[..j])[k]
  {
    var b := LastOn(msgs[..j], k, i);
    TrackedIsLastOffset(map[], msgs[..j], b);
    TrackedWitness(msgs[..i], k);
    var a :| 0 <= a < i && msgs[..i][a].Key() == k && Tracked(map[], msgs[..i])[k] == msgs[..i][a].offset + 1;
    assert msgs[a].Key() == msgs[b].Key();
  }

  /** The index of the last message on `k`, given that one exists at or after `from`. */
  function LastOn(msgs: seq<Message>, k: TopicPartition, from: int): (b: int)
    requires 0 <= from <= |msgs|
    requires exists m :: from <= m < |msgs| && msgs[m].Key() == k
    ensures from <= b < |msgs| && msgs[b].Key() == k
    ensures forall i :: b < i < |msgs| ==> msgs[i].Key() != k
    decreases |msgs|
  {
    var last := |msgs| - 1;
    if msgs[last].Key() == k then last
    else
      var m :| from <= m < |msgs| && msgs[m].Key() == k;
      assert msgs[..last][m].Key() == k;
      LastOn(msgs[..last], k, from)
  }

  /**
   * `KafkaRecordStream`: the consumer side of it.  The tracker `tpl` is the
   * mutex-guarded `TopicPartitionList`; the lock itself is not modelled
   * (every operation here has the object to itself).
   */
  class KafkaRecordStream {
    const producerEnabled: bool
    const consumerEnabled: bool
    const topic: string
    var tpl: map<TopicPartition, int>

    /** `KafkaRecordStream::new`, with the process environment as a parameter. */
    constructor (enableProducer: bool, enableConsumer: bool, useOutputTopic: bool, env: map<string, string>)
      ensures producerEnabled == enableProducer && consumerEnabled == enableConsumer
      ensures topic == SelectTopic(useOutputTopic, env)
      ensures tpl == map[]
    {
      producerEnabled := enableProducer;
      consumerEnabled := enableConsumer;
      topic := SelectTopic(useOutputTopic, env);
      tpl := map[];
    }

    /**
     * `consume`: the payload is decoded first, and only a message whose
     * payload decodes moves its partition's entry to `offset + 1`.
     */
    method Consume(recv: Recv) returns (r: Result<string, RecordStreamError>)
      requires consumerEnabled
      modifies this
      ensures recv.RecvFailed? ==> r == Err(ReceiveError)
      ensures recv.Delivered? ==> r == DecodePayload(recv.msg.payload)
      ensures r.Ok? ==> tpl == Tracked(old(tpl), [recv.msg])
      ensures r.Ok? ==> recv.msg.Key() in tpl && tpl[recv.msg.Key()] == recv.msg.offset + 1
      ensures r.Ok? ==> forall k :: k != recv.msg.Key() ==>
        (k in tpl <==> k in old(tpl)) && (k in tpl ==> tpl[k] == old(tpl)[k])
      ensures r.Err? ==> tpl == old(tpl)
    {
      match recv {
        case RecvFailed =>
          r := Err(ReceiveError);
        case Delivered(msg) =>
          var payload := DecodePayload(msg.payload);
          if payload.Err? {
            return Err(DeserializeError);
          }
          tpl := tpl[msg.Key() := msg.offset + 1];
          r := Ok(payload.value);
      }
    }

    /**
     * `commit_last_consume`: hands the whole tracker to the broker;
     * `brokerAccepts` is the broker's answer to the asynchronous commit
     * request.  The tracker is only read.
     */
    method CommitLastConsume(brokerAccepts: bool) returns (sent: map<TopicPartition, int>, r: Result<(), RecordStreamError>)
      requires consumerEnabled
      ensures sent == tpl
      ensures r.Ok? <==> brokerAccepts
      ensures r.Err? ==> r.error == CommitError
    {
      sent := tpl;
      r := if brokerAccepts then Ok(()) else Err(CommitError);
    }
  }
}
