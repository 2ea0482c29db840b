/** Broker metadata: topics, partitions and brokers kept in one flat
    string-keyed tree, as the replicated state machine maintains it. */
module MetadataStore {
  import opened RaftTypes

  datatype Topic = Topic(id: nat, name: string, partitions: map<int, seq<int>>, isInternal: bool)

  datatype Partition = Partition(id: nat, idx: int, topic: string, isr: seq<int>, assignedReplicas: seq<int>, leader: int)

  datatype Broker = Broker(id: int, ip: Bytes, port: nat)

  datatype Transition =
    | EnsureTopic(topic: Topic)
    | EnsurePartition(partition: Partition)
    | EnsureBroker(broker: Broker)

  /** A stored value, tagged with the type it was serialized from. */
  datatype Value =
    | TopicsValue(topics: map<string, Topic>)
    | PartitionValue(partition: Partition)
    | BrokerValue(broker: Broker)

  type Tree = map<string, Value>

  /** Reading a value of another type fails to decode. */
  datatype Read<T> = Found(value: T) | Absent | Garbled

  // ---- Keys ----

  const TOPICS: string := "topics"
  const SEPARATOR: string := ":partition"

  function Digit(d: nat): char
    requires d < 10
  {
    '0' + d as char
  }

  function NatText(n: nat): (s: string)
    ensures s != []
  {
    if n < 10 then [Digit(n)] else NatText(n / 10) + [Digit(n % 10)]
  }

  /** A number as the formatter prints it. */
  function IntText(i: int): string {
    if i < 0 then "-" + NatText(-i) else NatText(i)
  }

  function PartitionKey(topic: string, idx: int): string {
    topic + SEPARATOR + [':'] + IntText(idx)
  }

  function BrokerKey(id: int): string {
    "broker" + [':'] + IntText(id)
  }

  function ParseNat(s: string): nat {
    if s == [] || !('0' <= s[|s| - 1] <= '9') then 0
    else 10 * ParseNat(s[..|s| - 1]) + (s[|s| - 1] - '0') as nat
  }

  lemma {:induction false} NatTextFacts(n: nat)
    ensures ParseNat(NatText(n)) == n
    ensures forall i :: 0 <= i < |NatText(n)| ==> '0' <= NatText(n)[i] <= '9'
  {
    if n >= 10 {
      NatTextFacts(n / 10);
      assert NatText(n)[..|NatText(n)| - 1] == NatText(n / 10);
    }
  }

  lemma IntTextFacts(i: int, j: int)
    ensures ':' !in IntText(i) && IntText(i) != []
    ensures IntText(i) == IntText(j) ==> i == j
  {
    NatTextFacts(if i < 0 then -i else i);
    NatTextFacts(if j < 0 then -j else j);
    assert i < 0 ==> IntText(i)[1..] == NatText(-i) && IntText(i)[0] == '-';
    assert j < 0 ==> IntText(j)[1..] == NatText(-j) && IntText(j)[0] == '-';
  }

  /** Two texts split at their last colon the same way. */
  lemma LastColon(a: string, x: string, b: string, y: string)
    requires ':' !in x && ':' !in y && a + [':'] + x == b + [':'] + y
    ensures a == b && x == y
  {
    var s := a + [':'] + x;
    NoLaterColon(a, x);
    NoLaterColon(b, y);
    assert s[|a|] == ':' && s[|b|] == ':';
    assert a == s[..|a|] && b == s[..|b|];
    assert x == s[|a| + 1..] && y == s[|b| + 1..];
  }

  lemma NoLaterColon(a: string, x: string)
    requires ':' !in x
    ensures forall k :: |a| < k < |a + [':'] + x| ==> (a + [':'] + x)[k] != ':'
  {
    forall k | |a| < k < |a + [':'] + x|
      ensures (a + [':'] + x)[k] != ':'
    {
      assert (a + [':'] + x)[k] == x[k - |a| - 1];
    }
  }

  /** The partition key determines topic and index, whatever characters the topic name has. */
  lemma PartitionKeyInjective(t: string, i: int, u: string, j: int)
    ensures PartitionKey(t, i) == PartitionKey(u, j) <==> t == u && i == j
  {
    if PartitionKey(t, i) == PartitionKey(u, j) {
      IntTextFacts(i, j);
      IntTextFacts(j, i);
      LastColon(t + SEPARATOR, IntText(i), u + SEPARATOR, IntText(j));
      assert (t + SEPARATOR)[..|t|] == t && (u + SEPARATOR)[..|u|] == u;
    }
  }

  lemma BrokerKeyInjective(i: int, j: int)
    ensures BrokerKey(i) == BrokerKey(j) <==> i == j
  {
    if BrokerKey(i) == BrokerKey(j) {
      IntTextFacts(i, j);
      IntTextFacts(j, i);
      LastColon("broker", IntText(i), "broker", IntText(j));
    }
  }

  /** The three kinds of keys never collide. */
  lemma KeysDisjoint(t: string, i: int, b: int)
    ensures PartitionKey(t, i) != TOPICS && BrokerKey(b) != TOPICS && PartitionKey(t, i) != BrokerKey(b)
  {
    assert PartitionKey(t, i)[|t| + |SEPARATOR|] == ':' && BrokerKey(b)[6] == ':';
    assert ':' !in TOPICS && ':' !in "broker";
    assert (t + SEPARATOR)[|t|] == ':';
    IntTextFacts(i, b);
    IntTextFacts(b, i);
    if PartitionKey(t, i) == BrokerKey(b) {
      LastColon(t + SEPARATOR, IntText(i), "broker", IntText(b));
    }
  }

  // ---- Reads ----

  function GetTopics(db: Tree): Read<map<string, Topic>> {
    if TOPICS !in db then Found(map[])
    else if db[TOPICS].TopicsValue? then Found(db[TOPICS].topics)
    else Garbled
  }

  function GetTopic(db: Tree, name: string): Read<Topic> {
    match GetTopics(db)
    case Found(topics) => if name in topics then Found(topics[name]) else Absent
    case _ => Garbled
  }

  function GetPartition(db: Tree, topic: string, idx: int): Read<Partition> {
    var key := PartitionKey(topic, idx);
    if key !in db then Absent
    else if db[key].PartitionValue? then Found(db[key].partition)
    else Garbled
  }

  /** The entry under a broker's key; the source has no reader for it. */
  function GetBroker(db: Tree, id: int): Read<Broker> {
    var key := BrokerKey(id);
    if key !in db then Absent
    else if db[key].BrokerValue? then Found(db[key].broker)
    else Garbled
  }

  // ---- Transitions ----

  datatype Applied = Applied(db: Tree, ok: bool)

  function Ensure(db: Tree, t: Transition): Applied {
    match t
    case EnsureTopic(topic) =>
      (match GetTopics(db)
       case Found(topics) =>
         var kept := if topic.name in topics then topics else topics[topic.name := topic];
         Applied(db[TOPICS := TopicsValue(kept)], true)
       case _ => Applied(db, false))
    case EnsurePartition(p) => Applied(db[PartitionKey(p.topic, p.idx) := PartitionValue(p)], true)
    case EnsureBroker(b) => Applied(db[BrokerKey(b.id) := BrokerValue(b)], true)
  }

  type Decoder = Bytes -> Option<Transition>

  /** One transition of the broker's state machine. The answer carries the
      entity as the request gave it; both encodings are parameters. */
  function BrokerStep(decode: Decoder, encode: Transition -> Bytes, db: Tree, input: Bytes): (Tree, Reply) {
    match decode(input)
    case None => (db, Refused)
    case Some(t) =>
      var r := Ensure(db, t);
      (r.db, if r.ok then Answer(encode(t)) else Refused)
  }

  function EnsureAll(ts: seq<Transition>): Tree {
    if ts == [] then map[] else Ensure(EnsureAll(ts[..|ts| - 1]), ts[|ts| - 1]).db
  }

  // ---- What a history of transitions should leave behind ----

  /** The first topic of a name. */
  function FirstTopic(ts: seq<Transition>, name: string): Read<Topic> {
    if ts == [] then Absent
    else if ts[0].EnsureTopic? && ts[0].topic.name == name then Found(ts[0].topic)
    else FirstTopic(ts[1..], name)
  }

  /** The last partition with a topic and index. */
  function LastPartition(ts: seq<Transition>, topic: string, idx: int): Read<Partition> {
    if ts == [] then Absent
    else
      var last := ts[|ts| - 1];
      if last.EnsurePartition? && last.partition.topic == topic && last.partition.idx == idx then Found(last.partition)
      else LastPartition(ts[..|ts| - 1], topic, idx)
  }

  function LastBroker(ts: seq<Transition>, id: int): Read<Broker> {
    if ts == [] then Absent
    else
      var last := ts[|ts| - 1];
      if last.EnsureBroker? && last.broker.id == id then Found(last.broker) else LastBroker(ts[..|ts| - 1], id)
  }

  lemma {:induction false} FirstTopicSnoc(ts: seq<Transition>, t: Transition, name: string)
    ensures FirstTopic(ts + [t], name) ==
            if FirstTopic(ts, name) != Absent then FirstTopic(ts, name) else FirstTopic([t], name)
  {
    if ts == [] {
      assert ts + [t] == [t];
    } else {
      FirstTopicSnoc(ts[1..], t, name);
      assert (ts + [t])[1..] == ts[1..] + [t];
    }
  }

  /** One transition, seen through the three kinds of reads. */
  lemma EnsureReads(db: Tree, t: Transition, name: string, topic: string, idx: int, id: int)
    requires GetTopics(db).Found?
    ensures Ensure(db, t).ok && GetTopics(Ensure(db, t).db).Found?
    ensures GetTopic(Ensure(db, t).db, name) ==
            if t.EnsureTopic? && t.topic.name == name && GetTopic(db, name) == Absent then Found(t.topic) else GetTopic(db, name)
    ensures GetPartition(Ensure(db, t).db, topic, idx) ==
            if t.EnsurePartition? && t.partition.topic == topic && t.partition.idx == idx then Found(t.partition)
            else GetPartition(db, topic, idx)
    ensures GetBroker(Ensure(db, t).db, id) ==
            if t.EnsureBroker? && t.broker.id == id then Found(t.broker) else GetBroker(db, id)
  {
    KeysDisjoint(topic, idx, id);
    match t {
      case EnsureTopic(_) =>
      case EnsurePartition(p) =>
        PartitionKeyInjective(p.topic, p.idx, topic, idx);
        KeysDisjoint(p.topic, p.idx, id);
      case EnsureBroker(b) =>
        BrokerKeyInjective(b.id, id);
        KeysDisjoint(topic, idx, b.id);
    }
  }

  /** The flat tree stands for three separate maps. After any history no
      transition has failed to decode, the topic kept under a name is the
      first one ensured, and partitions and brokers are the last ones. */
  lemma {:induction false} TreeRefinesMaps(ts: seq<Transition>, name: string, topic: string, idx: int, id: int)
    ensures GetTopics(EnsureAll(ts)).Found?
    ensures GetTopic(EnsureAll(ts), name) == FirstTopic(ts, name)
    ensures GetPartition(EnsureAll(ts), topic, idx) == LastPartition(ts, topic, idx)
    ensures GetBroker(EnsureAll(ts), id) == LastBroker(ts, id)
    decreases ts
  {
    if ts != [] {
      var front, last := ts[..|ts| - 1], ts[|ts| - 1];
      TreeRefinesMaps(front, name, topic, idx, id);
      EnsureReads(EnsureAll(front), last, name, topic, idx, id);
      FirstTopicSnoc(front, last, name);
      assert ts == front + [last];
    }
  }

  class Store {
    var db: Tree

    constructor ()
      ensures db == map[]
    {
      db := map[];
    }

    method CreateTopic(topic: Topic) returns (ok: bool)
      modifies this
      ensures Applied(db, ok) == Ensure(old(db), EnsureTopic(topic))
    {
      var found := GetTopics(db);
      if !found.Found? {
        return false;
      }
      var topics := found.value;
      if topic.name !in topics {
        topics := topics[topic.name := topic];
      }
      db := db[TOPICS := TopicsValue(topics)];
      return true;
    }

    method CreatePartition(partition: Partition)
      modifies this
      ensures Applied(db, true) == Ensure(old(db), EnsurePartition(partition))
    {
      var key := PartitionKey(partition.topic, partition.idx);
      db := db[key := PartitionValue(partition)];
    }

    method CreateBroker(broker: Broker)
      modifies this
      ensures Applied(db, true) == Ensure(old(db), EnsureBroker(broker))
    {
      var key := BrokerKey(broker.id);
      db := db[key := BrokerValue(broker)];
    }
  }

  class JosefineFsm {
    const store: Store
    const decode: Decoder
    const encode: Transition -> Bytes

    constructor (s: Store, d: Decoder, e: Transition -> Bytes)
      ensures store == s && decode == d && encode == e
    {
      store, decode, encode := s, d, e;
    }

    /** A payload that does not decode changes nothing and is refused; any other
        is applied and answered with the encoded entity. */
    method Transition(input: Bytes) returns (reply: Reply)
      modifies store
      ensures (store.db, reply) == BrokerStep(decode, encode, old(store.db), input)
      ensures decode(input).None? ==> reply == Refused && store.db == old(store.db)
    {
      var t := decode(input);
      if t.None? {
        return Refused;
      }
      var ok := true;
      match t.value {
        case EnsureTopic(topic) => ok := store.CreateTopic(topic);
        case EnsurePartition(partition) => store.CreatePartition(partition);
        case EnsureBroker(broker) => store.CreateBroker(broker);
      }
      reply := if ok then Answer(encode(t.value)) else Refused;
    }
  }
}
