/** From client requests to broker metadata, through the cluster. */
module EndToEnd {
  import opened RaftTypes
  import opened Clusters
  import opened ElectionSafety
  import opened Replication
  import opened Drivers
  import opened MetadataStore
  import opened Theorems

  /** The broker's state machine over the tree. */
  function BrokerMachine(decode: Decoder, encode: Transition -> Bytes): Machine<Tree> {
    (db: Tree, input: Bytes) => BrokerStep(decode, encode, db, input)
  }

  /** The transitions among a list of payloads. */
  function Decoded(decode: Decoder, inputs: seq<Bytes>): seq<Transition> {
    if inputs == [] then []
    else
      Decoded(decode, inputs[..|inputs| - 1])
      + match decode(inputs[|inputs| - 1]) case None => [] case Some(t) => [t]
  }

  lemma {:induction false} ReplayIsEnsureAll(decode: Decoder, encode: Transition -> Bytes, inputs: seq<Bytes>)
    ensures Replay(BrokerMachine(decode, encode), map[], inputs).0 == EnsureAll(Decoded(decode, inputs))
  {
    if inputs != [] {
      ReplayIsEnsureAll(decode, encode, inputs[..|inputs| - 1]);
      match decode(inputs[|inputs| - 1]) {
        case None => assert Decoded(decode, inputs) == Decoded(decode, inputs[..|inputs| - 1]);
        case Some(t) =>
          var ts := Decoded(decode, inputs);
          assert ts[..|ts| - 1] == Decoded(decode, inputs[..|inputs| - 1]);
      }
    }
  }

  /** Wherever a broker's driver has got to in any execution of the cluster, its
      metadata reads as the first topic, last partition and last broker
      ensured by the requests accepted so far, up to the number it has executed. */
  lemma MetadataFollowsRequests(c: Cluster, p: NodeId, k: nat, decode: Decoder, encode: Transition -> Bytes,
                                name: string, topic: string, idx: int, id: int)
    requires Reachable(c) && p in c.nodes && k <= |c.nodes[p].log|
    ensures var log := c.nodes[p].log[..k];
            var db := DriveAll(BrokerMachine(decode, encode), map[], log).fsm;
            && |Inputs(log)| <= |c.accepted|
            && var ts := Decoded(decode, Proposals(c.accepted[..|Inputs(log)|]));
               && GetTopic(db, name) == FirstTopic(ts, name)
               && GetPartition(db, topic, idx) == LastPartition(ts, topic, idx)
               && GetBroker(db, id) == LastBroker(ts, id)
  {
    hide Reachable, DriveAll, Replay;
    var log := c.nodes[p].log[..k];
    ReplicasAreOneMachine(c, p, k, BrokerMachine(decode, encode), map[]);
    var inputs := Proposals(c.accepted[..|Inputs(log)|]);
    ReplayIsEnsureAll(decode, encode, inputs);
    TreeRefinesMaps(Decoded(decode, inputs), name, topic, idx, id);
  }

  /** What the broker should answer to one payload: the encoded entity if it decodes. */
  function Due(decode: Decoder, encode: Transition -> Bytes, input: Bytes): Reply {
    match decode(input)
    case None => Refused
    case Some(t) => Answer(encode(t))
  }

  /** No transition that decodes is ever refused. */
  lemma {:induction false} RepliesAreDue(decode: Decoder, encode: Transition -> Bytes, inputs: seq<Bytes>, j: nat)
    requires j < |inputs|
    ensures Replay(BrokerMachine(decode, encode), map[], inputs).1[j] == Due(decode, encode, inputs[j])
  {
    var front, last := inputs[..|inputs| - 1], inputs[|inputs| - 1];
    assert inputs == front + [last];
    ReplaySnoc(BrokerMachine(decode, encode), map[], front, last);
    ReplayIsEnsureAll(decode, encode, front);
    hide Replay, Due, BrokerStep;
    if j < |front| {
      RepliesAreDue(decode, encode, front, j);
    } else {
      StepIsDue(decode, encode, Decoded(decode, front), last);
    }
  }

  lemma StepIsDue(decode: Decoder, encode: Transition -> Bytes, ts: seq<Transition>, input: Bytes)
    ensures BrokerStep(decode, encode, EnsureAll(ts), input).1 == Due(decode, encode, input)
  {
    hide EnsureAll, Ensure;
    TreeRefinesMaps(ts, "", "", 0, 0);
    if decode(input).Some? {
      EnsureReads(EnsureAll(ts), decode(input).value, "", "", 0, 0);
    }
  }

  /** In every execution the leader's driver has answered its clients in the
      order of acceptance, each with the outcome due to its own request. */
  lemma ClientsToldOutcome(c: Cluster, l: NodeId, k: nat, decode: Decoder, encode: Transition -> Bytes)
    requires Reachable(c) && IsLeader(c, l) && k <= |c.nodes[l].log|
    ensures var log := c.nodes[l].log[..k];
            var sent := DriveAll(BrokerMachine(decode, encode), map[], log).sent;
            && |sent| == |ApplyBlocks(log)| <= |c.accepted|
            && forall j :: 0 <= j < |sent| ==>
                             sent[j] == Message(Local, c.accepted[j].address,
                                                Response(c.accepted[j].id, Due(decode, encode, c.accepted[j].proposal)))
  {
    hide Reachable, DriveAll, ApplyBlocks, Due, BrokerMachine, Replay;
    ClientsAnswered(c, l, k, BrokerMachine(decode, encode), map[]);
    var log := c.nodes[l].log[..k];
    forall j | 0 <= j < |ApplyBlocks(log)|
      ensures Replay(BrokerMachine(decode, encode), map[], Proposals(c.accepted)).1[j] == Due(decode, encode, c.accepted[j].proposal)
    {
      RepliesAreDue(decode, encode, Proposals(c.accepted), j);
    }
  }
}
