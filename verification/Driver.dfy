/** The state machine driver: what it executes and whom it answers, as a
    function of the instructions it has read so far. */
module Drivers {
  import opened RaftTypes
  import opened Replication

  /** A deterministic state machine. */
  type Machine<!S> = (S, Bytes) -> (S, Reply)

  datatype DriverState<S> = DriverState(
    fsm: S,
    notifications: map<BlockId, (Address, RequestId)>,
    sent: seq<Message>)

  function Drive<S>(step: Machine<S>, d: DriverState<S>, i: Instruction): DriverState<S> {
    match i
    case Apply(block) =>
      if block.id == 0 then d
      else
        var (fsm, reply) := step(d.fsm, block.data);
        if block.id in d.notifications then
          var (to, id) := d.notifications[block.id];
          DriverState(fsm, d.notifications - {block.id}, d.sent + [Message(Local, to, Response(id, reply))])
        else d.(fsm := fsm)
    case Notify(id, address, blockId) => d.(notifications := d.notifications[blockId := (address, id)])
  }

  function DriveAll<S>(step: Machine<S>, start: S, log: seq<Instruction>): DriverState<S> {
    if log == [] then DriverState(start, map[], [])
    else Drive(step, DriveAll(step, start, log[..|log| - 1]), log[|log| - 1])
  }

  lemma DriveSnoc<S>(step: Machine<S>, start: S, log: seq<Instruction>, i: Instruction)
    ensures DriveAll(step, start, log + [i]) == Drive(step, DriveAll(step, start, log), i)
  {
    assert (log + [i])[..|log|] == log;
  }

  // ---- What has been executed ----

  /** The payloads of the applied blocks, genesis left out. */
  function Inputs(log: seq<Instruction>): seq<Bytes> {
    if log == [] then []
    else
      var front, last := Inputs(log[..|log| - 1]), log[|log| - 1];
      if last.Apply? && last.block.id != 0 then front + [last.block.data] else front
  }

  /** The blocks the machine has executed, genesis left out. */
  function Executed(log: seq<Instruction>): seq<Block> {
    if log == [] then []
    else
      var front, last := Executed(log[..|log| - 1]), log[|log| - 1];
      if last.Apply? && last.block.id != 0 then front + [last.block] else front
  }

  lemma {:induction false} InputsOfExecuted(log: seq<Instruction>)
    ensures |Inputs(log)| == |Executed(log)|
    ensures forall j :: 0 <= j < |Inputs(log)| ==> Inputs(log)[j] == Executed(log)[j].data
  {
    if log != [] {
      InputsOfExecuted(log[..|log| - 1]);
    }
  }

  /** Running the machine alone on a list of inputs. */
  function Replay<S>(step: Machine<S>, start: S, inputs: seq<Bytes>): (r: (S, seq<Reply>))
    ensures |r.1| == |inputs|
  {
    if inputs == [] then (start, [])
    else
      var (s, replies) := Replay(step, start, inputs[..|inputs| - 1]);
      var (s', reply) := step(s, inputs[|inputs| - 1]);
      (s', replies + [reply])
  }

  lemma ReplaySnoc<S>(step: Machine<S>, start: S, inputs: seq<Bytes>, x: Bytes)
    ensures Replay(step, start, inputs + [x]).0 == step(Replay(step, start, inputs).0, x).0
    ensures Replay(step, start, inputs + [x]).1 ==
            Replay(step, start, inputs).1 + [step(Replay(step, start, inputs).0, x).1]
  {
    assert (inputs + [x])[..|inputs|] == inputs;
  }

  /** The machine a driver holds has seen the applied payloads, in order, and nothing else. */
  lemma {:induction false} DriverReplays<S>(step: Machine<S>, start: S, log: seq<Instruction>)
    ensures DriveAll(step, start, log).fsm == Replay(step, start, Inputs(log)).0
  {
    if log != [] {
      var front, last := log[..|log| - 1], log[|log| - 1];
      DriverReplays(step, start, front);
      hide Replay;
      if last.Apply? && last.block.id != 0 {
        ReplaySnoc(step, start, Inputs(front), last.block.data);
      }
    }
  }

  lemma {:induction false} ReplayPrefix<S>(step: Machine<S>, start: S, inputs: seq<Bytes>, k: nat)
    requires k <= |inputs|
    ensures Replay(step, start, inputs[..k]).1 == Replay(step, start, inputs).1[..k]
  {
    if k < |inputs| {
      ReplayPrefix(step, start, inputs[..|inputs| - 1], k);
      assert inputs[..|inputs| - 1][..k] == inputs[..k];
    } else {
      assert inputs[..k] == inputs;
    }
  }

  // ---- Prefixes of a log ----

  lemma {:induction false} PrefixParts(log: seq<Instruction>, k: nat)
    requires k <= |log|
    ensures ApplyBlocks(log[..k]) <= ApplyBlocks(log)
    ensures Notices(log[..k]) <= Notices(log)
    ensures Inputs(log[..k]) <= Inputs(log)
    ensures Executed(log[..k]) <= Executed(log)
  {
    if k < |log| {
      PrefixParts(log[..|log| - 1], k);
      assert log[..|log| - 1][..k] == log[..k];
    } else {
      assert log[..k] == log;
    }
  }

  /** Blocks applied from id `lo` on: those executed are the ids above 0. */
  lemma {:induction false} ExecutedOfRun(log: seq<Instruction>, lo: nat)
    requires lo <= 1
    requires forall j :: 0 <= j < |ApplyBlocks(log)| ==> ApplyBlocks(log)[j].id == lo + j
    ensures |Executed(log)| == if lo == 0 && |ApplyBlocks(log)| > 0 then |ApplyBlocks(log)| - 1 else |ApplyBlocks(log)|
    ensures forall j :: 0 <= j < |Executed(log)| ==> Executed(log)[j] == ApplyBlocks(log)[j + 1 - lo]
  {
    if log != [] {
      var front, last := log[..|log| - 1], log[|log| - 1];
      PrefixParts(log, |log| - 1);
      ExecutedOfRun(front, lo);
      if last.Apply? {
        assert ApplyBlocks(log)[|ApplyBlocks(front)|] == last.block;
      }
    }
  }

  // ---- Answers ----

  /** The log of a leader: the j-th announcement is for block j + 1, the j-th
      applied block is block j + 1, and announcements come first. */
  ghost predicate WellAnnounced(log: seq<Instruction>) {
    && (forall j :: 0 <= j < |ApplyBlocks(log)| ==> ApplyBlocks(log)[j].id == j + 1)
    && (forall j :: 0 <= j < |Notices(log)| ==> Notices(log)[j].Notify? && Notices(log)[j].blockId == j + 1)
    && AnnouncedFirst(log)
  }

  lemma WellAnnouncedPrefix(log: seq<Instruction>, k: nat)
    requires WellAnnounced(log) && k <= |log|
    ensures WellAnnounced(log[..k])
  {
    PrefixParts(log, k);
    forall i | 0 <= i <= |log[..k]|
      ensures |ApplyBlocks(log[..k][..i])| <= |Notices(log[..k][..i])|
    {
      assert log[..k][..i] == log[..i];
    }
  }

  /** The answers due after a log: one per applied block, in order, to the
      address announced for it, with the reply of its own transition. */
  ghost predicate Answered<S>(step: Machine<S>, start: S, log: seq<Instruction>, sent: seq<Message>) {
    var replies := Replay(step, start, Inputs(log)).1;
    && |sent| == |ApplyBlocks(log)| == |replies| <= |Notices(log)|
    && forall j :: 0 <= j < |sent| ==>
                     && Notices(log)[j].Notify?
                     && sent[j] == Message(Local, Notices(log)[j].address, Response(Notices(log)[j].id, replies[j]))
  }

  /** The announcements still waiting for their block. */
  ghost predicate Pending(log: seq<Instruction>, notifications: map<BlockId, (Address, RequestId)>) {
    && |ApplyBlocks(log)| <= |Notices(log)|
    && (forall b :: b in notifications <==> |ApplyBlocks(log)| < b <= |Notices(log)|)
    && forall b :: b in notifications ==>
                     Notices(log)[b - 1].Notify? && notifications[b] == (Notices(log)[b - 1].address, Notices(log)[b - 1].id)
  }

  lemma ApplySnoc(front: seq<Instruction>, block: Block)
    ensures ApplyBlocks(front + [Apply(block)]) == ApplyBlocks(front) + [block]
    ensures Notices(front + [Apply(block)]) == Notices(front)
    ensures block.id != 0 ==> Inputs(front + [Apply(block)]) == Inputs(front) + [block.data]
  {
    assert (front + [Apply(block)])[..|front|] == front;
  }

  /** The next block of a well announced log is the oldest one waiting. */
  lemma NextAnnounced(front: seq<Instruction>, block: Block)
    requires WellAnnounced(front + [Apply(block)])
    ensures block.id == |ApplyBlocks(front)| + 1 <= |Notices(front)|
  {
    var log := front + [Apply(block)];
    ApplySnoc(front, block);
    assert log[..|log|] == log;
    assert ApplyBlocks(log)[|ApplyBlocks(front)|] == block;
  }

  /** Applying the next block answers the oldest waiting announcement. */
  lemma AnswerOnApply<S>(step: Machine<S>, start: S, front: seq<Instruction>, block: Block, d: DriverState<S>)
    requires WellAnnounced(front + [Apply(block)]) && WellAnnounced(front)
    requires Answered(step, start, front, d.sent) && Pending(front, d.notifications)
    requires d.fsm == Replay(step, start, Inputs(front)).0
    ensures Answered(step, start, front + [Apply(block)], Drive(step, d, Apply(block)).sent)
    ensures Pending(front + [Apply(block)], Drive(step, d, Apply(block)).notifications)
  {
    hide Replay, Inputs, ApplyBlocks, Notices, WellAnnounced, Answered, Pending, Drive;
    NextAnnounced(front, block);
    AnsweredNext(step, start, front, block, d);
    PendingNext(step, front, block, d);
  }

  lemma AnsweredNext<S>(step: Machine<S>, start: S, front: seq<Instruction>, block: Block, d: DriverState<S>)
    requires Answered(step, start, front, d.sent) && Pending(front, d.notifications)
    requires block.id == |ApplyBlocks(front)| + 1 <= |Notices(front)|
    requires d.fsm == Replay(step, start, Inputs(front)).0
    ensures Answered(step, start, front + [Apply(block)], Drive(step, d, Apply(block)).sent)
  {
    ApplySnoc(front, block);
    ReplaySnoc(step, start, Inputs(front), block.data);
    hide Replay, Inputs, ApplyBlocks, Notices;
    assert block.id in d.notifications;
  }

  lemma PendingNext<S>(step: Machine<S>, front: seq<Instruction>, block: Block, d: DriverState<S>)
    requires Pending(front, d.notifications) && block.id == |ApplyBlocks(front)| + 1 <= |Notices(front)|
    ensures Pending(front + [Apply(block)], Drive(step, d, Apply(block)).notifications)
  {
    ApplySnoc(front, block);
    hide ApplyBlocks, Notices;
    assert block.id in d.notifications;
  }

  lemma WaitOnNotify<S>(step: Machine<S>, start: S, front: seq<Instruction>, note: Instruction, d: DriverState<S>)
    requires note.Notify? && WellAnnounced(front + [note]) && WellAnnounced(front)
    requires Answered(step, start, front, d.sent) && Pending(front, d.notifications)
    ensures Answered(step, start, front + [note], Drive(step, d, note).sent)
    ensures Pending(front + [note], Drive(step, d, note).notifications)
  {
    var log := front + [note];
    assert log[..|front|] == front;
    assert Notices(log)[|Notices(front)|] == note;
  }

  /** Each applied block is answered once, when it is applied, to the request it was announced for. */
  lemma {:induction false} DriverAnswers<S>(step: Machine<S>, start: S, log: seq<Instruction>)
    requires WellAnnounced(log)
    ensures Answered(step, start, log, DriveAll(step, start, log).sent)
    ensures Pending(log, DriveAll(step, start, log).notifications)
  {
    if log != [] {
      var front, last := log[..|log| - 1], log[|log| - 1];
      assert front + [last] == log;
      WellAnnouncedPrefix(log, |log| - 1);
      DriverAnswers(step, start, front);
      DriverReplays(step, start, front);
      var d := DriveAll(step, start, front);
      hide WellAnnounced, Answered, Pending, Drive;
      match last
      case Apply(block) => AnswerOnApply(step, start, front, block, d);
      case Notify(_, _, _) => WaitOnNotify(step, start, front, last, d);
    }
  }

  /** A driver that is told of no request answers none. */
  lemma {:induction false} DriverSilent<S>(step: Machine<S>, start: S, log: seq<Instruction>)
    requires Notices(log) == []
    ensures DriveAll(step, start, log).sent == [] && DriveAll(step, start, log).notifications == map[]
  {
    if log != [] {
      PrefixParts(log, |log| - 1);
      DriverSilent(step, start, log[..|log| - 1]);
    }
  }

  class Driver<S> {
    const step: Machine<S>
    var fsm: S
    var notifications: map<BlockId, (Address, RequestId)>
    var sent: seq<Message>

    ghost function State(): DriverState<S>
      reads this
    {
      DriverState(fsm, notifications, sent)
    }

    constructor (machine: Machine<S>, start: S)
      ensures step == machine && State() == DriveAll(machine, start, [])
    {
      step := machine;
      fsm := start;
      notifications := map[];
      sent := [];
    }

    method Exec(block: Block) returns (reply: Reply)
      modifies this`fsm
      ensures (fsm, reply) == step(old(fsm), block.data)
    {
      var result := step(fsm, block.data);
      fsm := result.0;
      reply := result.1;
    }

    /** Reads the queue until it is shut down, here after `queue` has been received. */
    method Run(queue: seq<Instruction>, ghost start: S, ghost read: seq<Instruction>)
      requires State() == DriveAll(step, start, read)
      modifies this
      ensures State() == DriveAll(step, start, read + queue)
    {
      hide DriveAll;
      assert read + queue[..0] == read;
      for i := 0 to |queue|
        invariant State() == DriveAll(step, start, read + queue[..i])
      {
        DriveSnoc(step, start, read + queue[..i], queue[i]);
        assert read + queue[..i + 1] == read + queue[..i] + [queue[i]];
        match queue[i] {
          case Apply(block) =>
            if block.id == 0 {
              continue;
            }
            var reply := Exec(block);
            if block.id in notifications {
              var (to, id) := notifications[block.id];
              notifications := notifications - {block.id};
              sent := sent + [Message(Local, to, Response(id, reply))];
            }
          case Notify(id, address, blockId) =>
            notifications := notifications[blockId := (address, id)];
        }
      }
      assert queue[..|queue|] == queue;
    }
  }
}
