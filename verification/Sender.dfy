/** The sending half of a session: a bounded queue with at most one write under way. `Write` is two
    steps, because it starts the write after it has let go of the lock. */
module Sender {
  import opened Frames
  import opened Wrappers

  const MAX_SENDLEN: nat := 1000

  /** `queue` is `_send_que`; `issuing` says that a `Write` has found the queue empty and not yet
      called `async_write`; `inFlight` that a write is under way, `sent` how many bytes of the front
      frame it has transferred; `failed` that a write ended in an error. `wire` is what the socket
      has taken, `offered` every frame ever handed to `Write`, `accepted` those queued and `dropped` the
      others. */
  datatype State = State(
    queue: seq<seq<Byte>>,
    issuing: bool,
    inFlight: bool,
    sent: nat,
    failed: bool,
    wire: seq<Byte>,
    offered: seq<seq<Byte>>,
    accepted: seq<seq<Byte>>,
    dropped: seq<seq<Byte>>)

  datatype Step =
    | Enqueue(frame: seq<Byte>)  // Write, inside the lock
    | Issue                      // Write, after it
    | Transfer(k: nat)           // the socket takes k bytes
    | Complete                   // HandleWrite without error
    | Break                      // HandleWrite with an error

  const INIT := State([], false, false, 0, false, [], [], [], [])

  predicate Enabled(st: State, step: Step) {
    match step
    case Enqueue(frame) => true
    case Issue => st.issuing && st.queue != []
    case Transfer(k) => st.inFlight && st.queue != [] && st.sent + k <= |st.queue[0]|
    case Complete => st.inFlight && st.queue != [] && st.sent == |st.queue[0]|
    case Break => st.inFlight
  }

  function Apply(st: State, step: Step): State
    requires Enabled(st, step)
  {
    match step
    case Enqueue(frame) =>
      if |st.queue| >= MAX_SENDLEN then st.(offered := st.offered + [frame], dropped := st.dropped + [frame])
      else st.(queue := st.queue + [frame], offered := st.offered + [frame], accepted := st.accepted + [frame],
               issuing := st.issuing || st.queue == [])
    case Issue => st.(issuing := false, inFlight := true, sent := 0)
    case Transfer(k) => st.(sent := st.sent + k, wire := st.wire + st.queue[0][st.sent..st.sent + k])
    case Complete => st.(queue := st.queue[1..], sent := 0, inFlight := |st.queue| > 1)
    case Break => st.(inFlight := false, failed := true)
  }

  predicate ValidRun(st: State, steps: seq<Step>)
    decreases |steps|
  {
    steps == [] || (Enabled(st, steps[0]) && ValidRun(Apply(st, steps[0]), steps[1..]))
  }

  function Run(st: State, steps: seq<Step>): State
    requires ValidRun(st, steps)
    decreases |steps|
  {
    if steps == [] then st else Run(Apply(st, steps[0]), steps[1..])
  }

  function Concat(fs: seq<seq<Byte>>): seq<Byte> {
    if fs == [] then [] else fs[0] + Concat(fs[1..])
  }

  /** How many accepted frames are completely on the wire. */
  function Done(st: State): int {
    |st.accepted| - |st.queue|
  }

  ghost predicate Control(st: State) {
    && |st.queue| <= MAX_SENDLEN
    && !(st.issuing && st.inFlight)
    && (st.failed ==> st.queue != [] && !st.issuing && !st.inFlight)
    && (!st.failed ==> (st.queue != [] <==> st.issuing || st.inFlight))
    && (!st.inFlight && !st.failed ==> st.sent == 0)
    && (st.queue != [] ==> st.sent <= |st.queue[0]|)
  }

  ghost predicate Bytes(st: State)
    requires st.queue != [] ==> st.sent <= |st.queue[0]|
  {
    && Done(st) >= 0 && st.queue == st.accepted[Done(st)..]
    && st.wire == Concat(st.accepted[..Done(st)]) + (if st.queue == [] then [] else st.queue[0][..st.sent])
  }

  ghost predicate Inv(st: State) {
    Control(st) && Bytes(st) && Merge(st.accepted, st.dropped, st.offered)
  }

  lemma {:induction false} ConcatPlus(a: seq<seq<Byte>>, b: seq<seq<Byte>>)
    ensures Concat(a + b) == Concat(a) + Concat(b)
  {
    if a == [] {
      assert a + b == b;
    } else {
      ConcatPlus(a[1..], b);
      assert (a + b)[0] == a[0] && (a + b)[1..] == a[1..] + b;
      ConcatAssociates(a[0], Concat(a[1..]), Concat(b));
    }
  }

  lemma EnqueueBytes(st: State, frame: seq<Byte>)
    requires Control(st) && Bytes(st)
    ensures Control(Apply(st, Enqueue(frame))) && Bytes(Apply(st, Enqueue(frame)))
  {
    var st' := Apply(st, Enqueue(frame));
    if |st.queue| < MAX_SENDLEN {
      assert st'.accepted[..Done(st)] == st.accepted[..Done(st)];
      assert st'.accepted[Done(st)..] == st.accepted[Done(st)..] + [frame];
    }
  }

  lemma TransferBytes(st: State, k: nat)
    requires Inv(st) && Enabled(st, Transfer(k))
    ensures Inv(Apply(st, Transfer(k)))
  {
  }

  lemma CompleteBytes(st: State)
    requires Inv(st) && Enabled(st, Complete)
    ensures Inv(Apply(st, Complete))
  {
    var front := st.queue[0];
    assert st.accepted[..Done(st) + 1] == st.accepted[..Done(st)] + [front];
    ConcatPlus(st.accepted[..Done(st)], [front]);
    assert Concat([front]) == front + [] == front == front[..st.sent];
    var st' := Apply(st, Complete);
    assert st'.wire + [] == st'.wire && st'.sent == 0;
    assert st'.queue != [] ==> st'.queue[0][..0] == [];
  }

  lemma IssueBytes(st: State)
    requires Inv(st) && Enabled(st, Issue)
    ensures Inv(Apply(st, Issue))
  {
  }

  lemma BreakBytes(st: State)
    requires Inv(st) && Enabled(st, Break)
    ensures Inv(Apply(st, Break))
  {
  }

  lemma StepKeepsInv(st: State, step: Step)
    requires Inv(st) && Enabled(st, step)
    ensures Inv(Apply(st, step))
  {
    match step
    case Enqueue(frame) =>
      EnqueueBytes(st, frame);
      MergeOne(st.accepted, st.dropped, st.offered, frame);
    case Issue => IssueBytes(st);
    case Transfer(k) => TransferBytes(st, k);
    case Complete => CompleteBytes(st);
    case Break => BreakBytes(st);
  }

  lemma {:induction false} InvOverRun(st: State, steps: seq<Step>)
    requires Inv(st) && ValidRun(st, steps)
    ensures Inv(Run(st, steps))
    decreases |steps|
  {
    if steps == [] {
    } else {
      StepKeepsInv(st, steps[0]);
      InvOverRun(Apply(st, steps[0]), steps[1..]);
    }
  }

  lemma WireIsPrefix(st: State)
    requires Inv(st)
    ensures st.wire <= Concat(st.accepted)
    ensures !st.failed && st.queue == [] ==> st.wire == Concat(st.accepted)
  {
    var done := st.accepted[..Done(st)];
    assert st.accepted == done + st.queue;
    if st.queue == [] {
      assert done == st.accepted;
    } else {
      ConcatPlus(done, st.queue);
      var front := st.queue[0];
      assert front == front[..st.sent] + front[st.sent..];
      ConcatAssociates(Concat(done), front[..st.sent], front[st.sent..]);
      ConcatAssociates(Concat(done), front, Concat(st.queue[1..]));
    }
  }

  /** Send discipline, in every reachable state: the queue is bounded; while no write has failed, a
      write is about to start or under way exactly when the queue is not empty, and never two; the
      wire holds a prefix of the accepted frames laid end to end; and accepted and dropped frames are
      together those that were written. */
  lemma SendDiscipline(steps: seq<Step>)
    requires ValidRun(INIT, steps)
    ensures var st := Run(INIT, steps);
            && |st.queue| <= MAX_SENDLEN
            && !(st.issuing && st.inFlight)
            && (!st.failed ==> (st.queue != [] <==> st.issuing || st.inFlight))
            && Merge(st.accepted, st.dropped, st.offered)
            && st.wire <= Concat(st.accepted)
            && (!st.failed && st.queue == [] ==> st.wire == Concat(st.accepted))
  {
    InvOverRun(INIT, steps);
    WireIsPrefix(Run(INIT, steps));
  }

  /** The frames handed to `Write`, and how many writes ended without error. */
  function Written(steps: seq<Step>): seq<seq<Byte>> {
    if steps == [] then [] else (if steps[0].Enqueue? then [steps[0].frame] else []) + Written(steps[1..])
  }

  function Completes(steps: seq<Step>): nat {
    if steps == [] then 0 else (if steps[0].Complete? then 1 else 0) + Completes(steps[1..])
  }

  lemma {:induction false} QueueIsUnfinished(st: State, steps: seq<Step>)
    requires ValidRun(st, steps)
    ensures var st' := Run(st, steps);
            && |st'.accepted| - |st'.queue| == |st.accepted| - |st.queue| + Completes(steps)
            && st'.offered == st.offered + Written(steps)
    decreases |steps|
  {
    if steps == [] {
    } else {
      QueueIsUnfinished(Apply(st, steps[0]), steps[1..]);
      ConcatAssociates(st.offered, if steps[0].Enqueue? then [steps[0].frame] else [], Written(steps[1..]));
    }
  }

  /** In every reachable state a written frame is dropped if and only if 1000 accepted frames have not gone
      out completely; otherwise it is accepted. */
  lemma DroppedIff(steps: seq<Step>, frame: seq<Byte>)
    requires ValidRun(INIT, steps)
    ensures var st := Run(INIT, steps);
            var st' := Apply(st, Enqueue(frame));
            var unfinished := |st.accepted| - Completes(steps);
            && st'.offered == Written(steps) + [frame]
            && unfinished <= 1000
            && st'.dropped == (if unfinished < 1000 then st.dropped else st.dropped + [frame])
            && st'.accepted == (if unfinished < 1000 then st.accepted + [frame] else st.accepted)
  {
    InvOverRun(INIT, steps);
    QueueIsUnfinished(INIT, steps);
    assert [] + Written(steps) == Written(steps);
  }

  /** With `n` frames unfinished at its beginning, every write of the run finds fewer than 1000. */
  predicate RoomFrom(n: int, steps: seq<Step>)
    decreases |steps|
  {
    steps == [] ||
    ((steps[0].Enqueue? ==> n < 1000) &&
     RoomFrom(n + (if steps[0].Enqueue? then 1 else if steps[0].Complete? then -1 else 0), steps[1..]))
  }

  lemma AcceptedStep(st: State, step: Step, rest: seq<seq<Byte>>)
    requires Enabled(st, step) && (step.Enqueue? ==> |st.queue| < 1000)
    ensures var st', frames := Apply(st, step), if step.Enqueue? then [step.frame] else [];
            && st'.accepted + rest == st.accepted + (frames + rest) && st'.dropped == st.dropped
            && |st'.queue| == |st.queue| + (if step.Enqueue? then 1 else if step.Complete? then -1 else 0)
  {
  }

  /** Then every written frame is accepted. */
  lemma {:induction false} AllAccepted(st: State, steps: seq<Step>)
    requires ValidRun(st, steps) && RoomFrom(|st.queue|, steps)
    ensures Run(st, steps).accepted == st.accepted + Written(steps) && Run(st, steps).dropped == st.dropped
    decreases |steps|
  {
    if steps == [] {
    } else {
      AcceptedStep(st, steps[0], Written(steps[1..]));
      AllAccepted(Apply(st, steps[0]), steps[1..]);
    }
  }

  /** The frame being transferred is always the front of the queue, the oldest unfinished one. */
  lemma FrontIsOldest(steps: seq<Step>)
    requires ValidRun(INIT, steps) && Run(INIT, steps).inFlight
    ensures var st := Run(INIT, steps);
            st.queue != [] && 0 <= Done(st) < |st.accepted| && st.queue[0] == st.accepted[Done(st)]
  {
    InvOverRun(INIT, steps);
  }

  /** After a write error nothing more goes out, whatever is queued later. */
  lemma {:induction false} FailedIsSilent(st: State, steps: seq<Step>)
    requires Inv(st) && st.failed && ValidRun(st, steps)
    ensures Run(st, steps).wire == st.wire && Run(st, steps).failed
    decreases |steps|
  {
    if steps == [] {
    } else {
      StepKeepsInv(st, steps[0]);
      FailedIsSilent(Apply(st, steps[0]), steps[1..]);
    }
  }

  // ------------------------------------------------------------------------------------------
  // The queue as it changes in place
  // ------------------------------------------------------------------------------------------

  class SendQueue {
    var queue: seq<seq<Byte>>
    var inFlight: bool             // an async_write is registered
    ghost var issuing: bool
    ghost var failed: bool
    ghost var sent: nat
    ghost var wire: seq<Byte>
    ghost var offered: seq<seq<Byte>>
    ghost var accepted: seq<seq<Byte>>
    ghost var dropped: seq<seq<Byte>>

    ghost function View(): State
      reads this
    {
      State(queue, issuing, inFlight, sent, failed, wire, offered, accepted, dropped)
    }

    constructor ()
      ensures View() == INIT
    {
      queue, inFlight, issuing, failed, sent, wire := [], false, false, false, 0, [];
      offered, accepted, dropped := [], [], [];
    }

    /** `Write` up to the end of the lock; `issue` tells whether the caller must start the write. */
    method Enqueue(id: Word, data: seq<Byte>) returns (issue: bool)
      requires Inv(View())
      modifies this
      ensures Inv(View()) && View() == Apply(old(View()), Step.Enqueue(Frame(Narrow(Msg(id, data)))))
      ensures queue == if |old(queue)| < 1000 then old(queue) + [Frame(Narrow(Msg(id, data)))] else old(queue)
      ensures issue ==> issuing
      ensures issue <==> old(queue) == []
    {
      StepKeepsInv(View(), Step.Enqueue(Frame(Narrow(Msg(id, data)))));
      var node := SendNode(id, data);
      issue := Push(node[..node.Length - 1]);
    }

    method Push(frame: seq<Byte>) returns (issue: bool)
      modifies this
      ensures View() == Apply(old(View()), Step.Enqueue(frame))
      ensures queue == if |old(queue)| < 1000 then old(queue) + [frame] else old(queue)
      ensures issue <==> old(queue) == []
      ensures issue ==> issuing
    {
      offered := offered + [frame];
      if |queue| >= MAX_SENDLEN {
        dropped := dropped + [frame];
        return false;
      }
      issue := queue == [];
      queue, accepted, issuing := queue + [frame], accepted + [frame], issuing || issue;
    }

    /** The rest of `Write`. */
    method StartWrite()
      requires Inv(View()) && issuing
      modifies this
      ensures Inv(View()) && View() == Apply(old(View()), Issue)
    {
      StepKeepsInv(View(), Issue);
      inFlight, issuing, sent := true, false, 0;
    }

    /** `teardown` tells whether it calls `DealExceptionSession`. */
    method HandleWrite(error: bool) returns (teardown: bool)
      requires Inv(View()) && inFlight && (!error ==> sent == |queue[0]|)
      modifies this
      ensures Inv(View()) && View() == Apply(old(View()), if error then Break else Complete)
      ensures teardown <==> error
    {
      StepKeepsInv(View(), if error then Break else Complete);
      if error {
        inFlight, failed := false, true;
        return true;
      }
      queue := queue[1..];
      inFlight, sent := queue != [], 0;
      return false;
    }
  }
}
