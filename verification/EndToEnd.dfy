/** From the sender's queue to the receiver's logic queue. */
module EndToEnd {
  import opened Wrappers
  import opened Frames
  import Sender
  import Receiver
  import opened LogicQueue

  lemma {:induction false} ConcatIsWire(fs: seq<seq<Byte>>, ms: seq<Msg>)
    requires |fs| == |ms| && forall i :: 0 <= i < |ms| ==> |ms[i].data| <= MAX_LENGTH && fs[i] == Frame(ms[i])
    ensures Sender.Concat(fs) == Wire(ms)
    decreases |fs|
  {
    if fs == [] {
    } else {
      ConcatIsWire(fs[1..], ms[1..]);
    }
  }

  /** End to end: let the sender accept frames of `ms` under any interleaving of writers, transfers
      and completions, and the receiver take any part of what reached the wire in any reads, with
      kicks and errors at any point. It posts a prefix of `ms`: nothing lost in between, merged,
      repeated or reordered. */
  lemma PostsPrefix(sends: seq<Sender.Step>, es: seq<Receiver.Event>, ms: seq<Msg>)
    requires Sender.ValidRun(Sender.INIT, sends) && Receiver.ValidRun(Receiver.START, es)
    requires var fs := Sender.Run(Sender.INIT, sends).accepted;
             |fs| == |ms| && forall i :: 0 <= i < |ms| ==> |ms[i].data| <= MAX_LENGTH && fs[i] == Frame(ms[i])
    requires Receiver.Taken(es) <= Sender.Run(Sender.INIT, sends).wire
    ensures Receiver.Run(Receiver.START, es).posted <= ms
  {
    var st := Sender.Run(Sender.INIT, sends);
    Sender.SendDiscipline(sends);
    ConcatIsWire(st.accepted, ms);
    var got := Receiver.Taken(es);
    assert got == Wire(ms)[..|got|];
    WirePrefix(ms, |got|);
    Receiver.PostedIsPrefix(Receiver.START, [], es);
    assert [] + got == got;
  }

  /** And once the queue has drained and every byte has been taken without kick or error, it has
      posted all of `ms` (a last message with an empty payload needs its empty read to complete). */
  lemma PostsAll(sends: seq<Sender.Step>, es: seq<Receiver.Event>, ms: seq<Msg>)
    requires Sender.ValidRun(Sender.INIT, sends) && Receiver.ValidRun(Receiver.START, es)
    requires var st := Sender.Run(Sender.INIT, sends);
             && |st.accepted| == |ms|
             && (forall i :: 0 <= i < |ms| ==> |ms[i].data| <= MAX_LENGTH && st.accepted[i] == Frame(ms[i]))
             && !st.failed && st.queue == [] && Receiver.Taken(es) == st.wire
    requires forall k :: 0 <= k < |es| ==> es[k].Arrive?
    ensures Receiver.Settled(Receiver.Run(Receiver.START, es)) == Receiver.Conn(Receiver.Header([]), ms, true, [])
  {
    var st := Sender.Run(Sender.INIT, sends);
    Sender.SendDiscipline(sends);
    ConcatIsWire(st.accepted, ms);
    assert Wire(ms)[..|Wire(ms)|] == Wire(ms);
    WirePrefix(ms, |Wire(ms)|);
    Receiver.ChoppingIsIrrelevant(es);
  }

  /** If fewer than 1000 frames were unfinished whenever one was written, then, once all of them have gone out
      without error and been read, everything that was written has been posted. */
  lemma AllWrittenArePosted(sends: seq<Sender.Step>, es: seq<Receiver.Event>, ms: seq<Msg>)
    requires Sender.ValidRun(Sender.INIT, sends) && Receiver.ValidRun(Receiver.START, es)
    requires var fs := Sender.Written(sends);
             |fs| == |ms| && forall i :: 0 <= i < |ms| ==> |ms[i].data| <= MAX_LENGTH && fs[i] == Frame(ms[i])
    requires Sender.RoomFrom(0, sends) && Sender.Completes(sends) == |ms|
    requires Receiver.Taken(es) == Sender.Run(Sender.INIT, sends).wire
    requires forall k :: 0 <= k < |es| ==> es[k].Arrive?
    ensures Receiver.Settled(Receiver.Run(Receiver.START, es)) == Receiver.Conn(Receiver.Header([]), ms, true, [])
  {
    Sender.AllAccepted(Sender.INIT, sends);
    assert [] + Sender.Written(sends) == Sender.Written(sends);
    Sender.QueueIsUnfinished(Sender.INIT, sends);
    Sender.InvOverRun(Sender.INIT, sends);
    PostsAll(sends, es, ms);
  }

  /** The messages of session `s` as they enter the logic queue. */
  function Nodes(s: string, ms: seq<Msg>): seq<Node> {
    seq(|ms|, i requires 0 <= i < |ms| => Node(s, ms[i]))
  }

  /** The whole way: a session `s` receives the frames of `ms` and offers what it posts to the logic
      queue, among any other sessions. It has posted the first of `ms`; and what the logic thread took or
      will take of them, and what the full queue dropped, are together exactly these, each in its order. */
  lemma HandledInOrder(sends: seq<Sender.Step>, es: seq<Receiver.Event>, ms: seq<Msg>,
                       steps: seq<LogicQueue.Step>, s: string)
    requires Sender.ValidRun(Sender.INIT, sends) && Receiver.ValidRun(Receiver.START, es)
    requires var fs := Sender.Run(Sender.INIT, sends).accepted;
             |fs| == |ms| && forall i :: 0 <= i < |ms| ==> |ms[i].data| <= MAX_LENGTH && fs[i] == Frame(ms[i])
    requires Receiver.Taken(es) <= Sender.Run(Sender.INIT, sends).wire
    requires LogicQueue.ValidRun(LogicQueue.INIT, steps)
    requires OfSession(LogicQueue.Run(LogicQueue.INIT, steps).offered, s) ==
             Nodes(s, Receiver.Run(Receiver.START, es).posted)
    ensures var st := LogicQueue.Run(LogicQueue.INIT, steps);
            var k := |Receiver.Run(Receiver.START, es).posted|;
            && k <= |ms|
            && Merge(OfSession(st.taken, s) + OfSession(st.queue, s), OfSession(st.dropped, s), Nodes(s, ms[..k]))
  {
    PostsPrefix(sends, es, ms);
    SessionOrder(steps, s);
    var posted := Receiver.Run(Receiver.START, es).posted;
    assert posted == ms[..|posted|];
  }
}
