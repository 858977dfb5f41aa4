/** The bounded queue between the sessions and the one logic thread. */
module LogicQueue {
  import opened Frames
  import opened Wrappers

  const MAX_RECVLEN: nat := 10_000

  datatype Node = Node(session: string, msg: Msg)

  /** The message ids with a registered callback. */
  const REGISTERED: set<int> := {1001, 1005, 1007, 1009, 1013, 1017, 1023}

  function OfSession(ns: seq<Node>, s: string): seq<Node> {
    if ns == [] then []
    else (if ns[0].session == s then [ns[0]] else []) + OfSession(ns[1..], s)
  }

  /** The calls the logic thread makes for the nodes it takes. */
  function Calls(ns: seq<Node>): seq<Node> {
    if ns == [] then []
    else (if ns[0].msg.id in REGISTERED then [ns[0]] else []) + Calls(ns[1..])
  }

  // ------------------------------------------------------------------------------------------
  // All interleavings of the sessions and the logic thread
  // ------------------------------------------------------------------------------------------

  /** `offered` are the nodes handed to `PostMsgToQue`, in the order its calls ended; `accepted` those
      it queued, `dropped` the others; `taken` those the logic thread took, in order. */
  datatype State = State(
    queue: seq<Node>, offered: seq<Node>, accepted: seq<Node>, dropped: seq<Node>, taken: seq<Node>,
    stop: bool, running: bool)

  datatype Step =
    | Post(n: Node)   // there is room
    | Drop(n: Node)   // 50 ms without room
    | Take            // the logic thread takes the front node
    | Stop            // the destructor sets the stop flag
    | Drain           // the logic thread sees it, takes everything and ends

  const INIT := State([], [], [], [], [], false, true)

  predicate Enabled(st: State, step: Step) {
    match step
    case Post(n) => |st.queue| < MAX_RECVLEN
    case Drop(n) => |st.queue| >= MAX_RECVLEN
    case Take => st.running && !st.stop && st.queue != []
    case Stop => true
    case Drain => st.running && st.stop
  }

  function Apply(st: State, step: Step): State
    requires Enabled(st, step)
  {
    match step
    case Post(n) =>
      st.(queue := st.queue + [n], offered := st.offered + [n], accepted := st.accepted + [n])
    case Drop(n) => st.(offered := st.offered + [n], dropped := st.dropped + [n])
    case Take => st.(queue := st.queue[1..], taken := st.taken + [st.queue[0]])
    case Stop => st.(stop := true)
    case Drain => st.(queue := [], taken := st.taken + st.queue, running := false)
  }

  predicate ValidRun(st: State, steps: seq<Step>)
    decreases |steps|
  {
    steps == [] || (Enabled(st, steps[0]) && ValidRun(Apply(st, steps[0]), steps[1..]))
  }

  function Run(st: State, steps: seq<Step>): State
    requires ValidRun(st, steps)
    decreases |steps|
  {
    if steps == [] then st else Run(Apply(st, steps[0]), steps[1..])
  }

  ghost predicate Inv(st: State) {
    && st.taken + st.queue == st.accepted
    && |st.queue| <= MAX_RECVLEN
    && Merge(st.accepted, st.dropped, st.offered)
  }

  lemma StepKeepsInv(st: State, step: Step)
    requires Inv(st) && Enabled(st, step)
    ensures Inv(Apply(st, step))
  {
    match step {
      case Post(n) =>
        MergeOne(st.accepted, st.dropped, st.offered, n);
        assert st.taken + (st.queue + [n]) == st.taken + st.queue + [n];
      case Drop(n) => MergeOne(st.accepted, st.dropped, st.offered, n);
      case Take => assert st.taken + [st.queue[0]] + st.queue[1..] == st.taken + st.queue;
      case Stop =>
      case Drain => assert st.taken + st.queue + [] == st.taken + st.queue;
    }
  }

  lemma {:induction false} InvOverRun(st: State, steps: seq<Step>)
    requires Inv(st) && ValidRun(st, steps)
    ensures Inv(Run(st, steps))
    decreases |steps|
  {
    if steps == [] {
    } else {
      StepKeepsInv(st, steps[0]);
      InvOverRun(Apply(st, steps[0]), steps[1..]);
    }
  }

  lemma {:induction false} OfSessionPlus(a: seq<Node>, b: seq<Node>, s: string)
    ensures OfSession(a + b, s) == OfSession(a, s) + OfSession(b, s)
  {
    if a == [] {
      assert a + b == b;
    } else {
      OfSessionPlus(a[1..], b, s);
      assert (a + b)[0] == a[0] && (a + b)[1..] == a[1..] + b;
      ConcatAssociates(if a[0].session == s then [a[0]] else [], OfSession(a[1..], s), OfSession(b, s));
    }
  }

  lemma OfSessionLast(ns: seq<Node>, s: string)
    requires ns != []
    ensures var n, front := ns[|ns| - 1], OfSession(ns[..|ns| - 1], s);
            OfSession(ns, s) == if n.session == s then front + [n] else front
  {
    var n := ns[|ns| - 1];
    assert ns == ns[..|ns| - 1] + [n];
    OfSessionPlus(ns[..|ns| - 1], [n], s);
    assert OfSession([n], s) == if n.session == s then [n] else [];
  }

  lemma {:induction false} MergeOfSession(a: seq<Node>, b: seq<Node>, c: seq<Node>, s: string)
    requires Merge(a, b, c)
    ensures Merge(OfSession(a, s), OfSession(b, s), OfSession(c, s))
  {
    if c == [] {
    } else {
      var n, rest := c[|c| - 1], c[..|c| - 1];
      OfSessionLast(c, s);
      if a != [] && a[|a| - 1] == n && Merge(a[..|a| - 1], b, rest) {
        OfSessionLast(a, s);
        MergeOfSession(a[..|a| - 1], b, rest, s);
        MergeOne(OfSession(a[..|a| - 1], s), OfSession(b, s), OfSession(rest, s), n);
      } else {
        OfSessionLast(b, s);
        MergeOfSession(a, b[..|b| - 1], rest, s);
        MergeOne(OfSession(a, s), OfSession(b[..|b| - 1], s), OfSession(rest, s), n);
      }
    }
  }

  /** Conservation, in every reachable state: what was taken followed by what waits is what was
      accepted, which with the dropped ones is what was offered; the queue is bounded, and after the stop
      nothing accepted before it is left out. */
  lemma Conservation(steps: seq<Step>)
    requires ValidRun(INIT, steps)
    ensures var st := Run(INIT, steps); st.taken + st.queue == st.accepted && |st.queue| <= MAX_RECVLEN
    ensures var st := Run(INIT, steps); Merge(st.accepted, st.dropped, st.offered)
    ensures var st := Run(INIT, steps); Enabled(st, Drain) ==> Apply(st, Drain).taken == st.accepted
  {
    InvOverRun(INIT, steps);
  }

  /** In every reachable state a message finds room if and only if fewer than 10000 accepted messages have not
      been taken, and there are never more. */
  lemma RoomIff(steps: seq<Step>, n: Node)
    requires ValidRun(INIT, steps)
    ensures var st := Run(INIT, steps);
            var untaken := |st.accepted| - |st.taken|;
            && untaken <= 10_000 && (Enabled(st, Post(n)) <==> untaken < 10_000)
            && (Enabled(st, Drop(n)) <==> untaken == 10_000)
  {
    InvOverRun(INIT, steps);
    var st := Run(INIT, steps);
    assert |st.taken + st.queue| == |st.taken| + |st.queue|;
  }

  /** Messages of one session are taken in the order it posted them: what is taken, followed by what
      waits, is what was accepted of the session, and together with what was dropped of it for want of
      room it is what the session offered, each in its order. */
  lemma SessionOrder(steps: seq<Step>, s: string)
    requires ValidRun(INIT, steps)
    ensures var st := Run(INIT, steps);
            && OfSession(st.taken, s) + OfSession(st.queue, s) == OfSession(st.accepted, s)
            && Merge(OfSession(st.accepted, s), OfSession(st.dropped, s), OfSession(st.offered, s))
  {
    InvOverRun(INIT, steps);
    var st := Run(INIT, steps);
    OfSessionPlus(st.taken, st.queue, s);
    MergeOfSession(st.accepted, st.dropped, st.offered, s);
  }

  // ------------------------------------------------------------------------------------------
  // The queue as it changes in place
  // ------------------------------------------------------------------------------------------

  /** What others do while a call waits: the logic thread takes a node if there is one, or another
      session offers one, which is queued if there is room. */
  datatype Other = Taking | Offer(n: Node)

  /** How one wait on the condition variable ended, and what went on meanwhile. */
  datatype Wait = Wait(timeout: bool, others: seq<Other>)

  function SizeBy(size: nat, other: Other): nat {
    if other.Taking? then (if size > 0 then size - 1 else 0) else if size < MAX_RECVLEN then size + 1 else size
  }

  function JoinedBy(size: nat, other: Other): seq<Node> {
    if other.Offer? && size < MAX_RECVLEN then [other.n] else []
  }

  function SizeAfter(size: nat, others: seq<Other>): nat
    decreases |others|
  {
    if others == [] then size else SizeAfter(SizeBy(size, others[0]), others[1..])
  }

  /** The nodes the others queue. */
  function Joined(size: nat, others: seq<Other>): seq<Node>
    decreases |others|
  {
    if others == [] then [] else JoinedBy(size, others[0]) + Joined(SizeBy(size, others[0]), others[1..])
  }

  lemma NextOther(size: nat, others: seq<Other>, i: nat)
    requires i < |others|
    ensures SizeAfter(size, others[i..]) == SizeAfter(SizeBy(size, others[i]), others[i + 1..])
    ensures Joined(size, others[i..]) == JoinedBy(size, others[i]) + Joined(SizeBy(size, others[i]), others[i + 1..])
  {
    assert others[i..][0] == others[i] && others[i..][1..] == others[i + 1..];
  }

  /** The size of the queue after the first `k` waits. */
  function SizeAt(size: nat, waits: seq<Wait>, k: nat): nat
    requires k <= |waits|
  {
    if k == 0 then size else SizeAfter(SizeAt(size, waits, k - 1), waits[k - 1].others)
  }

  /** What the others queue during the first `k` waits. */
  function JoinedAt(size: nat, waits: seq<Wait>, k: nat): seq<Node>
    requires k <= |waits|
  {
    if k == 0 then [] else JoinedAt(size, waits, k - 1) + Joined(SizeAt(size, waits, k - 1), waits[k - 1].others)
  }

  predicate RoomAt(size: nat, waits: seq<Wait>, k: nat)
    requires k <= |waits|
  {
    SizeAt(size, waits, k) < MAX_RECVLEN
  }

  datatype Outcome = Queued | Dropped | Waiting

  class LogicSystem {
    var queue: seq<Node>
    var called: seq<Node>       // the callbacks invoked
    ghost var taken: seq<Node>

    ghost predicate Valid()
      reads this
    {
      |queue| <= MAX_RECVLEN && called == Calls(taken)
    }

    constructor ()
      ensures Valid() && queue == [] && taken == []
    {
      queue, called, taken := [], [], [];
    }

    /** `PostMsgToQue`; `waits` are the waits the call goes through as long as it finds the queue full, and
        `turns` counts those it went through. It ends in `Waiting` if they are used up first. */
    method PostMsgToQue(n: Node, waits: seq<Wait>) returns (outcome: Outcome, ghost turns: nat)
      requires Valid()
      modifies this
      ensures Valid() && turns <= |waits| && (turns > 0 ==> NoTimeout(waits, turns - 1))
      ensures forall k :: 0 <= k < turns ==> !RoomAt(|old(queue)|, waits, k)
      ensures taken + queue == old(taken + queue) + JoinedAt(|old(queue)|, waits, turns) +
                               (if outcome == Queued then [n] else [])
      ensures |queue| == SizeAt(|old(queue)|, waits, turns) + (if outcome == Queued then 1 else 0)
      ensures outcome == Queued <==> RoomAt(|old(queue)|, waits, turns)
      ensures |old(queue)| < 10_000 ==> outcome == Queued && turns == 0
      ensures outcome != Queued ==> |queue| == 10_000
      ensures outcome == Queued <==> FindsRoom(|old(queue)|, waits)
      ensures outcome == Dropped ==> turns > 0 && waits[turns - 1].timeout
      ensures outcome == Waiting ==> turns == |waits| && NoTimeout(waits, |waits|)
    {
      var i := 0;
      ghost var size := |queue|;
      turns := 0;
      while |queue| >= MAX_RECVLEN
        invariant Valid() && turns == i && (i > 0 ==> size >= 10_000)
        invariant Waited(size, waits, i) && |queue| == SizeAt(size, waits, i)
        invariant taken + queue == old(taken + queue) + JoinedAt(size, waits, i)
        decreases |waits| - i
      {
        if i == |waits| {
          WaitedAll(size, waits);
          return Waiting, i;
        }
        var wait := waits[i];
        i := i + 1;
        turns := i;
        WaitOnce(size, waits, i);
        ConcatAssociates(old(taken + queue), JoinedAt(size, waits, i - 1), Joined(|queue|, wait.others));
        Meanwhile(wait.others);
        if wait.timeout {
          if |queue| >= MAX_RECVLEN {
            return Dropped, i;
          }
        }
      }
      ConcatAssociates(taken, queue, [n]);
      queue := queue + [n];
      return Queued, i;
    }

    /** What others do to the queue. */
    method Meanwhile(others: seq<Other>)
      requires Valid()
      modifies this
      ensures Valid() && |queue| == SizeAfter(|old(queue)|, others)
      ensures taken + queue == old(taken + queue) + Joined(|old(queue)|, others)
    {
      var i := 0;
      while i < |others|
        invariant Valid() && 0 <= i <= |others|
        invariant SizeAfter(|queue|, others[i..]) == SizeAfter(|old(queue)|, others)
        invariant taken + queue + Joined(|queue|, others[i..]) == old(taken + queue) + Joined(|old(queue)|, others)
      {
        NextOther(|queue|, others, i);
        ConcatAssociates(taken + queue, JoinedBy(|queue|, others[i]),
                         Joined(SizeBy(|queue|, others[i]), others[i + 1..]));
        Other(others[i]);
        i := i + 1;
      }
    }

    method Other(other: Other)
      requires Valid()
      modifies this
      ensures Valid() && |queue| == SizeBy(|old(queue)|, other)
      ensures taken + queue == old(taken + queue) + JoinedBy(|old(queue)|, other)
    {
      match other {
        case Taking =>
          if queue != [] {
            DealOne();
          }
        case Offer(n) =>
          if |queue| < MAX_RECVLEN {
            ConcatAssociates(taken, queue, [n]);
            queue := queue + [n];
          }
      }
    }

    /** One pass of `DealMsg`: the front node is removed and its callback, if any, is called. */
    method DealOne()
      requires Valid() && queue != []
      modifies this
      ensures Valid() && queue == old(queue)[1..] && taken == old(taken) + [old(queue)[0]]
    {
      var node := queue[0];
      queue := queue[1..];
      CallsPlus(taken, node);
      taken := taken + [node];
      if node.msg.id in REGISTERED {
        called := called + [node];
      }
    }

    /** The stop branch of `DealMsg`. */
    method DealAll()
      requires Valid()
      modifies this
      ensures Valid() && queue == [] && taken == old(taken) + old(queue)
      ensures called == Calls(old(taken) + old(queue))
    {
      while queue != []
        invariant Valid() && taken + queue == old(taken + queue)
        decreases |queue|
      {
        DealOne();
      }
      assert taken + [] == taken;
    }
  }

  predicate NoTimeout(waits: seq<Wait>, k: nat)
    requires k <= |waits|
  {
    forall j :: 0 <= j < k ==> !waits[j].timeout
  }

  /** There is room before the call begins to wait, or after some wait up to the first timeout. */
  predicate FindsRoom(size: nat, waits: seq<Wait>) {
    exists k :: 0 <= k <= |waits| && (k > 0 ==> NoTimeout(waits, k - 1)) && RoomAt(size, waits, k)
  }

  /** The first `k` waits began without room; only the last may have timed out, and then there is room. */
  predicate Waited(size: nat, waits: seq<Wait>, k: nat) {
    && k <= |waits| && (k > 0 ==> NoTimeout(waits, k - 1))
    && (forall j :: 0 <= j < k ==> !RoomAt(size, waits, j))
    && (!RoomAt(size, waits, k) ==> NoTimeout(waits, k))
  }

  lemma WaitOnce(size: nat, waits: seq<Wait>, k: nat)
    requires 0 < k <= |waits| && Waited(size, waits, k - 1) && !RoomAt(size, waits, k - 1)
    ensures NoTimeout(waits, k - 1) && forall j :: 0 <= j < k ==> !RoomAt(size, waits, j)
    ensures RoomAt(size, waits, k) ==> FindsRoom(size, waits)
    ensures waits[k - 1].timeout && !RoomAt(size, waits, k) ==> !FindsRoom(size, waits)
    ensures RoomAt(size, waits, k) || !waits[k - 1].timeout ==> Waited(size, waits, k)
  {
  }

  lemma WaitedAll(size: nat, waits: seq<Wait>)
    requires Waited(size, waits, |waits|) && !RoomAt(size, waits, |waits|)
    ensures !FindsRoom(size, waits) && NoTimeout(waits, |waits|)
  {
  }

  lemma {:induction false} CallsPlus(ns: seq<Node>, n: Node)
    ensures Calls(ns + [n]) == Calls(ns) + (if n.msg.id in REGISTERED then [n] else [])
  {
    if ns == [] {
      assert ns + [n] == [n];
    } else {
      CallsPlus(ns[1..], n);
      assert (ns + [n])[0] == ns[0] && (ns + [n])[1..] == ns[1..] + [n];
      ConcatAssociates(if ns[0].msg.id in REGISTERED then [ns[0]] else [], Calls(ns[1..]),
                       if n.msg.id in REGISTERED then [n] else []);
    }
  }

  predicate HasCallback(n: Node) {
    n.msg.id in {1001, 1005, 1007, 1009, 1013, 1017, 1023}
  }

  ghost predicate All(ns: seq<Node>, called: bool) {
    forall n :: n in ns ==> (HasCallback(n) <==> called)
  }

  lemma AllPlus(ns: seq<Node>, n: Node, called: bool)
    requires All(ns, called) && (HasCallback(n) <==> called)
    ensures All(ns + [n], called)
  {
  }

  /** The calls made, and the nodes without one, account for what was taken. */
  ghost predicate Called(ns: seq<Node>, calls: seq<Node>, ignored: seq<Node>) {
    Merge(calls, ignored, ns) && All(calls, true) && All(ignored, false)
  }

  lemma CalledPlus(ns: seq<Node>, n: Node, calls: seq<Node>, ignored: seq<Node>)
    requires Called(ns, calls, ignored)
    ensures HasCallback(n) ==> Called(ns + [n], calls + [n], ignored)
    ensures !HasCallback(n) ==> Called(ns + [n], calls, ignored + [n])
  {
    MergeOne(calls, ignored, ns, n);
    if HasCallback(n) {
      AllPlus(calls, n, true);
    } else {
      AllPlus(ignored, n, false);
    }
  }

  lemma CallsLast(ns: seq<Node>)
    requires ns != []
    ensures var front, n := ns[..|ns| - 1], ns[|ns| - 1];
            ns == front + [n] && Calls(ns) == if HasCallback(n) then Calls(front) + [n] else Calls(front)
  {
    var front, n := ns[..|ns| - 1], ns[|ns| - 1];
    assert ns == front + [n];
    CallsPlus(front, n);
    assert Calls(front) + [] == Calls(front);
  }

  /** Every node with a callback is called once, in the order they were taken, and no other. */
  lemma {:induction false} CallsExactly(ns: seq<Node>) returns (ignored: seq<Node>)
    ensures Called(ns, Calls(ns), ignored)
    decreases |ns|
  {
    if ns == [] {
      ignored := [];
    } else {
      var front, n := ns[..|ns| - 1], ns[|ns| - 1];
      var rest := CallsExactly(front);
      CallsLast(ns);
      CalledPlus(front, n, Calls(front), rest);
      ignored := if HasCallback(n) then rest else rest + [n];
    }
  }

  predicate IsOffer(o: Other) {
    o.Offer?
  }

  /** While there is room for all of them, everything the others offer is queued. */
  lemma {:induction false} AllJoin(size: nat, others: seq<Other>)
    requires size + |others| <= 10_000 && forall o :: o in others ==> IsOffer(o)
    ensures |Joined(size, others)| == |others| && SizeAfter(size, others) == size + |others|
    ensures forall i :: 0 <= i < |others| ==> others[i] == Offer(Joined(size, others)[i])
    decreases |others|
  {
    if others == [] {
    } else {
      assert IsOffer(others[0]) && forall o :: o in others[1..] ==> o in others;
      AllJoin(size + 1, others[1..]);
    }
  }
}
