/** The pool of Redis connections with its health check. A connection is known by a number that is
    never used again. */
module RedisPool {
  import opened Wrappers

  type Con = nat

  /** Where the checking thread stands. */
  datatype Checker =
    | Sleeping
    | Checking(left: nat, con: Option<Con>)
    | Reconnecting

  /** `idle` is `_redis_cons`; `borrowed` the handles callers hold; `deleted` those closed for good;
      `next` the first number not used yet. */
  datatype State = State(
    size: nat, idle: seq<Con>, borrowed: set<Con>, checker: Checker, failed: nat, deleted: set<Con>, next: Con)

  datatype Step =
    | Borrow                  // GetRedisCon, when a connection is there
    | Return(c: Con)          // the deleter of the borrowed handle
    | CheckBegin
    | CheckTake
    | CheckDone(healthy: bool)
    | CheckEnd
    | Reconnect(success: bool)
    | ReconnectEnd

  predicate Enabled(st: State, step: Step) {
    match step
    case Borrow => st.idle != []
    case Return(c) => c in st.borrowed
    case CheckBegin => st.checker.Sleeping?
    case CheckTake => st.checker.Checking? && st.checker.con.None? && st.checker.left > 0 && st.idle != []
    case CheckDone(healthy) => st.checker.Checking? && st.checker.con.Some?
    case CheckEnd => st.checker.Checking? && st.checker.con.None? && (st.checker.left == 0 || st.idle == [])
    case Reconnect(success) => st.checker.Reconnecting? && st.failed > 0
    case ReconnectEnd => st.checker.Reconnecting? && st.failed == 0
  }

  function Apply(st: State, step: Step): State
    requires Enabled(st, step)
  {
    match step
    case Borrow => st.(idle := st.idle[1..], borrowed := st.borrowed + {st.idle[0]})
    case Return(c) => st.(idle := st.idle + [c], borrowed := st.borrowed - {c})
    case CheckBegin => st.(checker := Checking(|st.idle|, None))
    case CheckTake => st.(idle := st.idle[1..], checker := Checking(st.checker.left - 1, Some(st.idle[0])))
    case CheckDone(healthy) =>
      var c := st.checker.con.value;
      if healthy then st.(idle := st.idle + [c], checker := st.checker.(con := None))
      else st.(failed := st.failed + 1, deleted := st.deleted + {c}, checker := st.checker.(con := None))
    case CheckEnd => st.(checker := Reconnecting)
    case Reconnect(success) =>
      if success then st.(idle := st.idle + [st.next], next := st.next + 1, failed := st.failed - 1)
      else st.(checker := Sleeping)
    case ReconnectEnd => st.(checker := Sleeping)
  }

  predicate ValidRun(st: State, steps: seq<Step>)
    decreases |steps|
  {
    steps == [] || (Enabled(st, steps[0]) && ValidRun(Apply(st, steps[0]), steps[1..]))
  }

  function Run(st: State, steps: seq<Step>): State
    requires ValidRun(st, steps)
    decreases |steps|
  {
    if steps == [] then st else Run(Apply(st, steps[0]), steps[1..])
  }

  function Inspected(st: State): set<Con> {
    if st.checker.Checking? && st.checker.con.Some? then {st.checker.con.value} else {}
  }

  ghost predicate Distinct(s: seq<Con>) {
    forall i, j :: 0 <= i < j < |s| ==> s[i] != s[j]
  }

  ghost predicate Inv(st: State) {
    && |st.idle| + |st.borrowed| + |Inspected(st)| + st.failed == st.size
    && Distinct(st.idle)
    && (forall c :: c in st.idle ==> c !in st.borrowed && c !in Inspected(st) && c !in st.deleted && c < st.next)
    && (forall c :: c in st.borrowed ==> c !in Inspected(st) && c !in st.deleted && c < st.next)
    && (forall c :: c in Inspected(st) ==> c !in st.deleted && c < st.next)
    && (forall c :: c in st.deleted ==> c < st.next)
  }

  lemma DistinctPush(s: seq<Con>, c: Con)
    requires Distinct(s) && c !in s
    ensures Distinct(s + [c])
  {
  }

  lemma TakeFront(st: State)
    requires Inv(st) && st.idle != []
    ensures st.idle[0] !in st.idle[1..] && Distinct(st.idle[1..])
    ensures st.idle[0] !in st.borrowed && st.idle[0] !in Inspected(st)
    ensures st.idle[0] !in st.deleted && st.idle[0] < st.next
    ensures forall c :: c in st.idle[1..] ==> c in st.idle
    ensures forall c :: c in st.idle ==> c == st.idle[0] || c in st.idle[1..]
  {
  }

  lemma BorrowKeepsInv(st: State)
    requires Inv(st) && Enabled(st, Borrow)
    ensures Inv(Apply(st, Borrow))
  {
    TakeFront(st);
  }

  lemma ReturnKeepsInv(st: State, c: Con)
    requires Inv(st) && Enabled(st, Return(c))
    ensures Inv(Apply(st, Return(c)))
  {
  }

  lemma CheckTakeKeepsInv(st: State)
    requires Inv(st) && Enabled(st, CheckTake)
    ensures Inv(Apply(st, CheckTake))
  {
  }

  lemma CheckDoneKeepsInv(st: State, healthy: bool)
    requires Inv(st) && Enabled(st, CheckDone(healthy))
    ensures Inv(Apply(st, CheckDone(healthy)))
  {
  }

  lemma ReconnectKeepsInv(st: State, success: bool)
    requires Inv(st) && Enabled(st, Reconnect(success))
    ensures Inv(Apply(st, Reconnect(success)))
  {
    if success {
      assert st.next !in st.idle;
      DistinctPush(st.idle, st.next);
    }
  }

  lemma StepKeepsInv(st: State, step: Step)
    requires Inv(st) && Enabled(st, step)
    ensures Inv(Apply(st, step)) && Apply(st, step).size == st.size
  {
    match step {
      case Borrow => BorrowKeepsInv(st);
      case Return(c) => ReturnKeepsInv(st, c);
      case CheckBegin =>
      case CheckTake => CheckTakeKeepsInv(st);
      case CheckDone(healthy) => CheckDoneKeepsInv(st, healthy);
      case CheckEnd =>
      case Reconnect(success) => ReconnectKeepsInv(st, success);
      case ReconnectEnd =>
    }
  }

  lemma {:induction false} InvOverRun(st: State, steps: seq<Step>)
    requires Inv(st) && ValidRun(st, steps)
    ensures Inv(Run(st, steps)) && Run(st, steps).size == st.size
    decreases |steps|
  {
    if steps == [] {
    } else {
      StepKeepsInv(st, steps[0]);
      InvOverRun(Apply(st, steps[0]), steps[1..]);
    }
  }

  /** A pool after its constructor: `up` connections succeeded out of `size`. */
  function Started(size: nat, up: nat): State
    requires up <= size
  {
    State(size, seq(up, i => i), {}, Sleeping, size - up, {}, up)
  }

  /** Conservation, under any interleaving of borrowing, returning, checking and reconnecting: every
      slot of the pool is idle, borrowed, under inspection or counted as failed; no handle is in two
      places; and no deleted handle is ever handed out again. */
  lemma Conservation(size: nat, up: nat, steps: seq<Step>)
    requires up <= size && ValidRun(Started(size, up), steps)
    ensures var st := Run(Started(size, up), steps);
            && |st.idle| + |st.borrowed| + |Inspected(st)| + st.failed == size
            && Distinct(st.idle)
            && (forall c :: c in st.idle ==> c !in st.borrowed && c !in Inspected(st))
            && st.borrowed !! Inspected(st)
            && (forall c :: c in st.deleted ==> c !in st.idle && c !in st.borrowed && c !in Inspected(st))
  {
    InvOverRun(Started(size, up), steps);
  }

  lemma {:induction false} DeletedForGood(st: State, steps: seq<Step>, c: Con)
    requires Inv(st) && ValidRun(st, steps) && c in st.deleted
    ensures c in Run(st, steps).deleted
    decreases |steps|
  {
    if steps == [] {
    } else {
      StepKeepsInv(st, steps[0]);
      DeletedForGood(Apply(st, steps[0]), steps[1..], c);
    }
  }

  /** A connection that fails its ping is in no place of the pool after any further steps; one that answers
      is back in it at once. */
  lemma CheckedIff(st: State, healthy: bool, steps: seq<Step>)
    requires Inv(st) && Enabled(st, CheckDone(healthy)) && ValidRun(Apply(st, CheckDone(healthy)), steps)
    ensures var c := st.checker.con.value;
            var st' := Run(Apply(st, CheckDone(healthy)), steps);
            && (healthy <==> c in Apply(st, CheckDone(healthy)).idle)
            && (!healthy ==> c !in st'.idle && c !in st'.borrowed && c !in Inspected(st'))
  {
    var c, st1 := st.checker.con.value, Apply(st, CheckDone(healthy));
    StepKeepsInv(st, CheckDone(healthy));
    InvOverRun(st1, steps);
    if healthy {
      assert st1.idle[|st.idle|] == c;
    } else {
      DeletedForGood(st1, steps, c);
    }
  }

  /** The connections that answer their ping, and the others. */
  function Answering(cs: seq<Con>, healthy: Con -> bool): seq<Con> {
    if cs == [] then [] else (if healthy(cs[0]) then [cs[0]] else []) + Answering(cs[1..], healthy)
  }

  /** What the rest of a check makes of the pool when nobody borrows or returns: `left` connections are still
      to be looked at, those in front. */
  ghost predicate Looked(st: State, st': State, left: nat, healthy: Con -> bool)
    requires left <= |st.idle|
  {
    && st'.idle == st.idle[left..] + Answering(st.idle[..left], healthy)
    && (forall c :: c in st'.deleted <==> c in st.deleted || (c in st.idle[..left] && !healthy(c)))
    && st'.borrowed == st.borrowed && st'.next == st.next && st'.checker == Reconnecting
  }

  lemma {:induction false} RestOfCheck(st: State, left: nat, healthy: Con -> bool) returns (steps: seq<Step>)
    requires st.checker == Checking(left, None) && left <= |st.idle|
    ensures ValidRun(st, steps) && Looked(st, Run(st, steps), left, healthy)
    decreases left
  {
    if left == 0 {
      steps := [CheckEnd];
      assert steps[1..] == [] && st.idle[0..] + [] == st.idle;
    } else {
      var c := st.idle[0];
      var s1 := Apply(st, CheckTake);
      var s2 := Apply(s1, CheckDone(healthy(c)));
      var rest := RestOfCheck(s2, left - 1, healthy);
      steps := [CheckTake, CheckDone(healthy(c))] + rest;
      assert steps[1..] == [CheckDone(healthy(c))] + rest && steps[1..][1..] == rest;
      LookedOne(st, s2, Run(s2, rest), left, healthy);
    }
  }

  lemma LookedOne(st: State, s2: State, st': State, left: nat, healthy: Con -> bool)
    requires 0 < left <= |st.idle| && s2.borrowed == st.borrowed && s2.next == st.next
    requires s2.idle == st.idle[1..] + (if healthy(st.idle[0]) then [st.idle[0]] else [])
    requires forall c :: c in s2.deleted <==> c in st.deleted || (c == st.idle[0] && !healthy(c))
    requires Looked(s2, st', left - 1, healthy)
    ensures Looked(st, st', left, healthy)
  {
    var front := st.idle[..left];
    assert front[0] == st.idle[0] && front[1..] == st.idle[1..][..left - 1] == s2.idle[..left - 1];
    assert s2.idle[left - 1..] == st.idle[left..] + (if healthy(st.idle[0]) then [st.idle[0]] else []);
    assert forall c :: c in front <==> c == front[0] || c in front[1..];
  }

  /** A check that nobody interferes with looks at every idle connection once: exactly those that answer are
      left, in their order, and the others are deleted. */
  lemma CheckLooksAtAll(st: State, healthy: Con -> bool) returns (steps: seq<Step>)
    requires st.checker.Sleeping?
    ensures ValidRun(st, steps) && Run(st, steps).idle == Answering(st.idle, healthy)
    ensures forall c :: c in Run(st, steps).deleted <==> c in st.deleted || (c in st.idle && !healthy(c))
  {
    var rest := RestOfCheck(Apply(st, CheckBegin), |st.idle|, healthy);
    steps := [CheckBegin] + rest;
    assert steps[1..] == rest && st.idle[..|st.idle|] == st.idle && st.idle[|st.idle|..] == [];
  }

  /** Taking a connection and judging it, in one go. */
  lemma PingKeepsInv(st: State, healthy: bool)
    requires Inv(st) && st.checker.Sleeping? && st.idle != []
    ensures Inv(if healthy then st.(idle := st.idle[1..] + [st.idle[0]])
                else st.(idle := st.idle[1..], failed := st.failed + 1, deleted := st.deleted + {st.idle[0]}))
  {
    TakeFront(st);
    if healthy {
      DistinctPush(st.idle[1..], st.idle[0]);
      assert |st.idle[1..] + [st.idle[0]]| == |st.idle|;
    } else {
      assert |st.idle[1..]| == |st.idle| - 1;
    }
  }

  // ------------------------------------------------------------------------------------------
  // The pool as it changes in place
  // ------------------------------------------------------------------------------------------

  class RedisConPool {
    const size: nat
    var redisCons: seq<Con>
    var failedCount: int
    var next: Con
    ghost var borrowed: set<Con>
    ghost var deleted: set<Con>

    ghost function View(): State
      requires failedCount >= 0
      reads this
    {
      State(size, redisCons, borrowed, Sleeping, failedCount, deleted, next)
    }

    ghost predicate Valid()
      reads this
    {
      failedCount >= 0 && Inv(View())
    }

    /** `connects[i]` tells whether the i-th connection attempt succeeds. */
    constructor (size: nat, connects: seq<bool>)
      requires |connects| == size
      ensures Valid() && this.size == size && borrowed == {} && deleted == {}
      ensures failedCount == multiset(connects)[false] && |redisCons| == multiset(connects)[true]
    {
      this.size := size;
      redisCons, failedCount, next, borrowed, deleted := [], 0, 0, {}, {};
      new;
      assert connects[..0] == [];
      for i := 0 to size
        invariant failedCount == multiset(connects[..i])[false] && |redisCons| == multiset(connects[..i])[true]
        invariant |redisCons| + failedCount == i
        invariant Distinct(redisCons) && (forall c :: c in redisCons ==> c < next)
        invariant borrowed == {} && deleted == {}
      {
        assert connects[..i + 1] == connects[..i] + [connects[i]];
        if connects[i] {
          DistinctPush(redisCons, next);
          redisCons := redisCons + [next];
          next := next + 1;
        } else {
          failedCount := failedCount + 1;
        }
      }
      assert connects[..size] == connects;
    }

    /** None where the caller would have to wait. */
    method GetRedisCon() returns (con: Option<Con>)
      requires Valid()
      modifies this`redisCons, this`borrowed
      ensures Valid() && (con.None? <==> old(redisCons) == [])
      ensures con.None? ==> View() == old(View())
      ensures con.Some? ==> con.value == old(redisCons)[0] && redisCons == old(redisCons)[1..]
      ensures con.Some? ==> View() == Apply(old(View()), Borrow) && con.value in borrowed && con.value !in deleted
    {
      if redisCons == [] {
        return None;
      }
      StepKeepsInv(View(), Borrow);
      con := Some(redisCons[0]);
      borrowed := borrowed + {redisCons[0]};
      redisCons := redisCons[1..];
    }

    method ReturnCon(con: Con)
      requires Valid() && con in borrowed
      modifies this`redisCons, this`borrowed
      ensures Valid() && View() == Apply(old(View()), Return(con)) && redisCons == old(redisCons) + [con]
    {
      StepKeepsInv(View(), Return(con));
      borrowed := borrowed - {con};
      redisCons := redisCons + [con];
    }

    /** `CheckConnectionTask` on a pool nobody touches meanwhile: `healthy` answers the pings,
        `connects` the attempts to reconnect (further attempts fail). */
    method CheckConnectionTask(healthy: Con -> bool, connects: seq<bool>)
      requires Valid()
      modifies this
      ensures Valid() && borrowed == old(borrowed)
      ensures forall c :: c in redisCons ==> (c in old(redisCons) && healthy(c)) || c >= old(next)
      ensures forall c :: c in old(redisCons) ==> if healthy(c) then c in redisCons else c in deleted
      ensures old(next) <= next <= old(next) + Leading(connects)
      ensures failedCount > 0 ==> next == old(next) + Leading(connects)
    {
      Ping(healthy);
      Reconnect(connects);
    }

    /** The second loop. */
    method Reconnect(connects: seq<bool>)
      requires Valid()
      modifies this`redisCons, this`failedCount, this`next
      ensures Valid() && old(redisCons) <= redisCons
      ensures forall c :: c in redisCons ==> c in old(redisCons) || c >= old(next)
      ensures old(next) <= next <= old(next) + Leading(connects) && next - old(next) == old(failedCount) - failedCount
      ensures failedCount > 0 ==> next == old(next) + Leading(connects)
    {
      var i := 0;
      while failedCount > 0 && i < |connects| && connects[i]
        invariant Valid() && 0 <= i <= |connects| && failedCount + i == old(failedCount) && old(redisCons) <= redisCons
        invariant forall c :: c in redisCons ==> c in old(redisCons) || c >= old(next)
        invariant next == old(next) + i && i <= Leading(connects)
        decreases failedCount
      {
        ReconnectKeepsInv(View().(checker := Reconnecting), true);
        redisCons := redisCons + [next];
        next := next + 1;
        failedCount := failedCount - 1;
        i := i + 1;
      }
    }

    /** The first loop: each connection there at the start is taken once and put back or deleted. */
    method Ping(healthy: Con -> bool)
      requires Valid()
      modifies this`redisCons, this`failedCount, this`deleted
      ensures Valid()
      ensures forall c :: c in redisCons <==> c in old(redisCons) && healthy(c)
      ensures forall c :: c in old(redisCons) && !healthy(c) ==> c in deleted
      ensures old(deleted) <= deleted
    {
      var curCount: nat := |redisCons|;
      ghost var todo := redisCons;
      ghost var kept: seq<Con> := [];
      while curCount > 0
        invariant Valid() && curCount == |todo| && redisCons == todo + kept && old(deleted) <= deleted
        invariant forall c :: c in todo || c in kept ==> c in old(redisCons)
        invariant forall c :: c in old(redisCons) ==> c in todo || (if healthy(c) then c in kept else c in deleted)
        invariant forall c :: c in kept ==> healthy(c)
        decreases curCount
      {
        curCount := curCount - 1;
        var con := redisCons[0];
        assert con == todo[0] && redisCons[1..] == todo[1..] + kept;
        PingKeepsInv(View(), healthy(con));
        redisCons := redisCons[1..];
        todo := todo[1..];
        if healthy(con) {
          redisCons := redisCons + [con];
          kept := kept + [con];
        } else {
          failedCount := failedCount + 1;
          deleted := deleted + {con};
        }
      }
    }
  }

  /** How many attempts succeed before the first that fails. */
  function Leading(connects: seq<bool>): (n: nat)
    ensures n <= |connects| && (forall i :: 0 <= i < n ==> connects[i]) && (n < |connects| ==> !connects[n])
  {
    if connects == [] || !connects[0] then 0 else 1 + Leading(connects[1..])
  }
}
