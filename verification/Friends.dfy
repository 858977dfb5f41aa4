/** The friend tables and the transaction that makes two users friends. */
module Friends {
  import opened Wrappers

  /** Rows of `friend`, and of `friend_apply` without their key. */
  datatype Friend = Friend(self: int, to: int, back: string)
  datatype Apply = Apply(from: int, to: int, status: int)

  /** A transaction whose COMMIT failed and which is still open on its connection: its statements, the
      applications there were when it updated them, and those written on its connection since. */
  datatype Pending = Pending(from: int, to: int, back: string, seen: set<nat>, added: map<nat, Apply>)

  /** The tables as other connections see them, the applications by their `id`; the transactions left open;
      the ids and transaction numbers given out. */
  datatype Tables = Tables(
    friends: seq<Friend>,
    applies: map<nat, Apply>,
    open: map<nat, Pending>,
    ids: set<nat>,
    txs: set<nat>)

  /** Which call to MySQL fails. The source does not roll back after a failed COMMIT: the server has
      done so (`left` is false), or the transaction stays open on the connection. */
  datatype Failure = NoFailure | AtBegin | AtUpdate | AtInsert | AtInsertBack | AtCommit(left: bool)

  /** `AddApply` runs on the connection of the transaction `on`, if that was left open. `Settle`: a
      transaction left open is committed by the next one on its connection, or lost with it. */
  datatype Step =
    | AddApply(id: nat, from: int, to: int, failed: bool, on: nat)
    | AuthAdd(tx: nat, from: int, to: int, back: string, failure: Failure)
    | Settle(tx: nat, commit: bool)

  const INIT := Tables([], map[], map[], {}, {})

  predicate Enabled(t: Tables, step: Step) {
    match step
    case AddApply(id, _, _, _, _) => id !in t.ids
    case AuthAdd(tx, _, _, _, _) => tx !in t.txs
    case Settle(_, _) => true
  }

  /** `update friend_apply set apply_status = 1 where from_uid = ? and to_uid = ?` on the rows `seen`. */
  function Accept(applies: map<nat, Apply>, from: int, to: int, seen: set<nat>): map<nat, Apply> {
    map id | id in applies ::
      if id in seen && applies[id].from == from && applies[id].to == to then applies[id].(status := 1) else applies[id]
  }

  /** The three statements; the application went the other way round. */
  function Befriend(t: Tables, p: Pending): Tables {
    t.(friends := t.friends + [Friend(p.from, p.to, p.back)] + [Friend(p.to, p.from, " ")],
       applies := Accept(t.applies, p.to, p.from, p.seen) + p.added)
  }

  function Adding(p: Pending, id: nat, from: int, to: int): Pending {
    p.(added := p.added[id := Apply(from, to, 0)])
  }

  function Next(t: Tables, step: Step): Tables {
    match step
    case AddApply(id, from, to, failed, on) =>
      var t' := t.(ids := t.ids + {id});
      if failed then t'
      else if on in t.open then t'.(open := t.open[on := Adding(t.open[on], id, from, to)])
      else t'.(applies := t.applies[id := Apply(from, to, 0)])
    case AuthAdd(tx, from, to, back, failure) =>
      var t' := t.(txs := t.txs + {tx});
      var p := Pending(from, to, back, t.applies.Keys, map[]);
      if failure.NoFailure? then Befriend(t', p)
      else if failure.AtCommit? && failure.left then t'.(open := t.open[tx := p])
      else t'
    case Settle(tx, commit) =>
      if tx !in t.open then t
      else
        var rest := t.(open := t.open - {tx});
        if commit then Befriend(rest, t.open[tx]) else rest
  }

  function Front(steps: seq<Step>): (front: seq<Step>)
    requires steps != []
    ensures |front| == |steps| - 1
  {
    steps[..|steps| - 1]
  }

  function Last(steps: seq<Step>): Step
    requires steps != []
  {
    steps[|steps| - 1]
  }

  predicate ValidRun(steps: seq<Step>)
    decreases |steps|, 0
  {
    steps == [] || (ValidRun(Front(steps)) && Enabled(Run(Front(steps)), Last(steps)))
  }

  function Run(steps: seq<Step>): Tables
    requires ValidRun(steps)
    decreases |steps|, 1
  {
    if steps == [] then INIT else Next(Run(Front(steps)), Last(steps))
  }

  // ------------------------------------------------------------------------------------------
  // What the steps say by themselves
  // ------------------------------------------------------------------------------------------

  datatype Fate = NotStarted | Open | Through | Lost

  /** What has become of a transaction. */
  function FateOf(steps: seq<Step>, tx: nat): Fate
    decreases |steps|
  {
    if steps == [] then NotStarted
    else
      var last, before := Last(steps), FateOf(Front(steps), tx);
      if last.AuthAdd? && last.tx == tx then
        if last.failure.NoFailure? then Through
        else if last.failure.AtCommit? && last.failure.left then Open
        else Lost
      else if last.Settle? && last.tx == tx && before.Open? then (if last.commit then Through else Lost)
      else before
  }

  /** Who started it: `from` accepts an application of `to`. */
  function StartOf(steps: seq<Step>, tx: nat): Option<Step>
    decreases |steps|
  {
    if steps == [] then None
    else if Last(steps).AuthAdd? && Last(steps).tx == tx then Some(Last(steps))
    else StartOf(Front(steps), tx)
  }

  /** Who applied to whom, and on the connection of which transaction left open. */
  datatype Origin = Origin(from: int, to: int, within: Option<nat>)

  function OriginOf(steps: seq<Step>, id: nat): Option<Origin>
    decreases |steps|
  {
    if steps == [] then None
    else
      var last := Last(steps);
      if last.AddApply? && last.id == id && !last.failed
      then Some(Origin(last.from, last.to, if FateOf(Front(steps), last.on).Open? then Some(last.on) else None))
      else OriginOf(Front(steps), id)
  }

  /** The application has been written, and the transaction it was written in, if any, went through. */
  predicate Shown(steps: seq<Step>, id: nat) {
    var o := OriginOf(steps, id);
    o.Some? && (o.value.within.Some? ==> FateOf(steps, o.value.within.value).Through?)
  }

  /** It was there when the transaction was started. */
  predicate Saw(steps: seq<Step>, tx: nat, id: nat)
    decreases |steps|
  {
    steps != [] &&
    if Last(steps).AuthAdd? && Last(steps).tx == tx then Shown(Front(steps), id) else Saw(Front(steps), tx, id)
  }

  /** The transaction went through, saw the application, and was started by its receiver for its sender. */
  predicate Accepts(steps: seq<Step>, tx: nat, id: nat) {
    var o, s := OriginOf(steps, id), StartOf(steps, tx);
    && FateOf(steps, tx).Through? && Saw(steps, tx, id)
    && o.Some? && s.Some? && s.value.AuthAdd? && s.value.from == o.value.to && s.value.to == o.value.from
  }

  ghost predicate Accepted(steps: seq<Step>, id: nat) {
    exists tx :: Accepts(steps, tx, id)
  }

  // ------------------------------------------------------------------------------------------
  // The tables are what the steps say
  // ------------------------------------------------------------------------------------------

  ghost predicate TxOk(steps: seq<Step>, t: Tables, tx: nat) {
    && (tx in t.open <==> FateOf(steps, tx).Open?)
    && (tx in t.txs <==> !FateOf(steps, tx).NotStarted?) && (tx in t.txs <==> StartOf(steps, tx).Some?)
    && (tx in t.open ==>
          var p := t.open[tx]; StartOf(steps, tx) == Some(AuthAdd(tx, p.from, p.to, p.back, AtCommit(true))))
  }

  ghost predicate SeenOk(steps: seq<Step>, t: Tables, tx: nat, id: nat) {
    tx in t.open ==>
      var p, o := t.open[tx], OriginOf(steps, id);
      && (id in p.seen <==> Saw(steps, tx, id))
      && (id in p.added <==> o.Some? && o.value.within == Some(tx))
      && (id in p.added ==> p.added[id] == Apply(o.value.from, o.value.to, 0))
  }

  ghost predicate RowOk(steps: seq<Step>, t: Tables, id: nat) {
    var o := OriginOf(steps, id);
    && (o.Some? ==> id in t.ids)
    && (id in t.applies <==> Shown(steps, id))
    && (id in t.applies ==>
          && t.applies[id].from == o.value.from && t.applies[id].to == o.value.to
          && t.applies[id].status == if Accepted(steps, id) then 1 else 0)
  }

  lemma TxStep(steps: seq<Step>, tx: nat)
    requires steps != [] && ValidRun(steps)
    requires TxOk(Front(steps), Run(Front(steps)), tx)
    requires Last(steps).AddApply? ==> TxOk(Front(steps), Run(Front(steps)), Last(steps).on)
    ensures TxOk(steps, Run(steps), tx)
  {
  }

  lemma {:induction false} TxsAre(steps: seq<Step>, tx: nat)
    requires ValidRun(steps)
    ensures TxOk(steps, Run(steps), tx)
    decreases |steps|
  {
    if steps == [] {
    } else {
      TxsAre(Front(steps), tx);
      if Last(steps).AddApply? {
        TxsAre(Front(steps), Last(steps).on);
      }
      TxStep(steps, tx);
    }
  }

  /** What has been written stays written, in the transaction it was written in. */
  ghost predicate OriginOk(steps: seq<Step>, t: Tables, id: nat) {
    var o := OriginOf(steps, id);
    o.Some? ==> id in t.ids && (o.value.within.Some? ==> !FateOf(steps, o.value.within.value).NotStarted?)
  }

  lemma {:induction false} OriginsAre(steps: seq<Step>, id: nat)
    requires ValidRun(steps)
    ensures OriginOk(steps, Run(steps), id)
    decreases |steps|
  {
    if steps == [] {
    } else {
      OriginsAre(Front(steps), id);
    }
  }

  lemma ShownStays(steps: seq<Step>, id: nat)
    requires steps != [] && ValidRun(steps) && Shown(Front(steps), id)
    ensures Shown(steps, id) && OriginOf(steps, id) == OriginOf(Front(steps), id)
  {
    OriginsAre(Front(steps), id);
    var o := OriginOf(Front(steps), id).value;
    if o.within.Some? {
      TxsAre(Front(steps), o.within.value);
    }
  }

  lemma {:induction false} SawIsShown(steps: seq<Step>, tx: nat, id: nat)
    requires ValidRun(steps) && Saw(steps, tx, id)
    ensures Shown(steps, id)
    decreases |steps|
  {
    var front := Front(steps);
    if !(Last(steps).AuthAdd? && Last(steps).tx == tx) {
      SawIsShown(front, tx, id);
    }
    ShownStays(steps, id);
  }

  /** The number of the transaction the step is about. */
  function TxOf(step: Step): Option<nat> {
    match step
    case AddApply(_, _, _, _, _) => None
    case AuthAdd(tx, _, _, _, _) => Some(tx)
    case Settle(tx, _) => Some(tx)
  }

  /** A step changes what a transaction accepts only if it is about that transaction, and never takes back. */
  lemma AcceptsStep(steps: seq<Step>, tx: nat, id: nat)
    requires steps != [] && ValidRun(steps)
    ensures Accepts(Front(steps), tx, id) ==> Accepts(steps, tx, id)
    ensures Accepts(steps, tx, id) ==> Accepts(Front(steps), tx, id) || TxOf(Last(steps)) == Some(tx)
  {
    TxsAre(Front(steps), tx);
    if Saw(Front(steps), tx, id) {
      SawIsShown(Front(steps), tx, id);
      ShownStays(steps, id);
    }
  }

  lemma AcceptedStep(steps: seq<Step>, id: nat)
    requires steps != [] && ValidRun(steps)
    ensures var tx := TxOf(Last(steps));
            Accepted(steps, id) <==> Accepted(Front(steps), id) || (tx.Some? && Accepts(steps, tx.value, id))
  {
    forall tx: nat
      ensures Accepts(Front(steps), tx, id) ==> Accepts(steps, tx, id)
      ensures Accepts(steps, tx, id) ==> Accepts(Front(steps), tx, id) || TxOf(Last(steps)) == Some(tx)
    {
      AcceptsStep(steps, tx, id);
    }
  }

  /** A row that is not there has been accepted by nobody. */
  lemma AcceptedIsShown(steps: seq<Step>, id: nat)
    requires ValidRun(steps) && Accepted(steps, id)
    ensures Shown(steps, id)
  {
    var tx: nat :| Accepts(steps, tx, id);
    SawIsShown(steps, tx, id);
  }

  // One step

  /** Before the step, all is as the steps say. */
  ghost predicate Ready(steps: seq<Step>, tx: nat, id: nat)
    requires steps != [] && ValidRun(steps)
  {
    var front, t := Front(steps), Run(Front(steps));
    TxOk(front, t, tx) && SeenOk(front, t, tx, id) && OriginOk(front, t, id) && RowOk(front, t, id)
  }

  lemma SeenAdded(steps: seq<Step>, tx: nat, id: nat)
    requires steps != [] && ValidRun(steps) && Ready(steps, tx, id) && Last(steps).AddApply?
    requires TxOk(Front(steps), Run(Front(steps)), Last(steps).on)
    ensures SeenOk(steps, Run(steps), tx, id)
  {
  }

  lemma SeenStarted(steps: seq<Step>, tx: nat, id: nat)
    requires steps != [] && ValidRun(steps) && Ready(steps, tx, id) && Last(steps).AuthAdd?
    ensures SeenOk(steps, Run(steps), tx, id)
  {
  }

  lemma SeenSettled(steps: seq<Step>, tx: nat, id: nat)
    requires steps != [] && ValidRun(steps) && Ready(steps, tx, id) && Last(steps).Settle?
    ensures SeenOk(steps, Run(steps), tx, id)
  {
  }

  lemma SeenStep(steps: seq<Step>, tx: nat, id: nat)
    requires steps != [] && ValidRun(steps)
    requires TxOk(Front(steps), Run(Front(steps)), tx) && SeenOk(Front(steps), Run(Front(steps)), tx, id)
    requires OriginOk(Front(steps), Run(Front(steps)), id) && RowOk(Front(steps), Run(Front(steps)), id)
    requires Last(steps).AddApply? ==> TxOk(Front(steps), Run(Front(steps)), Last(steps).on)
    ensures SeenOk(steps, Run(steps), tx, id)
  {
    match Last(steps) {
      case AddApply(_, _, _, _, _) => SeenAdded(steps, tx, id);
      case AuthAdd(_, _, _, _, _) => SeenStarted(steps, tx, id);
      case Settle(_, _) => SeenSettled(steps, tx, id);
    }
  }

  lemma RowAdded(steps: seq<Step>, id: nat)
    requires steps != [] && ValidRun(steps) && Last(steps).AddApply?
    requires OriginOk(Front(steps), Run(Front(steps)), id) && RowOk(Front(steps), Run(Front(steps)), id)
    requires TxOk(Front(steps), Run(Front(steps)), Last(steps).on)
    ensures RowOk(steps, Run(steps), id)
  {
    AcceptedStep(steps, id);
    if Accepted(Front(steps), id) {
      AcceptedIsShown(Front(steps), id);
    }
  }

  lemma RowUpdated(steps: seq<Step>, id: nat)
    requires steps != [] && ValidRun(steps) && Last(steps).AuthAdd?
    requires OriginOk(Front(steps), Run(Front(steps)), id) && RowOk(Front(steps), Run(Front(steps)), id)
    requires TxOk(Front(steps), Run(Front(steps)), Last(steps).tx)
    ensures RowOk(steps, Run(steps), id)
  {
    AcceptedStep(steps, id);
  }

  lemma RowSettled(steps: seq<Step>, id: nat)
    requires steps != [] && ValidRun(steps) && Last(steps).Settle?
    requires OriginOk(Front(steps), Run(Front(steps)), id) && RowOk(Front(steps), Run(Front(steps)), id)
    requires TxOk(Front(steps), Run(Front(steps)), Last(steps).tx)
    requires SeenOk(Front(steps), Run(Front(steps)), Last(steps).tx, id)
    ensures RowOk(steps, Run(steps), id)
  {
    AcceptedStep(steps, id);
    if Accepted(Front(steps), id) {
      AcceptedIsShown(Front(steps), id);
    }
    var tx := Last(steps).tx;
    if Saw(Front(steps), tx, id) {
      SawIsShown(Front(steps), tx, id);
      ShownStays(steps, id);
      assert !FateOf(Front(steps), tx).Open? && Accepts(steps, tx, id) ==> Accepts(Front(steps), tx, id);
    }
  }

  lemma {:induction false} SeenAndRows(steps: seq<Step>, tx: nat, id: nat)
    requires ValidRun(steps)
    ensures SeenOk(steps, Run(steps), tx, id) && RowOk(steps, Run(steps), id)
    decreases |steps|
  {
    if steps == [] {
    } else {
      var front, last := Front(steps), Last(steps);
      OriginsAre(front, id);
      TxsAre(front, tx);
      SeenAndRows(front, tx, id);
      match last {
        case AddApply(_, _, _, _, on) =>
          TxsAre(front, on);
          RowAdded(steps, id);
        case AuthAdd(tx', _, _, _, _) =>
          TxsAre(front, tx');
          RowUpdated(steps, id);
        case Settle(tx', _) =>
          TxsAre(front, tx');
          SeenAndRows(front, tx', id);
          RowSettled(steps, id);
      }
      SeenStep(steps, tx, id);
    }
  }

  /** Over all runs, whatever fails: an application is in the table if and only if it was written, and the
      transaction left open on whose connection it was written, if any, went through. It has the users it was
      written for, and is accepted if and only if a transaction that saw it, started by its receiver for its
      sender, went through. */
  lemma ApplicationIff(steps: seq<Step>, id: nat)
    requires ValidRun(steps)
    ensures var t := Run(steps);
            && (id in t.applies <==> Shown(steps, id))
            && (id in t.applies ==>
                  && t.applies[id].from == OriginOf(steps, id).value.from
                  && t.applies[id].to == OriginOf(steps, id).value.to
                  && t.applies[id].status in {0, 1}
                  && (t.applies[id].status == 1 <==> exists tx: nat :: Accepts(steps, tx, id)))
  {
    SeenAndRows(steps, 0, id);
  }

  // ------------------------------------------------------------------------------------------
  // Friends
  // ------------------------------------------------------------------------------------------

  /** The two rows of a transaction. */
  predicate RowOf(s: Step, f: Friend) {
    s.AuthAdd? && (f == Friend(s.from, s.to, s.back) || f == Friend(s.to, s.from, " "))
  }

  /** The transaction went through and wrote the row. */
  predicate Makes(steps: seq<Step>, tx: nat, f: Friend) {
    FateOf(steps, tx).Through? && StartOf(steps, tx).Some? && RowOf(StartOf(steps, tx).value, f)
  }

  lemma MakesStep(steps: seq<Step>, tx: nat, f: Friend)
    requires steps != [] && ValidRun(steps)
    ensures Makes(Front(steps), tx, f) ==> Makes(steps, tx, f)
    ensures Makes(steps, tx, f) ==> Makes(Front(steps), tx, f) || TxOf(Last(steps)) == Some(tx)
  {
    TxsAre(Front(steps), tx);
  }

  lemma BefriendRows(t: Tables, p: Pending, f: Friend)
    ensures f in Befriend(t, p).friends <==>
            f in t.friends || f == Friend(p.from, p.to, p.back) || f == Friend(p.to, p.from, " ")
  {
  }

  /** What the last step adds. */
  lemma FriendStep(steps: seq<Step>, f: Friend)
    requires steps != [] && ValidRun(steps)
    ensures var tx := TxOf(Last(steps));
            f in Run(steps).friends <==>
            f in Run(Front(steps)).friends ||
            (tx.Some? && Makes(steps, tx.value, f) && !FateOf(Front(steps), tx.value).Through?)
  {
    var t, last := Run(Front(steps)), Last(steps);
    match last {
      case AddApply(_, _, _, _, _) =>
      case AuthAdd(tx, from, to, back, _) =>
        TxsAre(Front(steps), tx);
        BefriendRows(t.(txs := t.txs + {tx}), Pending(from, to, back, t.applies.Keys, map[]), f);
      case Settle(tx, _) =>
        TxsAre(Front(steps), tx);
        if tx in t.open {
          BefriendRows(t.(open := t.open - {tx}), t.open[tx], f);
        }
    }
  }

  /** Over all runs: the friend rows are exactly those of the transactions that went through, be it long
      after their COMMIT was reported as failed. */
  lemma {:induction false} FriendsIff(steps: seq<Step>, f: Friend)
    requires ValidRun(steps)
    ensures f in Run(steps).friends <==> exists tx: nat :: Makes(steps, tx, f)
    decreases |steps|
  {
    if steps == [] {
    } else {
      FriendsIff(Front(steps), f);
      FriendStep(steps, f);
      forall tx: nat
        ensures Makes(Front(steps), tx, f) ==> Makes(steps, tx, f)
        ensures Makes(steps, tx, f) ==> Makes(Front(steps), tx, f) || TxOf(Last(steps)) == Some(tx)
      {
        MakesStep(steps, tx, f);
      }
      var last := TxOf(Last(steps));
      assert last.Some? && Makes(steps, last.value, f) && FateOf(Front(steps), last.value).Through? ==>
             Makes(Front(steps), last.value, f) by {
        if last.Some? {
          TxsAre(Front(steps), last.value);
        }
      }
    }
  }

  /** `b` is in the friend list of `a`. */
  ghost predicate IsFriend(t: Tables, a: int, b: int) {
    exists f :: f in t.friends && f.self == a && f.to == b
  }

  lemma BefriendFriends(t: Tables, p: Pending, a: int, b: int)
    ensures IsFriend(Befriend(t, p), a, b) <==>
            IsFriend(t, a, b) || (a == p.from && b == p.to) || (a == p.to && b == p.from)
  {
    var t' := Befriend(t, p);
    assert Friend(p.from, p.to, p.back) in t'.friends && Friend(p.to, p.from, " ") in t'.friends;
    if IsFriend(t, a, b) {
      var f :| f in t.friends && f.self == a && f.to == b;
      assert f in t'.friends;
    }
  }

  /** Friendship is symmetric, and an accepted application has made both users friends of each other. */
  lemma FriendshipIsSymmetric(steps: seq<Step>, a: int, b: int)
    requires ValidRun(steps)
    ensures IsFriend(Run(steps), a, b) <==> IsFriend(Run(steps), b, a)
    ensures forall id :: id in Run(steps).applies && Run(steps).applies[id] == Apply(a, b, 1) ==>
              IsFriend(Run(steps), a, b)
  {
    if IsFriend(Run(steps), a, b) {
      OtherWay(steps, a, b);
    }
    if IsFriend(Run(steps), b, a) {
      OtherWay(steps, b, a);
    }
    forall id | id in Run(steps).applies && Run(steps).applies[id] == Apply(a, b, 1)
      ensures IsFriend(Run(steps), a, b)
    {
      ApplicationIff(steps, id);
      var tx: nat :| Accepts(steps, tx, id);
      var f := Friend(a, b, " ");
      assert Makes(steps, tx, f);
      FriendsIff(steps, f);
    }
  }

  lemma OtherWay(steps: seq<Step>, a: int, b: int)
    requires ValidRun(steps) && IsFriend(Run(steps), a, b)
    ensures IsFriend(Run(steps), b, a)
  {
    var f :| f in Run(steps).friends && f.self == a && f.to == b;
    FriendsIff(steps, f);
    var tx: nat :| Makes(steps, tx, f);
    var s := StartOf(steps, tx).value;
    var g := if s.from == a then Friend(b, a, " ") else Friend(b, a, s.back);
    assert Makes(steps, tx, g);
    FriendsIff(steps, g);
  }

  // ------------------------------------------------------------------------------------------
  // The statements in sequence
  // ------------------------------------------------------------------------------------------

  class MysqlMgr {
    var friends: seq<Friend>
    var applies: map<nat, Apply>
    var open: map<nat, Pending>
    ghost var ids: set<nat>
    ghost var txs: set<nat>

    constructor ()
      ensures View() == INIT
    {
      friends, applies, open, ids, txs := [], map[], map[], {}, {};
    }

    ghost function View(): Tables
      reads this
    {
      Tables(friends, applies, open, ids, txs)
    }

    /** On the connection of an open transaction the row belongs to that transaction. */
    method AddFriendApply(id: nat, from: int, to: int, failed: bool, on: nat) returns (ok: bool)
      modifies this
      ensures View() == Next(old(View()), AddApply(id, from, to, failed, on))
      ensures ok <==> !failed
    {
      ids := ids + {id};
      if failed {
        return false;
      }
      if on in open {
        open := open[on := Adding(open[on], id, from, to)];
      } else {
        applies := applies[id := Apply(from, to, 0)];
      }
      return true;
    }

    method AuthAddFriend(tx: nat, from: int, to: int, back: string, failure: Failure) returns (ok: bool)
      modifies this
      ensures View() == Next(old(View()), AuthAdd(tx, from, to, back, failure))
      ensures ok <==> failure.NoFailure?
    {
      txs := txs + {tx};
      if failure.AtBegin? {
        return false;
      }
      var savedFriends, savedApplies := friends, applies;  // START TRANSACTION
      if failure.AtUpdate? {
        Rollback(savedFriends, savedApplies);
        return false;
      }
      var pending := Pending(from, to, back, applies.Keys, map[]);
      applies := Accept(applies, to, from, applies.Keys);
      if failure.AtInsert? {
        Rollback(savedFriends, savedApplies);
        return false;
      }
      friends := friends + [Friend(from, to, back)];
      if failure.AtInsertBack? {
        Rollback(savedFriends, savedApplies);
        return false;
      }
      friends := friends + [Friend(to, from, " ")];
      if failure.AtCommit? {  // no ROLLBACK: for the other connections nothing has happened yet
        Rollback(savedFriends, savedApplies);
        open := if failure.left then open[tx := pending] else open;
        return false;
      }
      assert applies + map[] == applies;
      return true;
    }

    method Rollback(savedFriends: seq<Friend>, savedApplies: map<nat, Apply>)
      modifies this`friends, this`applies
      ensures friends == savedFriends && applies == savedApplies
    {
      friends, applies := savedFriends, savedApplies;
    }
  }
}
