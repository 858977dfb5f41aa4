/** The locks of all servers, and why waiting for them never closes a circle. */
module LockOrder {
  import opened Wrappers
  import opened Registry

  /** The threads of the servers, and the RPC calls they handle. */
  datatype Tid = Worker(n: nat) | Handler(n: nat)

  /** The mutex of the logic queue, the distributed user and count locks, the server-table mutex of the
      status server, the mutexes of `Server`, `Session` and `UserMgr`; `Reply(n)` stands for the answer
      of the RPC call `Handler(n)`: the handler holds it, the caller waits for it. */
  datatype Lock =
    | LogicMtx(s: ServerName)
    | User(u: Uid)
    | ChatServers
    | Count
    | Reply(n: nat)
    | ServerMtx(s: ServerName)
    | SessionMtx(x: SessionId)
    | UserMgrMtx(s: ServerName)

  function Rank(l: Lock): nat {
    match l
    case LogicMtx(_) => 0
    case User(_) => 1
    case ChatServers => 1
    case Count => 2
    case Reply(_) => 2
    case ServerMtx(_) => 3
    case SessionMtx(_) => 4
    case UserMgrMtx(_) => 4
  }

  datatype Action = Acq(l: Lock) | Rel(l: Lock)

  // ------------------------------------------------------------------------------------------
  // What the threads do
  // ------------------------------------------------------------------------------------------

  datatype KickKind = NoKick | LocalKick(x: SessionId) | RemoteKick(n: nat)

  /** How a login ends; every end but the good one answers the client inside the locks it holds. */
  datatype Outcome = NoUserLock | NoCountLock | NoCounter | Done

  datatype LoginCall = LoginCall(u: Uid, x: SessionId, kick: KickKind, outcome: Outcome)

  datatype Program =
    | Post(s: ServerName)                          // LogicSystem.cpp, PostMsgToQue
    | Login(s: ServerName, call: LoginCall)        // LogicSystem.cpp, DealMsg and LoginCallback
    | Drain(s: ServerName, calls: seq<LoginCall>)  // LogicSystem.cpp, the stop branch of DealMsg
    | KickHandler(s: ServerName, x: SessionId)     // CallData.cpp, NotifyKickUser
    | Teardown(s: ServerName, u: Uid)              // Session.cpp, DealExceptionSession
    | Close(s: ServerName)                         // Session.cpp, oversize frame
    | Timer(s: ServerName, us: seq<Uid>)           // Server.cpp, on_timer
    | Choose                                       // StatusServer, getChatServer

  function With(l: Lock, body: seq<Action>): seq<Action> {
    [Acq(l)] + body + [Rel(l)]
  }

  /** `Server::ClearSession`. */
  function ClearActions(s: ServerName): seq<Action> {
    With(ServerMtx(s), With(UserMgrMtx(s), []))
  }

  /** `GetUidSession`, `NotifyOffline` (which writes to the session), `ClearSession`. */
  function KickActions(s: ServerName, x: SessionId): seq<Action> {
    With(UserMgrMtx(s), []) + (With(SessionMtx(x), []) + ClearActions(s))
  }

  function TeardownActions(s: ServerName, u: Uid): seq<Action> {
    With(User(u), ClearActions(s))
  }

  function TeardownsActions(s: ServerName, us: seq<Uid>): seq<Action> {
    if us == [] then [] else TeardownActions(s, us[0]) + TeardownsActions(s, us[1..])
  }

  function KickPart(s: ServerName, kick: KickKind): seq<Action> {
    match kick
    case NoKick => []
    case LocalKick(x) => KickActions(s, x)
    case RemoteKick(n) => With(Reply(n), [])
  }

  function LoginActions(s: ServerName, c: LoginCall): seq<Action> {
    var answer := With(SessionMtx(c.x), []);
    match c.outcome
    case NoUserLock => answer
    case NoCountLock => With(User(c.u), KickPart(s, c.kick) + answer)
    case NoCounter => With(User(c.u), KickPart(s, c.kick) + With(Count, answer))
    case Done => With(User(c.u), KickPart(s, c.kick) + (With(Count, []) + With(UserMgrMtx(s), []))) + answer
  }

  function LoginsActions(s: ServerName, calls: seq<LoginCall>): seq<Action> {
    if calls == [] then [] else LoginActions(s, calls[0]) + LoginsActions(s, calls[1..])
  }

  function Actions(p: Program, self: Tid): seq<Action> {
    match p
    case Post(s) => With(LogicMtx(s), [])
    case Login(s, call) => With(LogicMtx(s), []) + LoginActions(s, call)
    case Drain(s, calls) => With(LogicMtx(s), LoginsActions(s, calls))
    case KickHandler(s, x) => KickActions(s, x) + [Rel(Reply(self.n))]
    case Teardown(s, u) => TeardownActions(s, u)
    case Close(s) => ClearActions(s)
    case Timer(s, us) => With(ServerMtx(s), []) + (With(Count, []) + TeardownsActions(s, us))
    case Choose => With(ChatServers, With(Count, []))
  }

  /** A handler owes its reply from the start. */
  function StartHeld(p: Program, self: Tid): set<Lock> {
    if p.KickHandler? then {Reply(self.n)} else {}
  }

  /** The programs without a choice, lock by lock. */
  lemma ProgramTexts(s: ServerName, u: Uid, n: nat)
    ensures Actions(Post(s), Worker(n)) == [Acq(LogicMtx(s)), Rel(LogicMtx(s))]
    ensures Actions(Close(s), Worker(n)) ==
            [Acq(ServerMtx(s)), Acq(UserMgrMtx(s)), Rel(UserMgrMtx(s)), Rel(ServerMtx(s))]
    ensures Actions(Teardown(s, u), Worker(n)) ==
            [Acq(User(u)), Acq(ServerMtx(s)), Acq(UserMgrMtx(s)), Rel(UserMgrMtx(s)), Rel(ServerMtx(s)), Rel(User(u))]
    ensures Actions(Choose, Worker(n)) == [Acq(ChatServers), Acq(Count), Rel(Count), Rel(ChatServers)]
  {
  }

  lemma KickText(s: ServerName, x: SessionId, n: nat)
    ensures Actions(KickHandler(s, x), Handler(n)) ==
            [Acq(UserMgrMtx(s)), Rel(UserMgrMtx(s)), Acq(SessionMtx(x)), Rel(SessionMtx(x)),
             Acq(ServerMtx(s)), Acq(UserMgrMtx(s)), Rel(UserMgrMtx(s)), Rel(ServerMtx(s)), Rel(Reply(n))]
  {
  }

  lemma WithNothing(l: Lock)
    ensures With(l, []) == [Acq(l), Rel(l)]
  {
  }

  /** A login that kicks nobody. */
  lemma LoginText(s: ServerName, x: SessionId, u: Uid, n: nat)
    ensures Actions(Login(s, LoginCall(u, x, NoKick, Done)), Worker(n)) ==
            [Acq(LogicMtx(s)), Rel(LogicMtx(s))] +
            ([Acq(User(u)), Acq(Count), Rel(Count), Acq(UserMgrMtx(s)), Rel(UserMgrMtx(s)), Rel(User(u))] +
             [Acq(SessionMtx(x)), Rel(SessionMtx(x))])
  {
    WithNothing(LogicMtx(s));
    WithNothing(Count);
    WithNothing(UserMgrMtx(s));
    WithNothing(SessionMtx(x));
    var body := [Acq(Count), Rel(Count), Acq(UserMgrMtx(s)), Rel(UserMgrMtx(s))];
    assert KickPart(s, NoKick) + (With(Count, []) + With(UserMgrMtx(s), [])) == body;
    var section := [Acq(User(u)), Acq(Count), Rel(Count), Acq(UserMgrMtx(s)), Rel(UserMgrMtx(s)), Rel(User(u))];
    assert With(User(u), body) == section;
    assert LoginActions(s, LoginCall(u, x, NoKick, Done)) == section + With(SessionMtx(x), []);
  }

  /** A check that ends one session. */
  lemma TimerText(s: ServerName, u: Uid, n: nat)
    ensures Actions(Timer(s, [u]), Worker(n)) ==
            [Acq(ServerMtx(s)), Rel(ServerMtx(s))] + ([Acq(Count), Rel(Count)] + Actions(Teardown(s, u), Worker(n)))
  {
    WithNothing(ServerMtx(s));
    WithNothing(Count);
    assert [u][1..] == [];
    assert TeardownsActions(s, [u]) == TeardownActions(s, u) + TeardownsActions(s, []) == TeardownActions(s, u);
  }

  // ------------------------------------------------------------------------------------------
  // Any number of threads
  // ------------------------------------------------------------------------------------------

  datatype Thread = Thread(held: set<Lock>, todo: seq<Action>)

  type State = map<Tid, Thread>

  datatype Step = Start(t: Tid, p: Program) | Move(t: Tid)

  predicate IsFree(st: State, l: Lock) {
    forall t :: t in st ==> l !in st[t].held
  }

  /** A lock must be free; a reply is there once its handler has run. */
  predicate CanAcquire(st: State, l: Lock) {
    IsFree(st, l) && (l.Reply? ==> Handler(l.n) in st)
  }

  predicate Enabled(st: State, step: Step) {
    match step
    case Start(t, p) => t !in st && (t.Handler? <==> p.KickHandler?) && (t.Handler? ==> IsFree(st, Reply(t.n)))
    case Move(t) => t in st && st[t].todo != [] && (st[t].todo[0].Acq? ==> CanAcquire(st, st[t].todo[0].l))
  }

  function Apply(st: State, step: Step): State
    requires Enabled(st, step)
  {
    match step
    case Start(t, p) => st[t := Thread(StartHeld(p, t), Actions(p, t))]
    case Move(t) =>
      var a := st[t].todo[0];
      st[t := Thread(if a.Acq? then st[t].held + {a.l} else st[t].held - {a.l}, st[t].todo[1..])]
  }

  predicate ValidRun(st: State, steps: seq<Step>)
    decreases |steps|
  {
    steps == [] || (Enabled(st, steps[0]) && ValidRun(Apply(st, steps[0]), steps[1..]))
  }

  function Run(st: State, steps: seq<Step>): State
    requires ValidRun(st, steps)
    decreases |steps|
  {
    if steps == [] then st else Run(Apply(st, steps[0]), steps[1..])
  }

  /** From here on the thread only asks for locks above all it holds, and ends holding none. */
  ghost predicate Disciplined(held: set<Lock>, todo: seq<Action>)
    decreases |todo|
  {
    if todo == [] then held == {}
    else if todo[0].Acq? then
      (forall h :: h in held ==> Rank(h) < Rank(todo[0].l)) && Disciplined(held + {todo[0].l}, todo[1..])
    else todo[0].l in held && Disciplined(held - {todo[0].l}, todo[1..])
  }

  ghost predicate Inv(st: State) {
    && (forall t :: t in st ==> Disciplined(st[t].held, st[t].todo))
    && (forall t, t', l :: t in st && t' in st && l in st[t].held && l in st[t'].held ==> t == t')
  }

  // Every program keeps the order

  /** Nothing held stands in the way of `l`. */
  ghost predicate Below(held: set<Lock>, l: Lock) {
    forall h :: h in held ==> Rank(h) < Rank(l)
  }

  lemma ReleaseDisciplined(held: set<Lock>, l: Lock, rest: seq<Action>)
    requires Below(held, l) && Disciplined(held, rest)
    ensures Disciplined(held + {l}, [Rel(l)] + rest)
  {
    assert l !in held && held + {l} - {l} == held;
    assert ([Rel(l)] + rest)[1..] == rest;
  }

  /** A block under a lock above everything held, if its body goes with the rest. */
  lemma WithDisciplined(held: set<Lock>, l: Lock, body: seq<Action>, rest: seq<Action>)
    requires Below(held, l) && Disciplined(held + {l}, body + ([Rel(l)] + rest))
    ensures Disciplined(held, With(l, body) + rest)
  {
    var todo := With(l, body) + rest;
    assert todo[0] == Acq(l) && todo[1..] == body + ([Rel(l)] + rest);
  }

  lemma LeafDisciplined(held: set<Lock>, l: Lock, rest: seq<Action>)
    requires Below(held, l) && Disciplined(held, rest)
    ensures Disciplined(held, With(l, []) + rest)
  {
    ReleaseDisciplined(held, l, rest);
    assert [] + ([Rel(l)] + rest) == [Rel(l)] + rest;
    WithDisciplined(held, l, [], rest);
  }

  lemma ClearDisciplined(held: set<Lock>, s: ServerName, rest: seq<Action>)
    requires (forall h :: h in held ==> Rank(h) < 3) && Disciplined(held, rest)
    ensures Disciplined(held, ClearActions(s) + rest)
  {
    var l := ServerMtx(s);
    ReleaseDisciplined(held, l, rest);
    LeafDisciplined(held + {l}, UserMgrMtx(s), [Rel(l)] + rest);
    WithDisciplined(held, l, With(UserMgrMtx(s), []), rest);
  }

  lemma KickDisciplined(held: set<Lock>, s: ServerName, x: SessionId, rest: seq<Action>)
    requires (forall h :: h in held ==> Rank(h) < 3) && Disciplined(held, rest)
    ensures Disciplined(held, KickActions(s, x) + rest)
  {
    ClearDisciplined(held, s, rest);
    LeafDisciplined(held, SessionMtx(x), ClearActions(s) + rest);
    LeafDisciplined(held, UserMgrMtx(s), With(SessionMtx(x), []) + (ClearActions(s) + rest));
    Regroup(With(UserMgrMtx(s), []), With(SessionMtx(x), []), ClearActions(s), rest);
  }

  lemma Regroup(a: seq<Action>, b: seq<Action>, c: seq<Action>, d: seq<Action>)
    ensures a + (b + c) + d == a + (b + (c + d))
  {
  }

  lemma TeardownDisciplined(s: ServerName, u: Uid, rest: seq<Action>)
    requires Disciplined({}, rest)
    ensures Disciplined({}, TeardownActions(s, u) + rest)
  {
    ReleaseDisciplined({}, User(u), rest);
    ClearDisciplined({} + {User(u)}, s, [Rel(User(u))] + rest);
    WithDisciplined({}, User(u), ClearActions(s), rest);
  }

  lemma {:induction false} TeardownsDisciplined(s: ServerName, us: seq<Uid>)
    ensures Disciplined({}, TeardownsActions(s, us))
  {
    if us == [] {
    } else {
      TeardownsDisciplined(s, us[1..]);
      TeardownDisciplined(s, us[0], TeardownsActions(s, us[1..]));
    }
  }

  lemma KickPartDisciplined(held: set<Lock>, s: ServerName, kick: KickKind, rest: seq<Action>)
    requires (forall h :: h in held ==> Rank(h) < 2) && Disciplined(held, rest)
    ensures Disciplined(held, KickPart(s, kick) + rest)
  {
    match kick
    case NoKick => assert [] + rest == rest;
    case LocalKick(x) => KickDisciplined(held, s, x, rest);
    case RemoteKick(n) => LeafDisciplined(held, Reply(n), rest);
  }

  /** The kick and what follows it, under the user lock. */
  lemma SectionDisciplined(held: set<Lock>, s: ServerName, u: Uid, kick: KickKind, body: seq<Action>, rest: seq<Action>)
    requires (forall h :: h in held ==> Rank(h) < 1) && Disciplined(held + {User(u)}, body + ([Rel(User(u))] + rest))
    ensures Disciplined(held, With(User(u), KickPart(s, kick) + body) + rest)
  {
    var end := [Rel(User(u))] + rest;
    KickPartDisciplined(held + {User(u)}, s, kick, body + end);
    assert KickPart(s, kick) + body + end == KickPart(s, kick) + (body + end);
    WithDisciplined(held, User(u), KickPart(s, kick) + body, rest);
  }

  lemma CountedDisciplined(held: set<Lock>, s: ServerName, rest: seq<Action>)
    requires (forall h :: h in held ==> Rank(h) < 2) && Disciplined(held, rest)
    ensures Disciplined(held, With(Count, []) + With(UserMgrMtx(s), []) + rest)
  {
    LeafDisciplined(held, UserMgrMtx(s), rest);
    LeafDisciplined(held, Count, With(UserMgrMtx(s), []) + rest);
    assert With(Count, []) + With(UserMgrMtx(s), []) + rest == With(Count, []) + (With(UserMgrMtx(s), []) + rest);
  }

  /** The answer of a login that found no counter is written under the count lock. */
  lemma AnsweredDisciplined(held: set<Lock>, x: SessionId, rest: seq<Action>)
    requires (forall h :: h in held ==> Rank(h) < 2) && Disciplined(held, rest)
    ensures Disciplined(held, With(Count, With(SessionMtx(x), [])) + rest)
  {
    ReleaseDisciplined(held, Count, rest);
    LeafDisciplined(held + {Count}, SessionMtx(x), [Rel(Count)] + rest);
    WithDisciplined(held, Count, With(SessionMtx(x), []), rest);
  }

  lemma LoginDisciplined(held: set<Lock>, s: ServerName, c: LoginCall, rest: seq<Action>)
    requires (forall h :: h in held ==> Rank(h) < 1) && Disciplined(held, rest)
    ensures Disciplined(held, LoginActions(s, c) + rest)
  {
    var answer := With(SessionMtx(c.x), []);
    var l := User(c.u);
    match c.outcome {
      case NoUserLock => LeafDisciplined(held, SessionMtx(c.x), rest);
      case NoCountLock =>
        ReleaseDisciplined(held, l, rest);
        LeafDisciplined(held + {l}, SessionMtx(c.x), [Rel(l)] + rest);
        SectionDisciplined(held, s, c.u, c.kick, answer, rest);
      case NoCounter =>
        ReleaseDisciplined(held, l, rest);
        AnsweredDisciplined(held + {l}, c.x, [Rel(l)] + rest);
        SectionDisciplined(held, s, c.u, c.kick, With(Count, answer), rest);
      case Done => DoneDisciplined(held, s, c, rest);
    }
  }

  lemma DoneDisciplined(held: set<Lock>, s: ServerName, c: LoginCall, rest: seq<Action>)
    requires (forall h :: h in held ==> Rank(h) < 1) && Disciplined(held, rest) && c.outcome.Done?
    ensures Disciplined(held, LoginActions(s, c) + rest)
  {
    var answer := With(SessionMtx(c.x), []);
    var body := With(Count, []) + With(UserMgrMtx(s), []);
    LeafDisciplined(held, SessionMtx(c.x), rest);
    ReleaseDisciplined(held, User(c.u), answer + rest);
    CountedDisciplined(held + {User(c.u)}, s, [Rel(User(c.u))] + (answer + rest));
    SectionDisciplined(held, s, c.u, c.kick, body, answer + rest);
    assert LoginActions(s, c) + rest == With(User(c.u), KickPart(s, c.kick) + body) + (answer + rest);
  }

  lemma LoginThenDisciplined(held: set<Lock>, s: ServerName, c: LoginCall, more: seq<Action>, rest: seq<Action>)
    requires (forall h :: h in held ==> Rank(h) < 1) && Disciplined(held, more + rest)
    ensures Disciplined(held, LoginActions(s, c) + more + rest)
  {
    LoginDisciplined(held, s, c, more + rest);
    ConcatAssociates(LoginActions(s, c), more, rest);
  }

  lemma {:induction false} LoginsDisciplined(held: set<Lock>, s: ServerName, calls: seq<LoginCall>, rest: seq<Action>)
    requires (forall h :: h in held ==> Rank(h) < 1) && Disciplined(held, rest)
    ensures Disciplined(held, LoginsActions(s, calls) + rest)
  {
    if calls == [] {
      assert [] + rest == rest;
    } else {
      LoginsDisciplined(held, s, calls[1..], rest);
      LoginThenDisciplined(held, s, calls[0], LoginsActions(s, calls[1..]), rest);
    }
  }

  lemma TimerDisciplined(s: ServerName, us: seq<Uid>)
    ensures Disciplined({}, Actions(Timer(s, us), Worker(0)))
  {
    TeardownsDisciplined(s, us);
    LeafDisciplined({}, Count, TeardownsActions(s, us));
    LeafDisciplined({}, ServerMtx(s), With(Count, []) + TeardownsActions(s, us));
  }

  lemma DrainDisciplined(s: ServerName, calls: seq<LoginCall>)
    ensures Disciplined({}, With(LogicMtx(s), LoginsActions(s, calls)) + [])
  {
    ReleaseDisciplined({}, LogicMtx(s), []);
    LoginsDisciplined({} + {LogicMtx(s)}, s, calls, [Rel(LogicMtx(s))] + []);
    WithDisciplined({}, LogicMtx(s), LoginsActions(s, calls), []);
  }

  lemma ChooseDisciplined()
    ensures Disciplined({}, With(ChatServers, With(Count, [])) + [])
  {
    ReleaseDisciplined({}, ChatServers, []);
    LeafDisciplined({} + {ChatServers}, Count, [Rel(ChatServers)] + []);
    WithDisciplined({}, ChatServers, With(Count, []), []);
  }

  lemma HandlerDisciplined(s: ServerName, x: SessionId, n: nat)
    ensures Disciplined({Reply(n)}, KickActions(s, x) + [Rel(Reply(n))])
  {
    ReleaseDisciplined({}, Reply(n), []);
    assert {} + {Reply(n)} == {Reply(n)} && [Rel(Reply(n))] + [] == [Rel(Reply(n))];
    KickDisciplined({Reply(n)}, s, x, [Rel(Reply(n))]);
  }

  lemma NothingFollows(todo: seq<Action>)
    ensures todo + [] == todo
  {
  }

  lemma ProgramDisciplined(p: Program, self: Tid)
    requires p.KickHandler? <==> self.Handler?
    ensures Disciplined(StartHeld(p, self), Actions(p, self))
  {
    NothingFollows(Actions(p, self));
    match p {
      case Post(s) => LeafDisciplined({}, LogicMtx(s), []);
      case Login(s, call) =>
        NothingFollows(LoginActions(s, call));
        LoginDisciplined({}, s, call, []);
        LeafDisciplined({}, LogicMtx(s), LoginActions(s, call));
      case Drain(s, calls) => DrainDisciplined(s, calls);
      case KickHandler(s, x) => HandlerDisciplined(s, x, self.n);
      case Teardown(s, u) => TeardownDisciplined(s, u, []);
      case Close(s) => ClearDisciplined({}, s, []);
      case Timer(s, us) => TimerDisciplined(s, us);
      case Choose => ChooseDisciplined();
    }
  }

  lemma StepKeepsInv(st: State, step: Step)
    requires Inv(st) && Enabled(st, step)
    ensures Inv(Apply(st, step))
  {
    if step.Start? {
      ProgramDisciplined(step.p, step.t);
    }
  }

  lemma {:induction false} InvOverRun(st: State, steps: seq<Step>)
    requires Inv(st) && ValidRun(st, steps)
    ensures Inv(Run(st, steps))
    decreases |steps|
  {
    if steps == [] {
    } else {
      StepKeepsInv(st, steps[0]);
      InvOverRun(Apply(st, steps[0]), steps[1..]);
    }
  }

  // ------------------------------------------------------------------------------------------
  // No circular wait, and always someone who can go on
  // ------------------------------------------------------------------------------------------

  predicate Wants(st: State, t: Tid, l: Lock) {
    t in st && st[t].todo != [] && st[t].todo[0] == Acq(l)
  }

  /** `t` waits for a lock that `t'` holds. */
  predicate WaitsFor(st: State, t: Tid, t': Tid) {
    t in st && t' in st && st[t].todo != [] && st[t].todo[0].Acq? && st[t].todo[0].l in st[t'].held
  }

  predicate WaitPath(st: State, path: seq<Tid>) {
    forall i :: 0 <= i < |path| - 1 ==> WaitsFor(st, path[i], path[i + 1])
  }

  /** Along a path of waits the wanted locks rise. */
  lemma {:induction false} WaitsRise(st: State, path: seq<Tid>, l: Lock)
    requires Inv(st) && |path| >= 2 && WaitPath(st, path) && Wants(st, path[|path| - 1], l)
    ensures exists l0 :: Wants(st, path[0], l0) && Rank(l0) < Rank(l)
    decreases |path|
  {
    var n := |path|;
    assert WaitsFor(st, path[n - 2], path[n - 1]);
    var l' := st[path[n - 2]].todo[0].l;
    assert Disciplined(st[path[n - 1]].held, st[path[n - 1]].todo);
    assert Wants(st, path[n - 2], l') && Rank(l') < Rank(l);
    if n > 2 {
      var rest := path[..n - 1];
      forall i | 0 <= i < |rest| - 1
        ensures WaitsFor(st, rest[i], rest[i + 1])
      {
        assert WaitsFor(st, path[i], path[i + 1]);
      }
      WaitsRise(st, rest, l');
    }
  }

  /** In every reachable state, of any number of threads, no thread waits for itself through others. */
  lemma NoCircularWait(steps: seq<Step>, path: seq<Tid>)
    requires ValidRun(map[], steps) && |path| >= 2 && WaitPath(Run(map[], steps), path)
    ensures path[0] != path[|path| - 1]
  {
    InvOverRun(map[], steps);
    var st := Run(map[], steps);
    if path[0] == path[|path| - 1] {
      assert WaitsFor(st, path[0], path[1]);
      var l := st[path[0]].todo[0].l;
      WaitsRise(st, path, l);
    }
  }

  /** `t` waits for the answer to an RPC call that no thread has taken up yet. */
  predicate AwaitsHandler(st: State, t: Tid, n: nat) {
    Wants(st, t, Reply(n)) && Handler(n) !in st
  }

  /** Some thread can take its next step, or somebody waits for a call that can be taken up. */
  ghost predicate SomeProgress(st: State) {
    || (exists t :: t in st && Enabled(st, Move(t)))
    || (exists t, n :: AwaitsHandler(st, t, n) && forall s, x :: Enabled(st, Start(Handler(n), KickHandler(s, x))))
  }

  /** Follow the holders upwards until one can move. */
  lemma {:induction false} SomeoneMoves(st: State, t: Tid)
    requires Inv(st) && t in st && st[t].todo != []
    ensures SomeProgress(st)
    decreases 5 - (if st[t].todo[0].Acq? then Rank(st[t].todo[0].l) else 5)
  {
    if Enabled(st, Move(t)) {
    } else {
      var l := st[t].todo[0].l;
      if IsFree(st, l) {
        assert AwaitsHandler(st, t, l.n);
      } else {
        var t' :| t' in st && l in st[t'].held;
        assert Disciplined(st[t'].held, st[t'].todo);
        SomeoneMoves(st, t');
      }
    }
  }

  /** As long as one thread is unfinished, some thread can take its next step, or a server can take up a
      call that somebody waits for. */
  lemma NoDeadlock(steps: seq<Step>, t: Tid)
    requires ValidRun(map[], steps) && t in Run(map[], steps) && Run(map[], steps)[t].todo != []
    ensures SomeProgress(Run(map[], steps))
  {
    InvOverRun(map[], steps);
    SomeoneMoves(Run(map[], steps), t);
  }
}
