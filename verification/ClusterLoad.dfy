/** The load counter `logincount` never falls below the number of users bound on a server, although
    disconnects do not decrement it. */
module ClusterLoad {
  import opened Registry
  import opened Cluster
  import opened ClusterSafety

  /** The login has counted its session and not bound it yet. */
  predicate Counting(p: Proc, s: ServerName) {
    p.Login? && p.s == s &&
    (p.ph.CountWritten? || p.ph.Counted? || p.ph.WroteIp? || p.ph.WroteSid? || p.ph.UidSet?)
  }

  function Pending(st: State, s: ServerName): nat {
    if exists t :: t in st.procs && Counting(st.procs[t], s) then 1 else 0
  }

  function CountOf(st: State, s: ServerName): int {
    if s in st.count then st.count[s] else 0
  }

  /** The counter of `s` covers the users bound on `s` and the login about to bind one. */
  ghost predicate Covers(st: State, s: ServerName) {
    |Users(st.w, s)| + Pending(st, s) <= CountOf(st, s)
  }

  /** What a login has read still covers the users bound on its server. The counter itself may have been
      overwritten since by a check that went on without the count lock. */
  ghost predicate ReadCovers(st: State) {
    forall t :: t in st.procs && st.procs[t].Login? && st.procs[t].ph.CountRead? ==>
      |Users(st.w, st.procs[t].s)| <= st.procs[t].ph.v
  }

  ghost predicate CountInv(st: State) {
    (forall s :: s in st.w.local ==> Covers(st, s)) && ReadCovers(st)
  }

  /** Heartbeat checks are not torn into snapshot and write, and tear down all they found. What else
      they do to the bound is said exactly by TornCheckIff and GivenUpIff. */
  predicate CountGuard(step: Step) {
    !step.TickWrite? && (step.Tick? ==> step.torn == step.expired)
  }

  // ------------------------------------------------------------------------------------------
  // Frames
  // ------------------------------------------------------------------------------------------

  lemma UsersSmaller(w: World, w': World, s: ServerName)
    requires Users(w', s).Keys <= Users(w, s).Keys
    ensures |Users(w', s)| <= |Users(w, s)|
  {
    SubsetSmaller(Users(w', s).Keys, Users(w, s).Keys);
    assert |Users(w', s).Keys| == |Users(w', s)| && |Users(w, s).Keys| == |Users(w, s)|;
  }

  lemma CoversFrame(st: State, st': State, s: ServerName)
    requires Covers(st, s) && CountOf(st', s) == CountOf(st, s)
    requires Users(st'.w, s).Keys <= Users(st.w, s).Keys
    requires forall t :: t in st'.procs && Counting(st'.procs[t], s) ==> t in st.procs && Counting(st.procs[t], s)
    ensures Covers(st', s)
  {
    UsersSmaller(st.w, st'.w, s);
  }

  /** A critical section moves on without touching the counter, and users may only go. */
  lemma CountFrame(st: State, st': State)
    requires CountInv(st) && st'.count == st.count && st'.w.local.Keys == st.w.local.Keys
    requires forall s :: Users(st'.w, s).Keys <= Users(st.w, s).Keys
    requires forall t, s :: t in st'.procs && Counting(st'.procs[t], s) ==> t in st.procs && Counting(st.procs[t], s)
    requires forall t :: t in st'.procs && st'.procs[t].Login? && st'.procs[t].ph.CountRead? ==>
               t in st.procs && st'.procs[t] == st.procs[t]
    ensures CountInv(st')
  {
    forall s | s in st'.w.local
      ensures Covers(st', s)
    {
      CoversFrame(st, st', s);
    }
    ReadFrame(st, st');
  }

  lemma ReadFrame(st: State, st': State)
    requires ReadCovers(st)
    requires forall s :: Users(st'.w, s).Keys <= Users(st.w, s).Keys
    requires forall t :: t in st'.procs && st'.procs[t].Login? && st'.procs[t].ph.CountRead? ==>
               t in st.procs && st'.procs[t] == st.procs[t]
    ensures ReadCovers(st')
  {
    forall t | t in st'.procs && st'.procs[t].Login? && st'.procs[t].ph.CountRead?
      ensures |Users(st'.w, st'.procs[t].s)| <= st'.procs[t].ph.v
    {
      UsersSmaller(st.w, st'.w, st.procs[t].s);
    }
  }

  lemma ClearShrinks(w: World, s: ServerName, x: SessionId, s': ServerName)
    ensures Users(Clear(w, s, x), s').Keys <= Users(w, s').Keys && Clear(w, s, x).local.Keys == w.local.Keys
  {
  }

  // ------------------------------------------------------------------------------------------
  // Login
  // ------------------------------------------------------------------------------------------

  lemma LoginReadsCount(st: State, tok: string)
    requires CountInv(st) && IsLogin(st, tok) && st.procs[tok].ph.CountLocked? && st.procs[tok].s in st.w.local
    ensures CountInv(LoginApply(st, tok))
  {
    var st' := LoginApply(st, tok);
    assert Covers(st, st.procs[tok].s);
    forall s | s in st'.w.local
      ensures Covers(st', s)
    {
      CoversFrame(st, st', s);
    }
  }

  /** The value written is one more than the value read, which covered the users bound. */
  lemma LoginAddsOne(st: State, tok: string)
    requires CountInv(st) && IsLogin(st, tok) && st.procs[tok].ph.CountRead?
    ensures CountInv(LoginApply(st, tok))
  {
    var st' := LoginApply(st, tok);
    forall s | s in st'.w.local
      ensures Covers(st', s)
    {
      if s != st.procs[tok].s {
        CoversFrame(st, st', s);
      } else {
        assert |Users(st.w, s)| <= st.procs[tok].ph.v;
      }
    }
  }

  lemma OneLogin(st: State, tok: string, t: string)
    requires LocksOk(st) && IsLogin(st, tok) && IsLogin(st, t) && st.procs[t].s == st.procs[tok].s
    ensures t == tok
  {
    assert SameLogic(st.procs[t], st.procs[tok]);
  }

  lemma BindUsers(w: World, s: ServerName, u: Uid, x: SessionId, s': ServerName)
    requires s in w.local
    ensures s' != s ==> Users(Bind(w, s, u, x), s') == Users(w, s')
    ensures |Users(Bind(w, s, u, x), s)| <= |Users(w, s)| + 1
    ensures Bind(w, s, u, x).local.Keys == w.local.Keys
  {
  }

  lemma NonePending(st: State, tok: string)
    requires LocksOk(st) && IsLogin(st, tok) && !Counting(st.procs[tok], st.procs[tok].s)
    ensures Pending(st, st.procs[tok].s) == 0
  {
    if t :| t in st.procs && Counting(st.procs[t], st.procs[tok].s) {
      OneLogin(st, tok, t);
    }
  }

  lemma BindReads(st: State, tok: string)
    requires LocksOk(st) && ReadCovers(st)
    requires IsLogin(st, tok) && st.procs[tok].ph.UidSet? && st.procs[tok].s in st.w.local
    ensures ReadCovers(LoginApply(st, tok))
  {
    var p := st.procs[tok];
    var st' := LoginApply(st, tok);
    forall t | t in st'.procs && st'.procs[t].Login? && st'.procs[t].ph.CountRead?
      ensures |Users(st'.w, st'.procs[t].s)| <= st'.procs[t].ph.v
    {
      if st.procs[t].s == p.s {
        OneLogin(st, tok, t);
      }
      BindUsers(st.w, p.s, p.u, p.x, st.procs[t].s);
    }
  }

  lemma BindCovers(st: State, tok: string)
    requires IsLogin(st, tok) && st.procs[tok].ph.UidSet? && st.procs[tok].s in st.w.local
    requires Covers(st, st.procs[tok].s) && LocksOk(LoginApply(st, tok))
    ensures Covers(LoginApply(st, tok), st.procs[tok].s)
  {
    var p := st.procs[tok];
    BindUsers(st.w, p.s, p.u, p.x, p.s);
    NonePending(LoginApply(st, tok), tok);
    assert Counting(p, p.s);
  }

  lemma BindElsewhere(st: State, tok: string, s: ServerName)
    requires IsLogin(st, tok) && st.procs[tok].ph.UidSet? && s != st.procs[tok].s && Covers(st, s)
    ensures Covers(LoginApply(st, tok), s)
  {
    var st' := LoginApply(st, tok);
    assert Users(st'.w, s) == Users(st.w, s);
    CoversFrame(st, st', s);
  }

  /** The binding uses up the one the counter was raised by, and no other login of the server is
      between read and write. */
  lemma LoginBindsOne(st: State, tok: string)
    requires LocksOk(st) && CountInv(st)
    requires IsLogin(st, tok) && st.procs[tok].ph.UidSet? && st.procs[tok].s in st.w.local
    requires LocksOk(LoginApply(st, tok))
    ensures CountInv(LoginApply(st, tok))
  {
    var p := st.procs[tok];
    BindUsers(st.w, p.s, p.u, p.x, p.s);
    forall s | s in st.w.local
      ensures Covers(LoginApply(st, tok), s)
    {
      if s != p.s {
        BindElsewhere(st, tok, s);
      } else {
        BindCovers(st, tok);
      }
    }
    BindReads(st, tok);
  }

  lemma LoginShrinks(w: World, p: Proc, s: ServerName)
    requires p.Login? && !p.ph.UidSet?
    ensures Users(LoginWorld(w, p), s).Keys <= Users(w, s).Keys && LoginWorld(w, p).local.Keys == w.local.Keys
  {
  }

  lemma LoginMovesOn(st: State, tok: string)
    requires CountInv(st) && IsLogin(st, tok)
    requires var ph := st.procs[tok].ph;
             !ph.CountLocked? && !ph.CountRead? && !ph.UidSet? && !ph.Kicked? && !ph.Bound? && !ph.Failed?
    ensures CountInv(LoginApply(st, tok))
  {
    var p := st.procs[tok];
    var st' := LoginApply(st, tok);
    forall s
      ensures Users(st'.w, s).Keys <= Users(st.w, s).Keys && st'.w.local.Keys == st.w.local.Keys
    {
      LoginShrinks(st.w, p, s);
    }
    assert forall s :: Counting(st'.procs[tok], s) ==> Counting(p, s);
    CountFrame(st, st');
  }

  lemma LoginNextCount(st: State, tok: string)
    requires Inv(st) && CountInv(st) && Enabled(st, LoginNext(tok))
    ensures CountInv(LoginApply(st, tok))
  {
    assert SessionOk(st.w, st.procs[tok]);
    match st.procs[tok].ph {
      case CountLocked(_) => LoginReadsCount(st, tok);
      case CountRead(_, _) => LoginAddsOne(st, tok);
      case UidSet =>
        LoginLocks(st, tok);
        LoginBindsOne(st, tok);
      case Bound => CountFrame(st, Finish(st, tok));
      case Failed => CountFrame(st, Finish(st, tok));
      case _ => LoginMovesOn(st, tok);
    }
  }

  lemma LoginChangesPhase(st: State, st': State, tok: string, p: Proc)
    requires CountInv(st) && p.Login? && (p.ph.Locked? || p.ph.Kicked? || p.ph.Failed? || p.ph.CountLocked?)
    requires st'.w == st.w && st'.count == st.count && st'.procs == st.procs[tok := p]
    ensures CountInv(st')
  {
    CountFrame(st, st');
  }

  // ------------------------------------------------------------------------------------------
  // Teardown and the heartbeat check
  // ------------------------------------------------------------------------------------------

  lemma TeardownShrinks(w: World, p: Proc, s: ServerName)
    requires p.Teardown?
    ensures Users(TeardownWorld(w, p), s).Keys <= Users(w, s).Keys && TeardownWorld(w, p).local.Keys == w.local.Keys
  {
  }

  lemma TeardownCount(st: State, tok: string)
    requires CountInv(st) && Enabled(st, TeardownNext(tok))
    ensures CountInv(TeardownApply(st, tok))
  {
    var st' := TeardownApply(st, tok);
    forall s
      ensures Users(st'.w, s).Keys <= Users(st.w, s).Keys && st'.w.local.Keys == st.w.local.Keys
    {
      TeardownShrinks(st.w, st.procs[tok], s);
    }
    assert forall t :: t in st'.procs && st'.procs[t].Login? ==> t in st.procs && st'.procs[t] == st.procs[t];
    CountFrame(st, st');
  }

  /** Users left on `s` are bound to different sessions, none of them the one still logging in. */
  lemma TickRoom(st: State, s: ServerName, torn: set<SessionId>)
    requires Inv(st) && CanTearDown(st, s, torn) && NoneInLogin(st, torn)
    ensures |Users(TickWorld(st.w, s, torn), s)| + Pending(st, s) <= |st.w.local[s].sessions - torn|
  {
    if t :| t in st.procs && Counting(st.procs[t], s) {
      PendingRoom(st, s, torn, t);
    } else {
      var users := Users(TickWorld(st.w, s, torn), s);
      TickUsers(st.w, s, torn);
      InjectiveSmaller(users, users.Keys, st.w.local[s].sessions - torn);
    }
  }

  lemma PendingRoom(st: State, s: ServerName, torn: set<SessionId>, t: string)
    requires Inv(st) && CanTearDown(st, s, torn) && NoneInLogin(st, torn) && t in st.procs && Counting(st.procs[t], s)
    ensures |Users(TickWorld(st.w, s, torn), s)| + 1 <= |st.w.local[s].sessions - torn|
  {
    var users := Users(TickWorld(st.w, s, torn), s);
    var rest := st.w.local[s].sessions - torn;
    TickUsers(st.w, s, torn);
    TickNotPending(st, s, torn, t);
    InjectiveSmaller(users, users.Keys, rest - {st.procs[t].x});
    Parts(rest, {st.procs[t].x});
  }

  lemma UsersInjective(w: World, s: ServerName)
    requires TablesOk(w)
    ensures var users := Users(w, s);
            forall u, v :: u in users && v in users && users[u] == users[v] ==> u == v
  {
    assert forall u :: u in Users(w, s) ==> IsBound(w, u, s, Users(w, s)[u]);
  }

  lemma TickUsers(w: World, s: ServerName, torn: set<SessionId>)
    requires TablesOk(w) && s in w.local
    ensures var users := Users(TickWorld(w, s, torn), s);
            && (forall u :: u in users ==> users[u] in w.local[s].sessions - torn)
            && (forall u, v :: u in users && v in users && users[u] == users[v] ==> u == v)
  {
    var w' := TickWorld(w, s, torn);
    TickFacts(w, s, torn);
    UsersInjective(w', s);
    assert forall u :: u in Users(w', s) ==> IsBound(w', u, s, Users(w', s)[u]);
  }

  lemma TickNotPending(st: State, s: ServerName, torn: set<SessionId>, t: string)
    requires Inv(st) && CanTearDown(st, s, torn) && NoneInLogin(st, torn) && t in st.procs && Counting(st.procs[t], s)
    ensures st.procs[t].x in st.w.local[s].sessions - torn
    ensures forall u :: u in Users(TickWorld(st.w, s, torn), s) ==>
              Users(TickWorld(st.w, s, torn), s)[u] != st.procs[t].x
  {
    var p := st.procs[t];
    assert SessionOk(st.w, p) && PhaseOk(st.w, p);
    forall u | u in Users(TickWorld(st.w, s, torn), s)
      ensures Users(TickWorld(st.w, s, torn), s)[u] != p.x
    {
      assert !IsBound(st.w, u, s, p.x);
    }
  }

  lemma TickShrinks(w: World, s: ServerName, torn: set<SessionId>, s': ServerName)
    requires s in w.local
    ensures Users(TickWorld(w, s, torn), s').Keys <= Users(w, s').Keys
    ensures TickWorld(w, s, torn).local.Keys == w.local.Keys
  {
  }

  lemma TickCount(st: State, st': State, s: ServerName, torn: set<SessionId>)
    requires Inv(st) && CountInv(st) && CanTearDown(st, s, torn) && NoneInLogin(st, torn)
    requires st' == st.(w := TickWorld(st.w, s, torn), count := st.count[s := |st.w.local[s].sessions - torn|])
    ensures CountInv(st')
  {
    forall s'
      ensures Users(st'.w, s').Keys <= Users(st.w, s').Keys && st'.w.local.Keys == st.w.local.Keys
    {
      TickShrinks(st.w, s, torn, s');
    }
    forall s' | s' in st'.w.local
      ensures Covers(st', s')
    {
      if s' != s {
        CoversFrame(st, st', s');
      } else {
        TickRoom(st, s, torn);
        assert Pending(st', s) == Pending(st, s);
      }
    }
    ReadFrame(st, st');
  }

  /** Nobody is left on a stopped server. */
  lemma StoppedCovers(st: State, st': State, s: ServerName)
    requires Covers(st, s) && Users(st'.w, s) == map[] && CountOf(st', s) in {0, CountOf(st, s)}
    requires forall t :: t in st'.procs ==> st'.procs[t].s != s
    ensures Covers(st', s)
  {
  }

  lemma StopShrinks(st: State, st': State, s: ServerName)
    requires st'.w == StopWorld(st.w, s) && s in st.w.local
    requires st'.procs == map t | t in st.procs && st.procs[t].s != s :: st.procs[t]
    ensures forall s' :: Users(st'.w, s').Keys <= Users(st.w, s').Keys
    ensures forall t :: t in st'.procs ==> t in st.procs && st'.procs[t] == st.procs[t] && st'.procs[t].s != s
    ensures Users(st'.w, s) == map[]
  {
  }

  lemma StopCount(st: State, s: ServerName, graceful: bool)
    requires CountInv(st) && Enabled(st, Stop(s, graceful))
    ensures CountInv(Apply(st, Stop(s, graceful)))
  {
    var st' := Apply(st, Stop(s, graceful));
    StopShrinks(st, st', s);
    forall s' | s' in st'.w.local
      ensures Covers(st', s')
    {
      assert Covers(st, s');
      if s' == s {
        StoppedCovers(st, st', s);
      } else {
        CoversFrame(st, st', s');
      }
    }
    ReadFrame(st, st');
  }

  lemma BootCount(st: State, s: ServerName)
    requires CountInv(st) && Enabled(st, Boot(s))
    ensures CountInv(Apply(st, Boot(s)))
  {
  }

  lemma LocalClearCount(st: State, s: ServerName, x: SessionId)
    requires CountInv(st)
    ensures CountInv(st.(w := Clear(st.w, s, x)))
  {
    forall s'
      ensures Users(Clear(st.w, s, x), s').Keys <= Users(st.w, s').Keys
    {
      ClearShrinks(st.w, s, x, s');
    }
    CountFrame(st, st.(w := Clear(st.w, s, x)));
  }

  lemma AcceptCount(st: State, s: ServerName, x: SessionId)
    requires CountInv(st) && Enabled(st, Accept(s, x))
    ensures CountInv(Apply(st, Accept(s, x)))
  {
  }

  /** A waiting teardown comes or goes. */
  lemma IdleCount(st: State, st': State)
    requires CountInv(st) && st'.w == st.w && st'.count == st.count
    requires forall t :: t in st'.procs ==> (t in st.procs && st'.procs[t] == st.procs[t]) || st'.procs[t].Teardown?
    ensures CountInv(st')
  {
  }

  lemma StepKeepsCount(st: State, step: Step)
    requires Inv(st) && CountInv(st) && Enabled(st, step) && Guard(st, step) && CountGuard(step)
    ensures CountInv(Apply(st, step))
  {
    match step
    case LoginBegin(s, u, x, tok) => LoginChangesPhase(st, Apply(st, step), tok, Login(s, u, x, Locked));
    case LoginNext(tok) => LoginNextCount(st, tok);
    case LoginCount(tok, c) => LoginChangesPhase(st, Apply(st, step), tok, st.procs[tok].(ph := CountLocked(c)));
    case LoginCountFail(tok) => LoginChangesPhase(st, Apply(st, step), tok, st.procs[tok].(ph := Failed));
    case KickLost(tok) => LoginChangesPhase(st, Apply(st, step), tok, st.procs[tok].(ph := Kicked));
    case TeardownNext(tok) => TeardownCount(st, tok);
    case LocalClear(s, x) => LocalClearCount(st, s, x);
    case Tick(s, expired, torn) => TickCount(st, Apply(st, step), s, torn);
    case TickSnapshot(_, _) => CountFrame(st, Apply(st, step));
    case Stop(s, graceful) => StopCount(st, s, graceful);
    case Boot(s) => BootCount(st, s);
    case Accept(s, x) => AcceptCount(st, s, x);
    case Advance(_) => CountFrame(st, Apply(st, step));
    case TeardownBegin(s, x, tok) => IdleCount(st, Apply(st, step));
    case TeardownGiveUp(tok) => IdleCount(st, Apply(st, step));
    case TickWrite(_) =>
  }

  lemma {:induction false} CountOverRun(st: State, steps: seq<Step>)
    requires Inv(st) && CountInv(st) && ValidRun(st, steps)
    requires forall k :: 0 <= k < |steps| ==> CountGuard(steps[k])
    ensures CountInv(Run(st, steps))
    decreases |steps|
  {
    if steps == [] {
    } else {
      StepKeepsInv(st, steps[0]);
      StepKeepsCount(st, steps[0]);
      assert forall k :: 0 <= k < |steps[1..]| ==> steps[1..][k] == steps[k + 1];
      CountOverRun(Apply(st, steps[0]), steps[1..]);
    }
  }

  /** In every reachable state the counter of a server is at least the number of users bound there. */
  lemma LoadCounterBound(servers: set<ServerName>, steps: seq<Step>, s: ServerName)
    requires ValidRun(Init(servers), steps) && s in servers
    requires forall k :: 0 <= k < |steps| ==> CountGuard(steps[k])
    ensures |Users(Run(Init(servers), steps).w, s)| <= CountOf(Run(Init(servers), steps), s)
  {
    assert Inv(Init(servers)) by {
      Reachable(servers, []);
    }
    CountOverRun(Init(servers), steps);
    assert Covers(Run(Init(servers), steps), s) by {
      ServersFixed(Init(servers), steps);
    }
  }

  lemma LoginKeepsServers(w: World, p: Proc)
    requires p.Login?
    ensures LoginWorld(w, p).local.Keys == w.local.Keys
  {
  }

  lemma StepKeepsServers(st: State, step: Step)
    requires Enabled(st, step)
    ensures Apply(st, step).w.local.Keys == st.w.local.Keys
  {
    if step.LoginNext? {
      LoginKeepsServers(st.w, st.procs[step.tok]);
    } else if step.TeardownNext? {
      TeardownShrinks(st.w, st.procs[step.tok], "");
    }
  }

  lemma {:induction false} ServersFixed(st: State, steps: seq<Step>)
    requires ValidRun(st, steps)
    ensures Run(st, steps).w.local.Keys == st.w.local.Keys
    decreases |steps|
  {
    if steps == [] {
    } else {
      StepKeepsServers(st, steps[0]);
      ServersFixed(Apply(st, steps[0]), steps[1..]);
    }
  }

  // ------------------------------------------------------------------------------------------
  // Checks that are torn or give up a teardown, exactly
  // ------------------------------------------------------------------------------------------

  /** The users bound to a session that is not in `live`. */
  function Outside(users: map<Uid, SessionId>, live: set<SessionId>): set<Uid> {
    set u | u in users && users[u] !in live
  }

  /** The sessions in `live` that no user is bound to. */
  function Idle(users: map<Uid, SessionId>, live: set<SessionId>): set<SessionId> {
    set x | x in live && forall u :: u in users ==> users[u] != x
  }

  lemma {:induction false} ImageSmaller(users: map<Uid, SessionId>, keys: set<Uid>, s: set<SessionId>)
    requires keys <= users.Keys
    requires forall x :: x in s ==> exists u :: u in keys && users[u] == x
    ensures |s| <= |keys|
    decreases |s|
  {
    if s == {} {
    } else {
      var x := Pick(s);
      var u :| u in keys && users[u] == x;
      ImageSmaller(users, keys - {u}, s - {x});
    }
  }

  lemma Parts<T>(whole: set<T>, part: set<T>)
    requires part <= whole
    ensures |whole| == |whole - part| + |part|
  {
    assert whole == (whole - part) + part;
  }

  /** A number of live sessions covers the users if and only if those it left out are no more than the
      live sessions without a user. */
  lemma LiveCoversIff(users: map<Uid, SessionId>, live: set<SessionId>)
    requires forall u, v :: u in users && v in users && users[u] == users[v] ==> u == v
    ensures |users| <= |live| <==> |Outside(users, live)| <= |Idle(users, live)|
  {
    var outside, idle := Outside(users, live), Idle(users, live);
    var inside := users.Keys - outside;
    var taken := live - idle;
    InjectiveSmaller(users, inside, taken);
    ImageSmaller(users, inside, taken);
    Parts(users.Keys, outside);
    Parts(live, idle);
    assert |users.Keys| == |users|;
  }

  /** The step writes the counter of `s`. */
  predicate WritesCount(st: State, step: Step, s: ServerName) {
    match step
    case LoginNext(tok) => IsLogin(st, tok) && st.procs[tok].ph.CountRead? && st.procs[tok].s == s
    case Tick(s', _, _) => s' == s
    case TickWrite(s') => s' == s
    case Stop(s', _) => s' == s
    case Boot(s') => s' == s
    case _ => false
  }

  predicate Unwritten(st: State, steps: seq<Step>, s: ServerName)
    requires Possible(st, steps)
    decreases |steps|
  {
    steps == [] || (!WritesCount(st, steps[0], s) && Unwritten(Apply(st, steps[0]), steps[1..], s))
  }

  lemma StepLeavesCount(st: State, step: Step, s: ServerName)
    requires Enabled(st, step) && !WritesCount(st, step, s)
    ensures CountOf(Apply(st, step), s) == CountOf(st, s)
  {
  }

  lemma {:induction false} RunLeavesCount(st: State, steps: seq<Step>, s: ServerName)
    requires Possible(st, steps) && Unwritten(st, steps, s)
    ensures CountOf(Run(st, steps), s) == CountOf(st, s)
    decreases |steps|
  {
    if steps == [] {
    } else {
      StepLeavesCount(st, steps[0], s);
      RunLeavesCount(Apply(st, steps[0]), steps[1..], s);
    }
  }

  /** A check that counted the sessions `live` of `s` some steps ago writes their number now, and
      anything may happen, logins and teardowns that give up among it, until the counter is written
      next. At each moment of this the bound holds if and only if the users bound to sessions outside
      `live` are no more than the sessions of `live` without a user. */
  lemma TornCheckIff(st: State, s: ServerName, steps: seq<Step>)
    requires Inv(st) && Enabled(st, TickWrite(s)) && ValidRun(Apply(st, TickWrite(s)), steps)
    requires Unwritten(Apply(st, TickWrite(s)), steps, s)
    ensures var st' := Run(Apply(st, TickWrite(s)), steps);
            var users := Users(st'.w, s);
            |users| <= CountOf(st', s) <==> |Outside(users, st.checks[s])| <= |Idle(users, st.checks[s])|
  {
    var st1 := Apply(st, TickWrite(s));
    var st' := Run(st1, steps);
    StepKeepsInv(st, TickWrite(s));
    InvOverRun(st1, steps);
    RunLeavesCount(st1, steps, s);
    UsersInjective(st'.w, s);
    LiveCoversIff(Users(st'.w, s), st.checks[s]);
  }

  lemma NoneOutside(users: map<Uid, SessionId>, live: set<SessionId>)
    requires forall u :: u in users ==> users[u] in live
    ensures Outside(users, live) == {}
  {
    assert forall u :: u !in Outside(users, live);
  }

  /** In particular it holds as long as every session bound on `s` is one the check counted. */
  lemma TornCheckCovers(st: State, s: ServerName, steps: seq<Step>)
    requires Inv(st) && Enabled(st, TickWrite(s)) && ValidRun(Apply(st, TickWrite(s)), steps)
    requires Unwritten(Apply(st, TickWrite(s)), steps, s)
    requires var users := Users(Run(Apply(st, TickWrite(s)), steps).w, s);
             forall u :: u in users ==> users[u] in st.checks[s]
    ensures |Users(Run(Apply(st, TickWrite(s)), steps).w, s)| <= CountOf(Run(Apply(st, TickWrite(s)), steps), s)
  {
    TornCheckIff(st, s, steps);
    NoneOutside(Users(Run(Apply(st, TickWrite(s)), steps).w, s), st.checks[s]);
  }

  /** A whole check that finds `expired` and can tear down only `torn` of them keeps the bound if and
      only if the users it leaves bound to the others are no more than the live sessions without a
      user. */
  lemma GivenUpIff(st: State, s: ServerName, expired: set<SessionId>, torn: set<SessionId>)
    requires Inv(st) && Enabled(st, Tick(s, expired, torn)) && Guard(st, Tick(s, expired, torn))
    ensures var st' := Apply(st, Tick(s, expired, torn));
            var users := Users(st.w, s);
            var left := set u | u in users && users[u] in expired - torn;
            |Users(st'.w, s)| <= CountOf(st', s) <==> |left| <= |Idle(users, st.w.local[s].sessions - expired)|
  {
    var users := Users(st.w, s);
    var users' := Users(TickWorld(st.w, s, torn), s);
    var live := st.w.local[s].sessions - expired;
    TickUsers(st.w, s, torn);
    LiveCoversIff(users', live);
    GivenUpUsers(st.w, s, expired, torn);
  }

  lemma GivenUpUsers(w: World, s: ServerName, expired: set<SessionId>, torn: set<SessionId>)
    requires TablesOk(w) && s in w.local && torn <= expired
    ensures var users, users', live := Users(w, s), Users(TickWorld(w, s, torn), s), w.local[s].sessions - expired;
            && Outside(users', live) == (set u | u in users && users[u] in expired - torn)
            && Idle(users', live) == Idle(users, live)
  {
    var users, users' := Users(w, s), Users(TickWorld(w, s, torn), s);
    forall u
      ensures u in users' <==> u in users && users[u] !in torn
      ensures u in users' ==> users'[u] == users[u] && users[u] in w.local[s].sessions
    {
      if u in users {
        TickBound(w, s, torn, u, s, users[u]);
        assert IsBound(w, u, s, users[u]);
      }
    }
  }
}
