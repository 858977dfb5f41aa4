/** What the guards of the login protocol are for: for each of them a run, from the start of any two
    servers, in which one step breaks that guard alone and which ends with a user bound twice; and two
    runs in which a heartbeat check breaks the bound of the load counter. */
module ClusterLimits {
  import opened LeaseLock
  import opened Registry
  import opened Cluster
  import opened ClusterSequential
  import opened ClusterRuns
  import ClusterLoad

  /** A run that is under the guards but for one step. */
  ghost predicate BreaksOnce(st: State, before: seq<Step>, bad: Step, after: seq<Step>) {
    && ValidRun(st, before)
    && Enabled(Run(st, before), bad) && !Guard(Run(st, before), bad)
    && ValidRun(Apply(Run(st, before), bad), after)
  }

  /** The end of such a run. */
  function BrokenEnd(st: State, before: seq<Step>, bad: Step, after: seq<Step>): State
    requires BreaksOnce(st, before, bad, after)
  {
    Run(Apply(Run(st, before), bad), after)
  }

  /** It is one run of the transition system. */
  lemma BrokenIsPossible(st: State, before: seq<Step>, bad: Step, after: seq<Step>)
    requires BreaksOnce(st, before, bad, after)
    ensures var steps := before + ([bad] + after);
            Possible(st, steps) && Run(st, steps) == BrokenEnd(st, before, bad, after)
  {
    RunOne(Run(st, before), bad);
    RunPlus(Run(st, before), [bad], after);
    RunPlus(st, before, [bad] + after);
  }

  /** The broken step leads to a user with two bindings. */
  ghost predicate EndsInTwo(st: State, before: seq<Step>, bad: Step, after: seq<Step>, u: Uid) {
    BreaksOnce(st, before, bad, after) && !AtMostOne(BrokenEnd(st, before, bad, after).w, u)
  }

  /** The lock uuids that the logins and the teardown of a run draw. */
  datatype Ids = Ids(t1: string, c1: string, t2: string, t3: string, c3: string)

  predicate Distinct(ids: Ids) {
    && ids.t1 != ids.c1 && ids.t1 != ids.t2 && ids.t1 != ids.t3 && ids.t1 != ids.c3
    && ids.c1 != ids.t2 && ids.c1 != ids.t3 && ids.c1 != ids.c3
    && ids.t2 != ids.t3 && ids.t2 != ids.c3 && ids.t3 != ids.c3
  }

  /** The uuids drawn after those of the first login. */
  predicate LaterFresh(ids: Ids, used: set<string>) {
    Distinct(ids) && ids.t2 !in used && ids.t3 !in used && ids.c3 !in used
  }

  predicate Fresh(ids: Ids, used: set<string>) {
    LaterFresh(ids, used) && ids.t1 !in used && ids.c1 !in used
  }

  const IDS := Ids("t1", "c1", "t2", "t3", "c3")

  /** A valid run in front. */
  lemma BreaksLater(s0: State, a: seq<Step>, s1: State, before: seq<Step>, bad: Step, after: seq<Step>, u: Uid)
    requires ValidRun(s0, a) && Run(s0, a) == s1 && EndsInTwo(s1, before, bad, after, u)
    ensures EndsInTwo(s0, a + before, bad, after, u)
  {
    RunPlus(s0, a, before);
  }

  // ------------------------------------------------------------------------------------------
  // Two servers, a session on each
  // ------------------------------------------------------------------------------------------

  /** The world when servers a and b have accepted x and y. */
  ghost predicate TwoWorld(w: World, a: ServerName, b: ServerName, x: SessionId, y: SessionId) {
    && w.ip == map[] && w.sid == map[]
    && w.local == map[a := Local({x}, map[]), b := Local({y}, map[])]
    && w.objs == map[x := SessionObj(a, 0), y := SessionObj(b, 0)]
  }

  /** Nobody is at work, and the counters are there. */
  ghost predicate Quiet(st: State, a: ServerName, b: ServerName) {
    && st.procs == map[] && a in st.count && b in st.count && !Held(st.locks, CountLock, st.now)
    && forall u :: !Held(st.locks, UserLock(u), st.now)
  }

  lemma BootTwo(a: ServerName, b: ServerName) returns (steps: seq<Step>, st: State)
    requires a != b
    ensures ValidRun(Init({a, b}), steps) && Run(Init({a, b}), steps) == st
    ensures st == Init({a, b}).(count := map[a := 0, b := 0])
  {
    var s0 := Init({a, b});
    RunOne(s0, Boot(a));
    var s1 := Apply(s0, Boot(a));
    RunOne(s1, Boot(b));
    RunPlus(s0, [Boot(a)], [Boot(b)]);
    steps, st := [Boot(a)] + [Boot(b)], Apply(s1, Boot(b));
    assert st.count == map[a := 0, b := 0];
  }

  lemma StartTwo(a: ServerName, b: ServerName, x: SessionId, y: SessionId) returns (steps: seq<Step>, st: State)
    requires a != b && x != y
    ensures ValidRun(Init({a, b}), steps) && Run(Init({a, b}), steps) == st
    ensures TwoWorld(st.w, a, b, x, y) && Quiet(st, a, b) && st.used == {} && st.checks == map[] && st.locks == map[]
  {
    var s1: State;
    steps, s1 := BootTwo(a, b);
    RunOne(s1, Accept(a, x));
    var s2 := Apply(s1, Accept(a, x));
    RunOne(s2, Accept(b, y));
    RunPlus(s1, [Accept(a, x)], [Accept(b, y)]);
    RunPlus(Init({a, b}), steps, [Accept(a, x)] + [Accept(b, y)]);
    steps, st := steps + ([Accept(a, x)] + [Accept(b, y)]), Apply(s2, Accept(b, y));
    assert {} + {x} == {x} && {} + {y} == {y};
    assert st.w.local == map[a := Local({x}, map[]), b := Local({y}, map[])];
  }

  lemma EnterMakesTwo(w: World, s: ServerName, u: Uid, x: SessionId, s': ServerName, y: SessionId)
    requires s in w.local && u !in w.local[s].users && IsBound(w, u, s', y) && s' != s
    ensures !AtMostOne(Enter(w, s, u, x), u)
  {
    EnterBound(w, s, u, x, u, s, x);
    EnterBound(w, s, u, x, u, s', y);
  }

  /** A user without a Redis entry is not kicked. */
  lemma FirstLogin(w: World, s: ServerName, u: Uid, x: SessionId)
    requires u !in w.ip && s in w.local && u !in w.local[s].users
    ensures LoginAll(w, s, u, x, true) == Enter(w, s, u, x) && IsBound(Enter(w, s, u, x), u, s, x)
  {
    EnterBound(w, s, u, x, u, s, x);
  }

  // ------------------------------------------------------------------------------------------
  // The kick is lost
  // ------------------------------------------------------------------------------------------

  /** The login of `x` has taken the user lock and read `uid_at_ip`. */
  lemma BeginAndRead(st: State, s: ServerName, u: Uid, x: SessionId, tok: string) returns (steps: seq<Step>, st': State)
    requires Enabled(st, LoginBegin(s, u, x, tok)) && Guard(st, LoginBegin(s, u, x, tok))
    ensures ValidRun(st, steps) && Run(st, steps) == st'
    ensures st' == st.(locks := SetNx(st.locks, UserLock(u), tok, st.now, LOCK_TIMEOUT), used := st.used + {tok},
                       procs := st.procs[tok := Login(s, u, x, if u in st.w.ip then Kicking(st.w.ip[u]) else Kicked)])
  {
    var begin := LoginBegin(s, u, x, tok);
    var s1 := Apply(st, begin);
    RunOne(st, begin);
    RunOne(s1, LoginNext(tok));
    RunPlus(st, [begin], [LoginNext(tok)]);
    steps, st' := [begin] + [LoginNext(tok)], LoginApply(s1, tok);
    assert st'.procs == st.procs[tok := Login(s, u, x, if u in st.w.ip then Kicking(st.w.ip[u]) else Kicked)];
  }

  /** From any state in which `u` is bound on the server Redis names and may log in on another. */
  lemma LostKickFrom(st: State, s: ServerName, u: Uid, x: SessionId, tok: string, c: string)
    returns (before: seq<Step>, bad: Step, after: seq<Step>)
    requires Enabled(st, LoginBegin(s, u, x, tok)) && Guard(st, LoginBegin(s, u, x, tok))
    requires !Held(st.locks, CountLock, st.now) && c !in st.used && c != tok && s in st.count
    requires u in st.w.ip && st.w.ip[u] != s && u in Users(st.w, st.w.ip[u]) && u !in st.w.local[s].users
    ensures bad.KickLost? && EndsInTwo(st, before, bad, after, u)
  {
    var s2: State;
    before, s2 := BeginAndRead(st, s, u, x, tok);
    bad, after := KickLost(tok), LoginRest(tok, c);
    var s3 := Apply(s2, bad);
    RestIsRun(s3, tok, c);
    AfterRestFacts(s3, tok, c);
    EnterMakesTwo(st.w, s, u, x, st.w.ip[u], Users(st.w, st.w.ip[u])[u]);
  }

  /** `u` is logged in on b and logs in on a; the kick RPC from a to b fails. */
  lemma LostKickBreaks(a: ServerName, b: ServerName, x: SessionId, y: SessionId, u: Uid)
    requires a != b && x != y && u != 0
    ensures exists before, bad: Step, after :: bad.KickLost? && EndsInTwo(Init({a, b}), before, bad, after, u)
  {
    var start, s0 := StartTwo(a, b, x, y);
    var login, s1 := LoginOnB(s0, a, b, x, y, u, IDS);
    var before, bad, after := LostKickFrom(s1, a, u, x, IDS.t3, IDS.c3);
    BreaksLater(s0, login, s1, before, bad, after, u);
    BreaksLater(Init({a, b}), start, s0, login + before, bad, after, u);
  }

  lemma LoginOnB(st: State, a: ServerName, b: ServerName, x: SessionId, y: SessionId, u: Uid, ids: Ids)
    returns (steps: seq<Step>, st': State)
    requires a != b && x != y && u != 0 && TwoWorld(st.w, a, b, x, y) && Quiet(st, a, b) && Fresh(ids, st.used)
    ensures ValidRun(st, steps) && Run(st, steps) == st' && st'.w == Enter(st.w, b, u, y)
    ensures a in st'.count && st'.procs == map[] && st'.used == st.used + {ids.t1, ids.c1}
    ensures !Held(st'.locks, UserLock(u), st'.now) && !Held(st'.locks, CountLock, st'.now)
    ensures IsBound(st'.w, u, b, y) && st'.w.local[a] == Local({x}, map[]) && st'.w.objs[x] == SessionObj(a, 0)
  {
    LoginIsRun(st, b, u, y, ids.t1, ids.c1);
    FirstLogin(st.w, b, u, y);
    steps := LoginSteps(st.w, b, u, y, ids.t1, ids.c1);
    st' := Run(st, steps);
  }

  // ------------------------------------------------------------------------------------------
  // The lease lapses
  // ------------------------------------------------------------------------------------------

  /** The login of `x` on a is past its kick when the lease of its lock ends; a login of `y` for the same
      user runs on b from end to end; then the one on a goes on. */
  lemma LapsedLeaseFrom(st: State, a: ServerName, b: ServerName, x: SessionId, y: SessionId, u: Uid, ids: Ids)
    returns (before: seq<Step>, bad: Step, after: seq<Step>)
    requires a != b && x != y && u != 0 && TwoWorld(st.w, a, b, x, y) && Quiet(st, a, b) && Fresh(ids, st.used)
    ensures bad.Advance? && EndsInTwo(st, before, bad, after, u)
  {
    var s1: State;
    before, s1 := BeginAndRead(st, a, u, x, ids.t1);
    bad := Advance(LOCK_TIMEOUT);
    Lapse(s1, ids.t1, u);
    assert s1.procs == map[ids.t1 := Login(a, u, x, Kicked)];
    after := LapsedTail(Apply(s1, bad), a, b, x, y, u, ids);
  }

  lemma Lapse(st: State, tok: string, u: Uid)
    requires IsLogin(st, tok) && st.procs[tok].u == u
    requires UserLock(u) in st.locks && st.locks[UserLock(u)].expires == st.now + LOCK_TIMEOUT
    ensures var bad := Advance(LOCK_TIMEOUT);
            !Guard(st, bad) && !Held(Apply(st, bad).locks, UserLock(u), Apply(st, bad).now)
  {
    assert InSection(st.procs[tok]) && !Held(st.locks, UserLock(u), st.now + LOCK_TIMEOUT);
  }

  lemma LapsedTail(st: State, a: ServerName, b: ServerName, x: SessionId, y: SessionId, u: Uid, ids: Ids)
    returns (after: seq<Step>)
    requires a != b && x != y && u != 0 && TwoWorld(st.w, a, b, x, y)
    requires st.procs == map[ids.t1 := Login(a, u, x, Kicked)] && a in st.count && b in st.count
    requires ids.c1 !in st.used && LaterFresh(ids, st.used)
    requires !Held(st.locks, UserLock(u), st.now) && !Held(st.locks, CountLock, st.now)
    ensures ValidRun(st, after) && !AtMostOne(Run(st, after).w, u)
  {
    var login, s1 := LoginBeside(st, b, u, y, ids.t3, ids.c3);
    after := RestAfter(st, login, s1, a, u, x, b, y, ids);
  }

  /** A login of a user nobody is named for runs from end to end, whatever else is in progress. */
  lemma LoginBeside(st: State, b: ServerName, u: Uid, y: SessionId, tok: string, c: string)
    returns (login: seq<Step>, st': State)
    requires Enabled(st, LoginBegin(b, u, y, tok)) && Guard(st, LoginBegin(b, u, y, tok))
    requires !Held(st.locks, CountLock, st.now) && c !in st.used && c != tok && tok !in st.procs && b in st.count
    requires u !in st.w.ip && u !in st.w.local[b].users
    ensures login == LoginSteps(st.w, b, u, y, tok, c)
    ensures ValidRun(st, login) && Run(st, login) == st' && LoggedIn(st, st', b, u, y, tok, c)
    ensures st'.w == Enter(st.w, b, u, y) && IsBound(st'.w, u, b, y)
  {
    LoginIsRun(st, b, u, y, tok, c);
    FirstLogin(st.w, b, u, y);
    login := LoginSteps(st.w, b, u, y, tok, c);
    st' := Run(st, login);
  }

  lemma RestAfter(st: State, login: seq<Step>, s1: State, a: ServerName, u: Uid, x: SessionId,
                  b: ServerName, y: SessionId, ids: Ids)
    returns (after: seq<Step>)
    requires ValidRun(st, login) && Run(st, login) == s1 && IsBound(s1.w, u, b, y) && a != b
    requires IsLogin(s1, ids.t1) && s1.procs[ids.t1] == Login(a, u, x, Kicked) && ids.c1 !in s1.used
    requires a in s1.count && !Held(s1.locks, CountLock, s1.now) && a in s1.w.local && u !in s1.w.local[a].users
    ensures ValidRun(st, after) && !AtMostOne(Run(st, after).w, u)
  {
    RestIsRun(s1, ids.t1, ids.c1);
    AfterRestFacts(s1, ids.t1, ids.c1);
    RunPlus(st, login, LoginRest(ids.t1, ids.c1));
    EnterMakesTwo(s1.w, a, u, x, b, y);
    after := login + LoginRest(ids.t1, ids.c1);
  }

  lemma LapsedLeaseBreaks(a: ServerName, b: ServerName, x: SessionId, y: SessionId, u: Uid)
    requires a != b && x != y && u != 0
    ensures exists before, bad: Step, after :: bad.Advance? && EndsInTwo(Init({a, b}), before, bad, after, u)
  {
    var start, s0 := StartTwo(a, b, x, y);
    var before, bad, after := LapsedLeaseFrom(s0, a, b, x, y, u, IDS);
    BreaksLater(Init({a, b}), start, s0, before, bad, after, u);
  }

  // ------------------------------------------------------------------------------------------
  // The lease of a teardown lapses
  // ------------------------------------------------------------------------------------------

  /** The world when a has accepted x and z, and b has accepted y. */
  ghost predicate ThreeWorld(w: World, a: ServerName, b: ServerName, x: SessionId, y: SessionId, z: SessionId) {
    && w.ip == map[] && w.sid == map[]
    && w.local == map[a := Local({x, z}, map[]), b := Local({y}, map[])]
    && w.objs == map[x := SessionObj(a, 0), y := SessionObj(b, 0), z := SessionObj(a, 0)]
  }

  lemma StartThree(a: ServerName, b: ServerName, x: SessionId, y: SessionId, z: SessionId)
    returns (steps: seq<Step>, st: State)
    requires a != b && x != y && x != z && y != z
    ensures ValidRun(Init({a, b}), steps) && Run(Init({a, b}), steps) == st
    ensures ThreeWorld(st.w, a, b, x, y, z) && Quiet(st, a, b) && st.used == {}
  {
    var s2: State;
    steps, s2 := StartTwo(a, b, x, y);
    RunOne(s2, Accept(a, z));
    RunPlus(Init({a, b}), steps, [Accept(a, z)]);
    ThirdWorld(s2.w, a, b, x, y, z);
    steps, st := steps + [Accept(a, z)], Apply(s2, Accept(a, z));
  }

  lemma ThirdWorld(w: World, a: ServerName, b: ServerName, x: SessionId, y: SessionId, z: SessionId)
    requires a != b && x != y && x != z && y != z && TwoWorld(w, a, b, x, y)
    ensures ThreeWorld(AcceptWorld(w, a, z), a, b, x, y, z)
  {
    var w' := AcceptWorld(w, a, z);
    assert {x} + {z} == {x, z};
    assert w'.local == map[a := Local({x, z}, map[]), b := Local({y}, map[])];
  }

  /** The teardown of x has found that Redis names x. */
  lemma TearToDelete(st: State, a: ServerName, u: Uid, x: SessionId, tok: string) returns (steps: seq<Step>, st': State)
    requires a in st.w.local && x in st.w.objs && st.w.objs[x] == SessionObj(a, u) && tok !in st.used
    requires st.procs == map[] && !Held(st.locks, UserLock(u), st.now) && u in st.w.sid && st.w.sid[u] == x
    ensures ValidRun(st, steps) && Run(st, steps) == st'
    ensures st' == st.(locks := SetNx(st.locks, UserLock(u), tok, st.now, LOCK_TIMEOUT),
                       procs := map[tok := Teardown(a, u, x, DelSid)], used := st.used + {tok})
  {
    var begin, next := TeardownBegin(a, x, tok), TeardownNext(tok);
    var s1, s2 := Apply(st, begin), AfterChecking(st, a, x, tok);
    TeardownBegins(st, a, x, tok);
    RunOne(st, begin);
    RunOne(s1, next);
    RunOne(s2, next);
    RunPlus(s1, [next], [next]);
    RunPlus(st, [begin], [next] + [next]);
    steps, st' := [begin] + ([next] + [next]), Apply(s2, next);
    assert st'.procs == map[tok := Teardown(a, u, x, DelSid)];
  }

  /** The world when that teardown has gone on to its end. */
  function TornWorld(w: World, a: ServerName, u: Uid, x: SessionId): World {
    Clear(w.(sid := w.sid - {u}, ip := w.ip - {u}), a, x)
  }

  lemma TearDeletes(st: State, a: ServerName, u: Uid, x: SessionId, tok: string) returns (steps: seq<Step>, st': State)
    requires st.procs == map[tok := Teardown(a, u, x, DelSid)]
    ensures ValidRun(st, steps) && Run(st, steps) == st'
    ensures st' == st.(w := st.w.(sid := st.w.sid - {u}, ip := st.w.ip - {u}),
                       procs := map[tok := Teardown(a, u, x, ClearOwn)])
  {
    var next := TeardownNext(tok);
    var s1 := Apply(st, next);
    RunOne(st, next);
    RunOne(s1, next);
    RunPlus(st, [next], [next]);
    steps, st' := [next] + [next], Apply(s1, next);
    assert st'.procs == map[tok := Teardown(a, u, x, ClearOwn)];
  }

  lemma TearClears(st: State, a: ServerName, u: Uid, x: SessionId, tok: string) returns (steps: seq<Step>, st': State)
    requires st.procs == map[tok := Teardown(a, u, x, ClearOwn)]
    ensures ValidRun(st, steps) && Run(st, steps) == st'
    ensures st' == st.(w := Clear(st.w, a, x), procs := map[],
                       locks := CompareDelete(st.locks, UserLock(u), tok, st.now))
  {
    var next := TeardownNext(tok);
    assert !InLogin(st, x);
    var s1 := Apply(st, next);
    RunOne(st, next);
    RunOne(s1, next);
    RunPlus(st, [next], [next]);
    steps, st' := [next] + [next], Apply(s1, next);
    assert st'.procs == map[];
  }

  lemma TearOn(st: State, a: ServerName, u: Uid, x: SessionId, tok: string) returns (steps: seq<Step>, st': State)
    requires st.procs == map[tok := Teardown(a, u, x, DelSid)]
    ensures ValidRun(st, steps) && Run(st, steps) == st'
    ensures st' == st.(w := TornWorld(st.w, a, u, x), procs := map[],
                       locks := CompareDelete(st.locks, UserLock(u), tok, st.now))
  {
    var deletes, s1 := TearDeletes(st, a, u, x, tok);
    var clears, s2 := TearClears(s1, a, u, x, tok);
    RunPlus(st, deletes, clears);
    steps, st' := deletes + clears, s2;
  }

  /** y is bound to u on b, and Redis does not name it; z may log in on a. */
  ghost predicate Unnamed(w: World, a: ServerName, b: ServerName, y: SessionId, z: SessionId, u: Uid) {
    && u !in w.ip && a in w.local && u !in w.local[a].users && IsBound(w, u, b, y)
    && z in w.local[a].sessions && z in w.objs && w.objs[z] == SessionObj(a, 0)
  }

  /** x is logged in on a when y logs in on b: what the teardown of x then leaves. */
  lemma OvertakenWorld(w0: World, w: World, a: ServerName, b: ServerName,
                       x: SessionId, y: SessionId, z: SessionId, u: Uid)
    requires a != b && x != y && x != z && y != z && u != 0
    requires ThreeWorld(w0, a, b, x, y, z) && w == LoginAll(Enter(w0, a, u, x), b, u, y, true)
    ensures Unnamed(TornWorld(w, a, u, x), a, b, y, z, u)
  {
    var w1 := Enter(w0, a, u, x);
    assert w1.ip[u] == a && w1.local[a].users == map[u := x] && w1.objs[x] == SessionObj(a, u);
    assert Kick(w1, b, u, true) == Clear(w1, a, x);
    assert Clear(w1, a, x).local[a].users == map[];
  }

  /** x logs in on a, and its teardown begins. */
  lemma LoginAndTear(st: State, a: ServerName, u: Uid, x: SessionId, ids: Ids) returns (steps: seq<Step>, st': State)
    requires Enabled(st, LoginBegin(a, u, x, ids.t1)) && Guard(st, LoginBegin(a, u, x, ids.t1)) && a in st.count
    requires st.procs == map[] && !Held(st.locks, CountLock, st.now) && Fresh(ids, st.used)
    requires u !in st.w.ip && u !in st.w.local[a].users
    ensures ValidRun(st, steps) && Run(st, steps) == st' && st'.w == Enter(st.w, a, u, x)
    ensures st'.procs == map[ids.t2 := Teardown(a, u, x, DelSid)] && st.count.Keys <= st'.count.Keys
    ensures st'.used == st.used + {ids.t1, ids.c1} + {ids.t2} && !Held(st'.locks, CountLock, st'.now)
    ensures UserLock(u) in st'.locks && st'.locks[UserLock(u)].expires == st'.now + LOCK_TIMEOUT
  {
    var login, s1 := LoginBeside(st, a, u, x, ids.t1, ids.c1);
    assert s1.w.objs[x] == SessionObj(a, u) && u in s1.w.sid && s1.w.sid[u] == x && a in s1.w.local;
    var tear := [];
    tear, st' := TearToDelete(s1, a, u, x, ids.t2);
    RunPlus(st, login, tear);
    steps := login + tear;
  }

  /** The teardown of x on a is about to delete the Redis entries when the lease of its lock ends; y logs in
      on b from end to end; then the teardown goes on, and z logs in on a. */
  lemma OvertakenFrom(st: State, a: ServerName, b: ServerName, x: SessionId, y: SessionId, z: SessionId, u: Uid,
                      tok: string, c: string, ids: Ids)
    returns (before: seq<Step>, bad: Step, after: seq<Step>)
    requires a != b && x != y && x != z && y != z && u != 0 && ThreeWorld(st.w, a, b, x, y, z) && Quiet(st, a, b)
    requires Fresh(ids, st.used) && tok != c && tok !in st.used && c !in st.used && Apart(tok, ids) && Apart(c, ids)
    ensures bad.Advance? && EndsInTwo(st, before, bad, after, u)
  {
    var s1: State;
    before, s1 := LoginAndTear(st, a, u, x, ids);
    bad := Advance(LOCK_TIMEOUT);
    LapseTear(s1, ids.t2, u);
    after := OvertakenTail(Apply(s1, bad), st.w, a, b, x, y, z, u, tok, c, ids);
  }

  predicate Apart(tok: string, ids: Ids) {
    tok != ids.t1 && tok != ids.c1 && tok != ids.t2 && tok != ids.t3 && tok != ids.c3
  }

  lemma LapseTear(st: State, tok: string, u: Uid)
    requires IsTeardown(st, tok) && InSection(st.procs[tok]) && st.procs[tok].u == u
    requires UserLock(u) in st.locks && st.locks[UserLock(u)].expires == st.now + LOCK_TIMEOUT
    ensures var bad := Advance(LOCK_TIMEOUT);
            !Guard(st, bad) && !Held(Apply(st, bad).locks, UserLock(u), Apply(st, bad).now)
  {
    assert !Held(st.locks, UserLock(u), st.now + LOCK_TIMEOUT);
  }

  /** y logs in on b from end to end. */
  lemma OvertakenTail(st: State, w0: World, a: ServerName, b: ServerName, x: SessionId, y: SessionId, z: SessionId,
                      u: Uid, tok: string, c: string, ids: Ids)
    returns (after: seq<Step>)
    requires a != b && x != y && x != z && y != z && u != 0 && ThreeWorld(w0, a, b, x, y, z)
    requires st.w == Enter(w0, a, u, x) && st.procs == map[ids.t2 := Teardown(a, u, x, DelSid)]
    requires ids.t3 !in st.used && ids.c3 !in st.used && Distinct(ids) && a in st.count && b in st.count
    requires tok != c && tok !in st.used && c !in st.used && Apart(tok, ids) && Apart(c, ids)
    requires !Held(st.locks, UserLock(u), st.now) && !Held(st.locks, CountLock, st.now)
    ensures ValidRun(st, after) && !AtMostOne(Run(st, after).w, u)
  {
    var overtake, s1 := LoginOver(st, b, u, y, ids.t3, ids.c3);
    OvertakenWorld(w0, s1.w, a, b, x, y, z, u);
    var rest := OvertakenRest(s1, a, b, x, y, z, u, ids.t2, tok, c);
    RunPlus(st, overtake, rest);
    after := overtake + rest;
  }

  lemma LoginOver(st: State, s: ServerName, u: Uid, x: SessionId, tok: string, c: string)
    returns (login: seq<Step>, st': State)
    requires Enabled(st, LoginBegin(s, u, x, tok)) && Guard(st, LoginBegin(s, u, x, tok))
    requires !Held(st.locks, CountLock, st.now) && c !in st.used && c != tok && tok !in st.procs && s in st.count
    ensures ValidRun(st, login) && Run(st, login) == st' && LoggedIn(st, st', s, u, x, tok, c)
  {
    LoginIsRun(st, s, u, x, tok, c);
    login := LoginSteps(st.w, s, u, x, tok, c);
    st' := Run(st, login);
  }

  /** The teardown goes on, and z logs in on a. */
  lemma OvertakenRest(st: State, a: ServerName, b: ServerName, x: SessionId, y: SessionId, z: SessionId, u: Uid,
                      torn: string, tok: string, c: string)
    returns (rest: seq<Step>)
    requires a != b && u != 0 && st.procs == map[torn := Teardown(a, u, x, DelSid)] && a in st.count
    requires tok != c && tok !in st.used && c !in st.used
    requires !Held(st.locks, UserLock(u), st.now) && !Held(st.locks, CountLock, st.now)
    requires Unnamed(TornWorld(st.w, a, u, x), a, b, y, z, u)
    ensures ValidRun(st, rest) && !AtMostOne(Run(st, rest).w, u)
  {
    var tear, s1 := TearOn(st, a, u, x, torn);
    var login, s2 := LoginBeside(s1, a, u, z, tok, c);
    EnterMakesTwo(s1.w, a, u, z, b, y);
    RunPlus(st, tear, login);
    rest := tear + login;
  }

  /** A login overtakes a teardown of its user whose lease has lapsed. */
  lemma OvertakenTeardownBreaks(a: ServerName, b: ServerName, x: SessionId, y: SessionId, z: SessionId, u: Uid)
    requires a != b && x != y && x != z && y != z && u != 0
    ensures exists before, bad: Step, after :: bad.Advance? && EndsInTwo(Init({a, b}), before, bad, after, u)
  {
    var start, s0 := StartThree(a, b, x, y, z);
    var before, bad, after := OvertakenFrom(s0, a, b, x, y, z, u, "t4", "c4", IDS);
    BreaksLater(Init({a, b}), start, s0, before, bad, after, u);
  }

  // ------------------------------------------------------------------------------------------
  // The session is not listed when it is bound
  // ------------------------------------------------------------------------------------------

  /** The session x of server a, which a no longer lists, has been bound to u; it is torn down, and u
      logs in on b: the first binding is still there. */
  lemma UnlistedTail(st: State, w: World, a: ServerName, b: ServerName, x: SessionId, y: SessionId, u: Uid, ids: Ids)
    returns (after: seq<Step>)
    requires a != b && x != y && u != 0 && Unlisted(w, a, b, x, y, u) && st.w == LoginAll(w, a, u, x, true)
    requires st.procs == map[] && b in st.count && LaterFresh(ids, st.used)
    requires !Held(st.locks, UserLock(u), st.now) && !Held(st.locks, CountLock, st.now)
    ensures ValidRun(st, after) && !AtMostOne(Run(st, after).w, u)
  {
    assert st.w.objs[x] == SessionObj(a, u) && st.w.objs[y] == SessionObj(b, 0) && st.w.local[b] == w.local[b];
    TeardownIsRun(st, a, x, ids.t2);
    var teardown := TeardownSteps(st.w, a, u, x, ids.t2);
    var s1 := Run(st, teardown);
    LoginIsRun(s1, b, u, y, ids.t3, ids.c3);
    var login := LoginSteps(s1.w, b, u, y, ids.t3, ids.c3);
    RunPlus(st, teardown, login);
    ClearedSessionStaysBound(w, u, a, x, b, y);
    after := teardown + login;
  }

  /** The same with a run in front. */
  lemma UnlistedLater(s0: State, steps: seq<Step>, st: State, w: World, a: ServerName, b: ServerName,
                      x: SessionId, y: SessionId, u: Uid, ids: Ids)
    returns (after: seq<Step>)
    requires ValidRun(s0, steps) && Run(s0, steps) == st
    requires a != b && x != y && u != 0 && Unlisted(w, a, b, x, y, u) && st.w == LoginAll(w, a, u, x, true)
    requires st.procs == map[] && b in st.count && LaterFresh(ids, st.used)
    requires !Held(st.locks, UserLock(u), st.now) && !Held(st.locks, CountLock, st.now)
    ensures ValidRun(s0, after) && !AtMostOne(Run(s0, after).w, u)
  {
    var tail := UnlistedTail(st, w, a, b, x, y, u, ids);
    RunPlus(s0, steps, tail);
    after := steps + tail;
  }

  /** A no longer lists x, b lists y, and nobody is bound or named. */
  ghost predicate Unlisted(w: World, a: ServerName, b: ServerName, x: SessionId, y: SessionId, u: Uid) {
    && TablesOk(w) && Agree(w, u) && u !in w.ip
    && a in w.local && x !in w.local[a].sessions && u !in w.local[a].users
    && b in w.local && y in w.local[b].sessions
    && x in w.objs && w.objs[x].home == a && y in w.objs && w.objs[y] == SessionObj(b, 0)
  }

  lemma ClearedWorld(w: World, a: ServerName, b: ServerName, x: SessionId, y: SessionId, u: Uid)
    requires a != b && x != y && TwoWorld(w, a, b, x, y)
    ensures Unlisted(Clear(w, a, x), a, b, x, y, u)
  {
    assert forall v, s, z :: !IsBound(Clear(w, a, x), v, s, z);
  }

  /** The session is cleared, by a heartbeat check or an oversize frame, before its login is handled. */
  lemma UnlistedFrom(st: State, a: ServerName, b: ServerName, x: SessionId, y: SessionId, u: Uid, ids: Ids)
    returns (before: seq<Step>, bad: Step, after: seq<Step>)
    requires a != b && x != y && u != 0 && TwoWorld(st.w, a, b, x, y) && Quiet(st, a, b) && Fresh(ids, st.used)
    ensures bad.LoginBegin? && EndsInTwo(st, before, bad, after, u)
  {
    RunOne(st, LocalClear(a, x));
    ClearedWorld(st.w, a, b, x, y, u);
    before := [LocalClear(a, x)];
    bad, after := UnlistedBegin(Apply(st, LocalClear(a, x)), a, b, x, y, u, ids);
  }

  lemma UnlistedBegin(st: State, a: ServerName, b: ServerName, x: SessionId, y: SessionId, u: Uid, ids: Ids)
    returns (bad: Step, after: seq<Step>)
    requires a != b && x != y && u != 0 && Unlisted(st.w, a, b, x, y, u) && Quiet(st, a, b) && Fresh(ids, st.used)
    ensures bad.LoginBegin? && Enabled(st, bad) && !Guard(st, bad) && ValidRun(Apply(st, bad), after)
    ensures !AtMostOne(Run(Apply(st, bad), after).w, u)
  {
    bad := LoginBegin(a, u, x, ids.t1);
    LoginIsRun(st, a, u, x, ids.t1, ids.c1);
    var login := LoginSteps(st.w, a, u, x, ids.t1, ids.c1);
    var s1 := Run(st, login);
    assert Run(Apply(st, bad), login[1..]) == s1;
    after := UnlistedLater(Apply(st, bad), login[1..], s1, st.w, a, b, x, y, u, ids);
  }

  lemma UnlistedLoginBreaks(a: ServerName, b: ServerName, x: SessionId, y: SessionId, u: Uid)
    requires a != b && x != y && u != 0
    ensures exists before, bad: Step, after :: bad.LoginBegin? && EndsInTwo(Init({a, b}), before, bad, after, u)
  {
    var start, s0 := StartTwo(a, b, x, y);
    var before, bad, after := UnlistedFrom(s0, a, b, x, y, u, IDS);
    BreaksLater(Init({a, b}), start, s0, before, bad, after, u);
  }

  /** The session is cleared while its login is under way. */
  lemma ClearedFrom(st: State, a: ServerName, b: ServerName, x: SessionId, y: SessionId, u: Uid, ids: Ids)
    returns (before: seq<Step>, bad: Step, after: seq<Step>)
    requires a != b && x != y && u != 0 && TwoWorld(st.w, a, b, x, y) && Quiet(st, a, b) && Fresh(ids, st.used)
    ensures bad.LocalClear? && EndsInTwo(st, before, bad, after, u)
  {
    var s1: State;
    before, s1 := BeginAndRead(st, a, u, x, ids.t1);
    bad := LocalClear(a, x);
    assert IsLogin(s1, ids.t1) && s1.procs[ids.t1].x == x;
    ClearedWorld(st.w, a, b, x, y, u);
    after := ClearedTail(Apply(s1, bad), a, b, x, y, u, ids);
  }

  lemma ClearedTail(st: State, a: ServerName, b: ServerName, x: SessionId, y: SessionId, u: Uid, ids: Ids)
    returns (after: seq<Step>)
    requires a != b && x != y && u != 0 && Unlisted(st.w, a, b, x, y, u)
    requires st.procs == map[ids.t1 := Login(a, u, x, Kicked)] && a in st.count && b in st.count
    requires ids.c1 !in st.used && LaterFresh(ids, st.used)
    requires Held(st.locks, UserLock(u), st.now) && st.locks[UserLock(u)].token == ids.t1
    requires !Held(st.locks, CountLock, st.now)
    ensures ValidRun(st, after) && !AtMostOne(Run(st, after).w, u)
  {
    var rest, s1 := ClearedRest(st, a, x, u, ids.t1, ids.c1);
    after := UnlistedLater(st, rest, s1, st.w, a, b, x, y, u, ids);
  }

  /** The login that is past its kick goes on to its end. */
  lemma ClearedRest(st: State, a: ServerName, x: SessionId, u: Uid, tok: string, c: string)
    returns (rest: seq<Step>, st': State)
    requires st.procs == map[tok := Login(a, u, x, Kicked)] && a in st.count && c !in st.used
    requires Held(st.locks, UserLock(u), st.now) && st.locks[UserLock(u)].token == tok
    requires !Held(st.locks, CountLock, st.now)
    requires u !in st.w.ip && a in st.w.local && u !in st.w.local[a].users
    ensures ValidRun(st, rest) && Run(st, rest) == st' && st'.w == LoginAll(st.w, a, u, x, true)
    ensures st'.procs == map[] && st'.used == st.used + {c} && st.count.Keys <= st'.count.Keys
    ensures !Held(st'.locks, UserLock(u), st'.now) && !Held(st'.locks, CountLock, st'.now)
  {
    RestIsRun(st, tok, c);
    AfterRestFacts(st, tok, c);
    FirstLogin(st.w, a, u, x);
    rest := LoginRest(tok, c);
    st' := Run(st, rest);
    assert st'.procs == map[];
  }

  lemma ClearedLoginBreaks(a: ServerName, b: ServerName, x: SessionId, y: SessionId, u: Uid)
    requires a != b && x != y && u != 0
    ensures exists before, bad: Step, after :: bad.LocalClear? && EndsInTwo(Init({a, b}), before, bad, after, u)
  {
    var start, s0 := StartTwo(a, b, x, y);
    var before, bad, after := ClearedFrom(s0, a, b, x, y, u, IDS);
    BreaksLater(Init({a, b}), start, s0, before, bad, after, u);
  }

  // ------------------------------------------------------------------------------------------
  // The session logs in twice
  // ------------------------------------------------------------------------------------------

  /** x is bound to u and v; it is torn down, and u logs in on b. */
  lemma TwiceTail(st: State, w: World, a: ServerName, b: ServerName, x: SessionId, y: SessionId,
                  u: Uid, v: Uid, ids: Ids)
    returns (after: seq<Step>)
    requires a != b && x != y && u != 0 && u != v && TwoWorld(w, a, b, x, y)
    requires st.w == LoginAll(LoginAll(w, a, u, x, true), a, v, x, true)
    requires Quiet(st, a, b) && LaterFresh(ids, st.used)
    ensures ValidRun(st, after) && !AtMostOne(Run(st, after).w, u)
  {
    assert forall q, s, z :: !IsBound(w, q, s, z);
    SecondLoginStaysBound(w, a, u, v, x, b, y);
    after := TearAndLogin(st, a, b, x, y, u, v, ids);
  }

  /** x is torn down on a, where it carries v; then u logs in with y on b. */
  lemma TearAndLogin(st: State, a: ServerName, b: ServerName, x: SessionId, y: SessionId, u: Uid, v: Uid, ids: Ids)
    returns (after: seq<Step>)
    requires a in st.w.local && x in st.w.objs && st.w.objs[x] == SessionObj(a, v) && y != x && u != 0
    requires b in st.w.local && y in st.w.objs && st.w.objs[y] == SessionObj(b, 0)
    requires y in st.w.local[b].sessions && a != b
    requires Quiet(st, a, b) && LaterFresh(ids, st.used)
    ensures ValidRun(st, after) && Run(st, after).w == LoginAll(TeardownAll(st.w, a, v, x), b, u, y, true)
  {
    TeardownIsRun(st, a, x, ids.t2);
    var teardown := TeardownSteps(st.w, a, v, x, ids.t2);
    var s1 := Run(st, teardown);
    LoginIsRun(s1, b, u, y, ids.t3, ids.c3);
    var login := LoginSteps(s1.w, b, u, y, ids.t3, ids.c3);
    RunPlus(st, teardown, login);
    after := teardown + login;
  }

  lemma TwiceBegin(st: State, w: World, a: ServerName, b: ServerName, x: SessionId, y: SessionId, u: Uid, v: Uid,
                   tok: string, c: string, ids: Ids)
    returns (bad: Step, after: seq<Step>)
    requires a != b && x != y && u != 0 && u != v && TwoWorld(w, a, b, x, y) && st.w == LoginAll(w, a, u, x, true)
    requires Quiet(st, a, b) && LaterFresh(ids, st.used + {tok, c}) && tok !in st.used && c !in st.used && tok != c
    ensures bad.LoginBegin? && Enabled(st, bad) && !Guard(st, bad) && ValidRun(Apply(st, bad), after)
    ensures !AtMostOne(Run(Apply(st, bad), after).w, u)
  {
    bad := LoginBegin(a, v, x, tok);
    assert st.w.objs[x].uid == u;
    LoginIsRun(st, a, v, x, tok, c);
    var login := LoginSteps(st.w, a, v, x, tok, c);
    var s1 := Run(st, login);
    assert Run(Apply(st, bad), login[1..]) == s1;
    var tail := TwiceTail(s1, w, a, b, x, y, u, v, ids);
    RunPlus(Apply(st, bad), login[1..], tail);
    after := login[1..] + tail;
  }

  lemma TwiceFrom(st: State, a: ServerName, b: ServerName, x: SessionId, y: SessionId, u: Uid, v: Uid,
                  tok: string, c: string, ids: Ids)
    returns (before: seq<Step>, bad: Step, after: seq<Step>)
    requires a != b && x != y && u != 0 && u != v && TwoWorld(st.w, a, b, x, y) && Quiet(st, a, b)
    requires Fresh(ids, st.used) && LaterFresh(ids, st.used + {ids.t1, ids.c1} + {tok, c})
    requires tok !in st.used + {ids.t1, ids.c1} && c !in st.used + {ids.t1, ids.c1} && tok != c
    ensures bad.LoginBegin? && EndsInTwo(st, before, bad, after, u)
  {
    var s1: State;
    before, s1 := LoginBeside(st, a, u, x, ids.t1, ids.c1);
    bad, after := TwiceBegin(s1, st.w, a, b, x, y, u, v, tok, c, ids);
  }

  /** One session logs in as u and then as v. */
  lemma SecondLoginBreaks(a: ServerName, b: ServerName, x: SessionId, y: SessionId, u: Uid, v: Uid)
    requires a != b && x != y && u != 0 && u != v
    ensures exists before, bad: Step, after :: bad.LoginBegin? && EndsInTwo(Init({a, b}), before, bad, after, u)
  {
    var start, s0 := StartTwo(a, b, x, y);
    var before, bad, after := TwiceFrom(s0, a, b, x, y, u, v, "t4", "c4", IDS);
    BreaksLater(Init({a, b}), start, s0, before, bad, after, u);
  }

  // ------------------------------------------------------------------------------------------
  // The load counter
  // ------------------------------------------------------------------------------------------

  /** A run that keeps the bound of the load counter up to its last step, which breaks it. */
  ghost predicate LosesCount(st: State, before: seq<Step>, bad: Step, s: ServerName) {
    && (forall step :: step in before ==> ClusterLoad.CountGuard(step))
    && ValidRun(st, before + [bad])
    && ClusterLoad.CountOf(Run(st, before + [bad]), s) < |Users(Run(st, before + [bad]).w, s)|
  }

  lemma {:induction false} NextsGuarded(tok: string, n: nat)
    ensures forall step :: step in Nexts(tok, n) ==> step == LoginNext(tok)
  {
    if n == 0 {
    } else {
      NextsGuarded(tok, n - 1);
    }
  }

  lemma LoginGuarded(w: World, s: ServerName, u: Uid, x: SessionId, tok: string, c: string)
    ensures forall step :: step in LoginSteps(w, s, u, x, tok, c) ==> ClusterLoad.CountGuard(step)
  {
    NextsGuarded(tok, KickSteps(w, u));
    NextsGuarded(tok, 3);
    NextsGuarded(tok, 4);
  }

  lemma LosesNow(s0: State, a: seq<Step>, s1: State, bad: Step, s: ServerName)
    requires ValidRun(s0, a) && Run(s0, a) == s1 && (forall step :: step in a ==> ClusterLoad.CountGuard(step))
    requires Enabled(s1, bad) && Guard(s1, bad)
    requires ClusterLoad.CountOf(Apply(s1, bad), s) < |Users(Apply(s1, bad).w, s)|
    ensures LosesCount(s0, a, bad, s)
  {
    RunOne(s1, bad);
    RunPlus(s0, a, [bad]);
  }

  lemma LosesLater(s0: State, a: seq<Step>, s1: State, before: seq<Step>, bad: Step, s: ServerName)
    requires ValidRun(s0, a) && Run(s0, a) == s1 && (forall step :: step in a ==> ClusterLoad.CountGuard(step))
    requires LosesCount(s1, before, bad, s)
    ensures LosesCount(s0, a + before, bad, s)
  {
    RunPlus(s0, a, before + [bad]);
    assert a + before + [bad] == a + (before + [bad]);
  }

  lemma BootChecked(a: ServerName) returns (steps: seq<Step>, st: State)
    ensures ValidRun(Init({a}), steps) && Run(Init({a}), steps) == st
    ensures forall step :: step in steps ==> ClusterLoad.CountGuard(step)
    ensures st == Init({a}).(count := map[a := 0], checks := map[a := {}])
  {
    var s0 := Init({a});
    RunOne(s0, Boot(a));
    var s1 := Apply(s0, Boot(a));
    RunOne(s1, TickSnapshot(a, {}));
    RunPlus(s0, [Boot(a)], [TickSnapshot(a, {})]);
    steps, st := [Boot(a)] + [TickSnapshot(a, {})], Apply(s1, TickSnapshot(a, {}));
    assert EMPTY_LOCAL.sessions - {} == {} && st.checks == map[a := {}];
  }

  /** Server a is up, has begun a check, and then accepted x. */
  lemma StartChecked(a: ServerName, x: SessionId) returns (steps: seq<Step>, st: State)
    ensures ValidRun(Init({a}), steps) && Run(Init({a}), steps) == st
    ensures forall step :: step in steps ==> ClusterLoad.CountGuard(step)
    ensures st.w.ip == map[] && st.w.local == map[a := Local({x}, map[])] && st.w.objs == map[x := SessionObj(a, 0)]
    ensures st.procs == map[] && st.locks == map[] && st.used == {} && a in st.count && st.checks == map[a := {}]
  {
    var s0 := Init({a});
    var begin, s2 := BootChecked(a);
    RunOne(s2, Accept(a, x));
    RunPlus(s0, begin, [Accept(a, x)]);
    steps, st := begin + [Accept(a, x)], Apply(s2, Accept(a, x));
    assert {} + {x} == {x};
    assert st.w.local == map[a := Local({x}, map[])];
  }

  lemma LoginChecked(st: State, a: ServerName, x: SessionId, u: Uid) returns (login: seq<Step>, st': State)
    requires u != 0 && st.w.ip == map[]
    requires st.w.local == map[a := Local({x}, map[])] && st.w.objs == map[x := SessionObj(a, 0)]
    requires st.procs == map[] && st.locks == map[] && st.used == {} && a in st.count
    ensures ValidRun(st, login) && Run(st, login) == st'
    ensures forall step :: step in login ==> ClusterLoad.CountGuard(step)
    ensures st'.w.local == map[a := Local({x}, map[u := x])] && st'.checks == st.checks && st'.procs == map[]
  {
    login, st' := LoginBeside(st, a, u, x, IDS.t1, IDS.c1);
    LoginGuarded(st.w, a, u, x, IDS.t1, IDS.c1);
    EnterChecked(st.w, a, x, u);
  }

  lemma EnterChecked(w: World, a: ServerName, x: SessionId, u: Uid)
    requires w.local == map[a := Local({x}, map[])]
    ensures Enter(w, a, u, x).local == map[a := Local({x}, map[u := x])]
  {
    assert Enter(w, a, u, x).local[a].users == map[u := x];
  }

  /** A session is accepted and logs in between the snapshot of a check and its write. */
  lemma TornTickLosesLogin(a: ServerName, x: SessionId, u: Uid)
    requires u != 0
    ensures exists before :: LosesCount(Init({a}), before, TickWrite(a), a)
  {
    var start, s0 := StartChecked(a, x);
    var login, s1 := LoginChecked(s0, a, x, u);
    assert u in Users(Apply(s1, TickWrite(a)).w, a);
    LosesNow(s0, login, s1, TickWrite(a), a);
    LosesLater(Init({a}), start, s0, login, TickWrite(a), a);
  }

  /** A bound session expires, and its teardown does not get the user lock. */
  lemma GivenUpLosesUser(a: ServerName, x: SessionId, u: Uid)
    requires u != 0
    ensures exists before :: LosesCount(Init({a}), before, Tick(a, {x}, {}), a)
  {
    var start, s0 := StartChecked(a, x);
    var login, s1 := LoginChecked(s0, a, x, u);
    var bad := Tick(a, {x}, {});
    GivesUp(s1, a, x, u);
    LosesNow(s0, login, s1, bad, a);
    LosesLater(Init({a}), start, s0, login, bad, a);
  }

  lemma GivesUp(st: State, a: ServerName, x: SessionId, u: Uid)
    requires st.w.local == map[a := Local({x}, map[u := x])]
    ensures var bad := Tick(a, {x}, {});
            && Enabled(st, bad) && Guard(st, bad)
            && ClusterLoad.CountOf(Apply(st, bad), a) < |Users(Apply(st, bad).w, a)|
  {
    assert st.w.local[a].sessions - {x} == {};
    assert u in Users(TickWorld(st.w, a, {}), a);
  }
}
