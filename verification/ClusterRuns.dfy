/** The uninterrupted logins and teardowns of module ClusterSequential are runs of the transition
    system. */
module ClusterRuns {
  import opened LeaseLock
  import opened Registry
  import opened Cluster
  import opened ClusterSequential

  // ------------------------------------------------------------------------------------------
  // Sub-steps without interruption
  // ------------------------------------------------------------------------------------------

  /** `n` sub-steps of one login with nothing in between. */
  function Iterate(st: State, tok: string, n: nat): State
    decreases n
  {
    if n == 0 || !IsLogin(st, tok) then st else Iterate(LoginApply(st, tok), tok, n - 1)
  }

  function KickSteps(w: World, u: Uid): nat {
    if u in w.ip then 3 else 1
  }

  function AfterKick(st: State, tok: string): State
    requires IsLogin(st, tok)
  {
    var p := st.procs[tok];
    st.(w := Kick(st.w, p.s, p.u, true), procs := st.procs[tok := p.(ph := Kicked)])
  }

  /** The kick of `peer`: look up, clear. */
  lemma FoundIsRun(st: State, tok: string)
    requires IsLogin(st, tok) && st.procs[tok].ph.Kicking?
    ensures var p := st.procs[tok];
            Iterate(st, tok, 2) == st.(w := ClearIf(st.w, p.ph.peer, Lookup(Users(st.w, p.ph.peer), p.u)),
                                       procs := st.procs[tok := p.(ph := Kicked)])
  {
    var s1 := LoginApply(st, tok);
    var s2 := LoginApply(s1, tok);
    assert s2.procs == st.procs[tok := st.procs[tok].(ph := Kicked)];
    assert Iterate(st, tok, 2) == Iterate(s1, tok, 1) == Iterate(s2, tok, 0) == s2;
  }

  lemma FirstStep(st: State, tok: string, n: nat)
    requires IsLogin(st, tok) && n > 0
    ensures Iterate(st, tok, n) == Iterate(LoginApply(st, tok), tok, n - 1)
  {
  }

  lemma FoundIsKick(st: State, s1: State, tok: string)
    requires IsLogin(st, tok) && st.procs[tok].u in st.w.ip
    requires s1 == st.(procs := st.procs[tok := st.procs[tok].(ph := Kicking(st.w.ip[st.procs[tok].u]))])
    ensures var p := s1.procs[tok];
            s1.(w := ClearIf(s1.w, p.ph.peer, Lookup(Users(s1.w, p.ph.peer), p.u)),
                procs := s1.procs[tok := p.(ph := Kicked)]) == AfterKick(st, tok)
  {
    assert s1.procs[tok := st.procs[tok].(ph := Kicked)] == st.procs[tok := st.procs[tok].(ph := Kicked)];
  }

  /** From the user lock to the end of the kick, with the kick delivered. */
  lemma KickIsRun(st: State, tok: string)
    requires IsLogin(st, tok) && st.procs[tok].ph.Locked?
    ensures Iterate(st, tok, KickSteps(st.w, st.procs[tok].u)) == AfterKick(st, tok)
  {
    var p := st.procs[tok];
    var s1 := LoginApply(st, tok);
    FirstStep(st, tok, KickSteps(st.w, p.u));
    if p.u in st.w.ip {
      FoundIsRun(s1, tok);
      FoundIsKick(st, s1, tok);
    }
  }

  /** From the count lock to its release: the counter goes up by one, and nothing else changes. */
  lemma CountIsRun(st: State, tok: string)
    requires IsLogin(st, tok) && st.procs[tok].ph.CountLocked? && st.procs[tok].s in st.count
    ensures var p := st.procs[tok];
            Iterate(st, tok, 3) ==
            st.(count := st.count[p.s := st.count[p.s] + 1],
                locks := CompareDelete(st.locks, CountLock, p.ph.c, st.now),
                procs := st.procs[tok := p.(ph := Counted)])
  {
    var s1 := LoginApply(st, tok);
    var s2 := LoginApply(s1, tok);
    var s3 := LoginApply(s2, tok);
    assert s3.procs == st.procs[tok := st.procs[tok].(ph := Counted)];
    assert Iterate(st, tok, 3) == Iterate(s1, tok, 2) == Iterate(s2, tok, 1) == Iterate(s3, tok, 0) == s3;
  }

  /** Without an entry for the server the login fails and the count lock is released. */
  lemma MissingCountIsRun(st: State, tok: string)
    requires IsLogin(st, tok) && st.procs[tok].ph.CountLocked? && st.procs[tok].s !in st.count
    ensures var p := st.procs[tok];
            Iterate(st, tok, 2) == st.(locks := CompareDelete(st.locks, CountLock, p.ph.c, st.now),
                                       procs := st.procs[tok := p.(ph := Failed)])
  {
    var s1 := LoginApply(st, tok);
    var s2 := LoginApply(s1, tok);
    assert s2.procs == st.procs[tok := st.procs[tok].(ph := Failed)];
    assert Iterate(st, tok, 2) == Iterate(s1, tok, 1) == Iterate(s2, tok, 0) == s2;
  }

  lemma {:induction false} IteratePlus(st: State, tok: string, m: nat, n: nat)
    ensures Iterate(st, tok, m + n) == Iterate(Iterate(st, tok, m), tok, n)
    decreases m
  {
    if m > 0 && IsLogin(st, tok) {
      IteratePlus(LoginApply(st, tok), tok, m - 1, n);
    }
  }

  /** Both Redis hashes name the session. */
  function AfterNaming(st: State, tok: string): State
    requires IsLogin(st, tok)
  {
    var p := st.procs[tok];
    st.(w := st.w.(ip := st.w.ip[p.u := p.s], sid := st.w.sid[p.u := p.x]),
        procs := st.procs[tok := p.(ph := WroteSid)])
  }

  lemma NamedIsRun(st: State, tok: string)
    requires IsLogin(st, tok) && st.procs[tok].ph.Counted?
    ensures Iterate(st, tok, 2) == AfterNaming(st, tok)
  {
    var s1 := LoginApply(st, tok);
    var s2 := LoginApply(s1, tok);
    assert s2.procs == st.procs[tok := st.procs[tok].(ph := WroteSid)];
    assert Iterate(st, tok, 2) == Iterate(s1, tok, 1) == Iterate(s2, tok, 0) == s2;
  }

  /** The session has its uid and its binding. */
  function AfterBinding(st: State, tok: string): State
    requires IsLogin(st, tok)
  {
    var p := st.procs[tok];
    st.(w := Bind(SetUid(st.w, p.x, p.u), p.s, p.u, p.x), procs := st.procs[tok := p.(ph := Bound)])
  }

  lemma BoundIsRun(st: State, tok: string)
    requires IsLogin(st, tok) && st.procs[tok].ph.WroteSid?
    ensures Iterate(st, tok, 2) == AfterBinding(st, tok)
  {
    var s1 := LoginApply(st, tok);
    var s2 := LoginApply(s1, tok);
    assert s2.procs == st.procs[tok := st.procs[tok].(ph := Bound)];
    assert Iterate(st, tok, 2) == Iterate(s1, tok, 1) == Iterate(s2, tok, 0) == s2;
  }

  /** The login has done all its writes. */
  function AfterEntering(st: State, tok: string): State
    requires IsLogin(st, tok)
  {
    var p := st.procs[tok];
    st.(w := Enter(st.w, p.s, p.u, p.x), procs := st.procs[tok := p.(ph := Bound)])
  }

  lemma NamingThenBinding(st: State, tok: string)
    requires IsLogin(st, tok)
    ensures AfterBinding(AfterNaming(st, tok), tok) == AfterEntering(st, tok)
  {
  }

  /** From the counter to the binding. */
  lemma EnterIsRun(st: State, tok: string)
    requires IsLogin(st, tok) && st.procs[tok].ph.Counted?
    ensures Iterate(st, tok, 4) == AfterEntering(st, tok)
  {
    IteratePlus(st, tok, 2, 2);
    NamedIsRun(st, tok);
    BoundIsRun(AfterNaming(st, tok), tok);
    NamingThenBinding(st, tok);
  }

  /** `n` sub-steps of one teardown inside its critical section. */
  function IterateTeardown(st: State, tok: string, n: nat): State
    decreases n
  {
    if n == 0 || !IsTeardown(st, tok) || st.procs[tok].tp.Waiting? then st
    else IterateTeardown(TeardownApply(st, tok), tok, n - 1)
  }

  lemma {:induction false} IterateTeardownPlus(st: State, tok: string, m: nat, n: nat)
    ensures IterateTeardown(st, tok, m + n) == IterateTeardown(IterateTeardown(st, tok, m), tok, n)
    decreases m
  {
    if m > 0 && IsTeardown(st, tok) && !st.procs[tok].tp.Waiting? {
      IterateTeardownPlus(TeardownApply(st, tok), tok, m - 1, n);
    }
  }

  /** The check finds the session named, and the first entry goes. */
  lemma CheckIsRun(st: State, tok: string)
    requires IsTeardown(st, tok) && st.procs[tok].tp.Checking?
    requires var p := st.procs[tok]; p.u in st.w.sid && st.w.sid[p.u] == p.x
    ensures var p := st.procs[tok];
            IterateTeardown(st, tok, 2) ==
            st.(w := st.w.(sid := st.w.sid - {p.u}), procs := st.procs[tok := p.(tp := DelIp)])
  {
    var s1 := TeardownApply(st, tok);
    var s2 := TeardownApply(s1, tok);
    assert s2.procs == st.procs[tok := st.procs[tok].(tp := DelIp)];
    assert IterateTeardown(st, tok, 2) == IterateTeardown(s1, tok, 1) == IterateTeardown(s2, tok, 0) == s2;
  }

  /** The second entry goes, and the session. */
  lemma ForgetIsRun(st: State, tok: string)
    requires IsTeardown(st, tok) && st.procs[tok].tp.DelIp?
    ensures var p := st.procs[tok];
            IterateTeardown(st, tok, 2) ==
            st.(w := Clear(st.w.(ip := st.w.ip - {p.u}), p.s, p.x), procs := st.procs[tok := p.(tp := Cleared)])
  {
    var s1 := TeardownApply(st, tok);
    var s2 := TeardownApply(s1, tok);
    assert s2.procs == st.procs[tok := st.procs[tok].(tp := Cleared)];
    assert IterateTeardown(st, tok, 2) == IterateTeardown(s1, tok, 1) == IterateTeardown(s2, tok, 0) == s2;
  }

  /** The teardown has done all its writes. */
  function AfterTeardown(st: State, tok: string): State
    requires IsTeardown(st, tok)
  {
    var p := st.procs[tok];
    st.(w := TeardownAll(st.w, p.s, p.u, p.x), procs := st.procs[tok := p.(tp := Cleared)])
  }

  lemma CheckThenForget(st: State, tok: string)
    requires IsTeardown(st, tok)
    requires var p := st.procs[tok]; p.u in st.w.sid && st.w.sid[p.u] == p.x
    ensures var p := st.procs[tok];
            var w' := st.w.(sid := st.w.sid - {p.u});
            && Clear(w'.(ip := w'.ip - {p.u}), p.s, p.x) == TeardownAll(st.w, p.s, p.u, p.x)
            && st.procs[tok := p.(tp := DelIp)][tok := p.(tp := Cleared)] == st.procs[tok := p.(tp := Cleared)]
  {
  }

  /** A teardown of the session Redis names. */
  lemma TeardownOwnIsRun(st: State, tok: string)
    requires IsTeardown(st, tok) && st.procs[tok].tp.Checking?
    requires var p := st.procs[tok]; p.u in st.w.sid && st.w.sid[p.u] == p.x
    ensures IterateTeardown(st, tok, 4) == AfterTeardown(st, tok)
  {
    var p := st.procs[tok];
    IterateTeardownPlus(st, tok, 2, 2);
    CheckIsRun(st, tok);
    ForgetIsRun(IterateTeardown(st, tok, 2), tok);
    CheckThenForget(st, tok);
  }

  /** A teardown of any other session. */
  lemma TeardownOldIsRun(st: State, tok: string)
    requires IsTeardown(st, tok) && st.procs[tok].tp.Checking?
    requires var p := st.procs[tok]; !(p.u in st.w.sid && st.w.sid[p.u] == p.x)
    ensures IterateTeardown(st, tok, 2) == AfterTeardown(st, tok)
  {
    var s1 := TeardownApply(st, tok);
    var s2 := TeardownApply(s1, tok);
    assert s2.procs == st.procs[tok := st.procs[tok].(tp := Cleared)];
    assert IterateTeardown(st, tok, 2) == IterateTeardown(s1, tok, 1) == IterateTeardown(s2, tok, 0) == s2;
  }

  // ------------------------------------------------------------------------------------------
  // Runs in parts
  // ------------------------------------------------------------------------------------------

  lemma {:induction false} RunPlus(st: State, a: seq<Step>, b: seq<Step>)
    requires Possible(st, a) && Possible(Run(st, a), b)
    ensures Possible(st, a + b) && Run(st, a + b) == Run(Run(st, a), b)
    ensures ValidRun(st, a) && ValidRun(Run(st, a), b) ==> ValidRun(st, a + b)
    decreases |a|
  {
    if a == [] {
      assert a + b == b;
    } else {
      RunPlus(Apply(st, a[0]), a[1..], b);
      assert (a + b)[0] == a[0] && (a + b)[1..] == a[1..] + b;
    }
  }

  lemma RunOne(st: State, step: Step)
    requires Enabled(st, step)
    ensures Possible(st, [step]) && Run(st, [step]) == Apply(st, step)
    ensures Guard(st, step) ==> ValidRun(st, [step])
  {
  }

  function Nexts(tok: string, n: nat): seq<Step> {
    if n == 0 then [] else [LoginNext(tok)] + Nexts(tok, n - 1)
  }

  /** The next `n` sub-steps of the login are possible. */
  predicate Ready(st: State, tok: string, n: nat)
    decreases n
  {
    n == 0 || (IsLogin(st, tok) && !st.procs[tok].ph.Kicked? && Ready(LoginApply(st, tok), tok, n - 1))
  }

  lemma {:induction false} NextsAreRun(st: State, tok: string, n: nat)
    requires Ready(st, tok, n)
    ensures ValidRun(st, Nexts(tok, n)) && Run(st, Nexts(tok, n)) == Iterate(st, tok, n)
    decreases n
  {
    if n == 0 {
    } else {
      NextsAreRun(LoginApply(st, tok), tok, n - 1);
      assert Nexts(tok, n)[1..] == Nexts(tok, n - 1);
    }
  }

  lemma {:induction false} ReadyPlus(st: State, tok: string, m: nat, n: nat)
    requires Ready(st, tok, m) && Ready(Iterate(st, tok, m), tok, n)
    ensures Ready(st, tok, m + n)
    decreases m
  {
    if m == 0 {
    } else {
      ReadyPlus(LoginApply(st, tok), tok, m - 1, n);
    }
  }

  // ------------------------------------------------------------------------------------------
  // A whole login
  // ------------------------------------------------------------------------------------------

  lemma KickReady(st: State, tok: string)
    requires IsLogin(st, tok) && st.procs[tok].ph.Locked?
    ensures Ready(st, tok, KickSteps(st.w, st.procs[tok].u))
  {
    var s1 := LoginApply(st, tok);
    assert Ready(s1, tok, 0);
    if st.procs[tok].u in st.w.ip {
      var s2 := LoginApply(s1, tok);
      assert Ready(s2, tok, 1) && Ready(s1, tok, 2);
    }
  }

  lemma CountReady(st: State, tok: string)
    requires IsLogin(st, tok) && st.procs[tok].ph.CountLocked? && st.procs[tok].s in st.count
    ensures Ready(st, tok, 3)
  {
    var s1 := LoginApply(st, tok);
    var s2 := LoginApply(s1, tok);
    assert Ready(s2, tok, 1) && Ready(s1, tok, 2);
  }

  lemma EnterReady(st: State, tok: string)
    requires IsLogin(st, tok) && st.procs[tok].ph.Counted?
    ensures Ready(st, tok, 4)
  {
    NamedIsRun(st, tok);
    TwoReady(st, tok);
    TwoReady(Iterate(st, tok, 2), tok);
    ReadyPlus(st, tok, 2, 2);
  }

  lemma TwoReady(st: State, tok: string)
    requires IsLogin(st, tok) && (st.procs[tok].ph.Counted? || st.procs[tok].ph.WroteSid?)
    ensures Ready(st, tok, 2)
  {
    assert Ready(LoginApply(st, tok), tok, 1);
  }

  /** The steps of a login from the count lock on. */
  function LoginRest(tok: string, c: string): seq<Step> {
    [LoginCount(tok, c)] + Nexts(tok, 3) + (Nexts(tok, 4) + [LoginNext(tok)])
  }

  function LoginSteps(w: World, s: ServerName, u: Uid, x: SessionId, tok: string, c: string): seq<Step> {
    [LoginBegin(s, u, x, tok)] + (Nexts(tok, KickSteps(w, u)) + LoginRest(tok, c))
  }

  /** The login has counted its session, and the count lock is free again. */
  function AfterCount(st: State, tok: string, c: string): State
    requires IsLogin(st, tok) && st.procs[tok].s in st.count && !Held(st.locks, CountLock, st.now)
  {
    var p := st.procs[tok];
    st.(count := st.count[p.s := st.count[p.s] + 1],
        locks := CompareDelete(SetNx(st.locks, CountLock, c, st.now, LOCK_TIMEOUT), CountLock, c, st.now),
        procs := st.procs[tok := p.(ph := Counted)],
        used := st.used + {c})
  }

  /** The counter. */
  lemma LoginCounts(st: State, tok: string, c: string)
    requires Enabled(st, LoginCount(tok, c)) && st.procs[tok].s in st.count
    ensures var steps := [LoginCount(tok, c)] + Nexts(tok, 3);
            ValidRun(st, steps) && Run(st, steps) == AfterCount(st, tok, c)
  {
    var s1 := Apply(st, LoginCount(tok, c));
    RunOne(st, LoginCount(tok, c));
    CountReady(s1, tok);
    CountIsRun(s1, tok);
    NextsAreRun(s1, tok, 3);
    RunPlus(st, [LoginCount(tok, c)], Nexts(tok, 3));
    assert s1.procs[tok := st.procs[tok].(ph := Counted)] == st.procs[tok := st.procs[tok].(ph := Counted)];
  }

  /** The writes, and the end of the critical section. */
  lemma LoginEnds(st: State, tok: string)
    requires IsLogin(st, tok) && st.procs[tok].ph.Counted?
    ensures var steps := Nexts(tok, 4) + [LoginNext(tok)];
            ValidRun(st, steps) && Run(st, steps) == Finish(AfterEntering(st, tok), tok)
  {
    EnterReady(st, tok);
    EnterIsRun(st, tok);
    NextsAreRun(st, tok, 4);
    RunOne(Iterate(st, tok, 4), LoginNext(tok));
    RunPlus(st, Nexts(tok, 4), [LoginNext(tok)]);
  }

  /** The state a login that has kicked ends in. */
  function AfterRest(st: State, tok: string, c: string): State
    requires IsLogin(st, tok) && st.procs[tok].s in st.count && !Held(st.locks, CountLock, st.now)
  {
    Finish(AfterEntering(AfterCount(st, tok, c), tok), tok)
  }

  lemma RestIsRun(st: State, tok: string, c: string)
    requires Enabled(st, LoginCount(tok, c)) && st.procs[tok].s in st.count
    ensures ValidRun(st, LoginRest(tok, c)) && Run(st, LoginRest(tok, c)) == AfterRest(st, tok, c)
  {
    LoginCounts(st, tok, c);
    LoginEnds(AfterCount(st, tok, c), tok);
    RunPlus(st, [LoginCount(tok, c)] + Nexts(tok, 3), Nexts(tok, 4) + [LoginNext(tok)]);
  }

  lemma AfterRestFacts(st: State, tok: string, c: string)
    requires IsLogin(st, tok) && st.procs[tok].s in st.count && !Held(st.locks, CountLock, st.now)
    ensures var p := st.procs[tok];
            var st' := AfterRest(st, tok, c);
            && st'.w == Enter(st.w, p.s, p.u, p.x) && st'.count == st.count[p.s := st.count[p.s] + 1]
            && st'.procs == st.procs - {tok} && st'.now == st.now && st'.used == st.used + {c}
            && st'.checks == st.checks
            && (Held(st.locks, UserLock(p.u), st.now) && st.locks[UserLock(p.u)].token == tok ==>
                  !Held(st'.locks, UserLock(p.u), st'.now))
            && !Held(st'.locks, CountLock, st'.now) && NoMoreHeld(st, st')
  {
    assert AfterRest(st, tok, c).procs == st.procs - {tok};
  }

  /** From the user lock on. */
  lemma LockedIsRun(st: State, tok: string, c: string)
    requires IsLogin(st, tok) && st.procs[tok].ph.Locked? && st.procs[tok].s in st.count
    requires c !in st.used && !Held(st.locks, CountLock, st.now)
    ensures var steps := Nexts(tok, KickSteps(st.w, st.procs[tok].u)) + LoginRest(tok, c);
            ValidRun(st, steps) && Run(st, steps) == AfterRest(AfterKick(st, tok), tok, c)
  {
    var n := KickSteps(st.w, st.procs[tok].u);
    KickReady(st, tok);
    KickIsRun(st, tok);
    NextsAreRun(st, tok, n);
    RestIsRun(AfterKick(st, tok), tok, c);
    RunPlus(st, Nexts(tok, n), LoginRest(tok, c));
  }

  ghost predicate NoMoreHeld(st: State, st': State) {
    forall k :: Held(st'.locks, k, st'.now) ==> Held(st.locks, k, st.now)
  }

  /** What a whole login leaves. */
  ghost predicate LoggedIn(st: State, st': State, s: ServerName, u: Uid, x: SessionId, tok: string, c: string)
    requires s in st.count
  {
    && st'.w == LoginAll(st.w, s, u, x, true) && st'.count == st.count[s := st.count[s] + 1]
    && st'.procs == st.procs && st'.now == st.now && st'.used == st.used + {tok, c} && st'.checks == st.checks
    && !Held(st'.locks, UserLock(u), st'.now) && !Held(st'.locks, CountLock, st'.now) && NoMoreHeld(st, st')
  }

  lemma BegunFacts(st: State, s: ServerName, u: Uid, x: SessionId, tok: string, c: string)
    requires Enabled(st, LoginBegin(s, u, x, tok)) && !Held(st.locks, CountLock, st.now)
    requires s in st.count && tok !in st.procs
    ensures LoggedIn(st, AfterRest(AfterKick(Apply(st, LoginBegin(s, u, x, tok)), tok), tok, c), s, u, x, tok, c)
  {
    KickedFacts(st, AfterKick(Apply(st, LoginBegin(s, u, x, tok)), tok), s, u, x, tok, c);
  }

  lemma KickedFacts(st: State, s1: State, s: ServerName, u: Uid, x: SessionId, tok: string, c: string)
    requires !Held(st.locks, UserLock(u), st.now) && !Held(st.locks, CountLock, st.now)
    requires s in st.count && tok !in st.procs
    requires s1 == st.(w := Kick(st.w, s, u, true), procs := st.procs[tok := Login(s, u, x, Kicked)],
                       locks := SetNx(st.locks, UserLock(u), tok, st.now, LOCK_TIMEOUT), used := st.used + {tok})
    ensures LoggedIn(st, AfterRest(s1, tok, c), s, u, x, tok, c)
  {
    AfterRestFacts(s1, tok, c);
    assert st.used + {tok} + {c} == st.used + {tok, c};
    assert s1.procs - {tok} == st.procs;
  }

  /** From any state in which a login may begin and the count lock is free, its sub-steps in a row are
      possible, under the guards if its beginning is, and they are the login as one function: same
      bindings, the counter one higher, both locks free again, no other critical section touched. */
  lemma LoginIsRun(st: State, s: ServerName, u: Uid, x: SessionId, tok: string, c: string)
    requires Enabled(st, LoginBegin(s, u, x, tok)) && !Held(st.locks, CountLock, st.now)
    requires c !in st.used && c != tok && tok !in st.procs && s in st.count
    ensures var steps := LoginSteps(st.w, s, u, x, tok, c);
            && Possible(st, steps) && LoggedIn(st, Run(st, steps), s, u, x, tok, c)
            && ValidRun(Apply(st, LoginBegin(s, u, x, tok)), steps[1..])
            && (Guard(st, LoginBegin(s, u, x, tok)) ==> ValidRun(st, steps))
  {
    var begin := LoginBegin(s, u, x, tok);
    var s1 := Apply(st, begin);
    var rest := Nexts(tok, KickSteps(st.w, u)) + LoginRest(tok, c);
    RunOne(st, begin);
    LockedIsRun(s1, tok, c);
    RunPlus(st, [begin], rest);
    BegunFacts(st, s, u, x, tok, c);
    assert LoginSteps(st.w, s, u, x, tok, c)[1..] == rest;
  }

  // ------------------------------------------------------------------------------------------
  // A whole teardown
  // ------------------------------------------------------------------------------------------

  function TearNexts(tok: string, n: nat): seq<Step> {
    if n == 0 then [] else [TeardownNext(tok)] + TearNexts(tok, n - 1)
  }

  /** The next `n` sub-steps of the teardown are possible, and its session is not logging in. */
  predicate TearReady(st: State, tok: string, n: nat)
    decreases n
  {
    n == 0 ||
    (IsTeardown(st, tok) && !st.procs[tok].tp.Waiting? && !InLogin(st, st.procs[tok].x) &&
     TearReady(TeardownApply(st, tok), tok, n - 1))
  }

  lemma {:induction false} TearNextsAreRun(st: State, tok: string, n: nat)
    requires TearReady(st, tok, n)
    ensures ValidRun(st, TearNexts(tok, n)) && Run(st, TearNexts(tok, n)) == IterateTeardown(st, tok, n)
    decreases n
  {
    if n == 0 {
    } else {
      TearNextsAreRun(TeardownApply(st, tok), tok, n - 1);
      assert TearNexts(tok, n)[1..] == TearNexts(tok, n - 1);
    }
  }

  /** A teardown that is not over stays one, and starts no login. */
  lemma TearStays(st: State, tok: string)
    requires IsTeardown(st, tok) && !st.procs[tok].tp.Waiting? && !st.procs[tok].tp.Cleared?
    ensures var st' := TeardownApply(st, tok);
            && IsTeardown(st', tok) && !st'.procs[tok].tp.Waiting?
            && st'.procs[tok] == st.procs[tok].(tp := TeardownPhaseNext(st.w, st.procs[tok]))
            && forall x :: !InLogin(st, x) ==> !InLogin(st', x)
  {
    var st' := TeardownApply(st, tok);
    assert forall t :: t in st'.procs && st'.procs[t].Login? ==> t in st.procs && st.procs[t] == st'.procs[t];
  }

  function TearLength(w: World, u: Uid, x: SessionId): nat {
    if u in w.sid && w.sid[u] == x then 4 else 2
  }

  lemma ClearReady(st: State, tok: string)
    requires IsTeardown(st, tok) && (st.procs[tok].tp.ClearOwn? || st.procs[tok].tp.ClearKept?)
    requires !InLogin(st, st.procs[tok].x)
    ensures TearReady(st, tok, 1)
  {
  }

  lemma CheckReady(st: State, tok: string)
    requires IsTeardown(st, tok) && st.procs[tok].tp.Checking? && !InLogin(st, st.procs[tok].x)
    ensures TearReady(st, tok, TearLength(st.w, st.procs[tok].u, st.procs[tok].x))
  {
    TearStays(st, tok);
    var s1 := TeardownApply(st, tok);
    if s1.procs[tok].tp.DelSid? {
      TearStays(s1, tok);
      var s2 := TeardownApply(s1, tok);
      TearStays(s2, tok);
      var s3 := TeardownApply(s2, tok);
      ClearReady(s3, tok);
      assert TearReady(s2, tok, 2) && TearReady(s1, tok, 3);
    } else {
      ClearReady(s1, tok);
    }
  }

  /** From the check on. */
  lemma CheckedIsRun(st: State, tok: string)
    requires IsTeardown(st, tok) && st.procs[tok].tp.Checking? && !InLogin(st, st.procs[tok].x)
    ensures var n := TearLength(st.w, st.procs[tok].u, st.procs[tok].x);
            ValidRun(st, TearNexts(tok, n)) && Run(st, TearNexts(tok, n)) == AfterTeardown(st, tok)
  {
    var p := st.procs[tok];
    CheckReady(st, tok);
    TearNextsAreRun(st, tok, TearLength(st.w, p.u, p.x));
    if p.u in st.w.sid && st.w.sid[p.u] == p.x {
      TeardownOwnIsRun(st, tok);
    } else {
      TeardownOldIsRun(st, tok);
    }
  }

  function TeardownSteps(w: World, s: ServerName, u: Uid, x: SessionId, tok: string): seq<Step> {
    [TeardownBegin(s, x, tok)] + ([TeardownNext(tok)] + (TearNexts(tok, TearLength(w, u, x)) + [TeardownNext(tok)]))
  }

  /** The teardown has its lock. */
  function AfterChecking(st: State, s: ServerName, x: SessionId, tok: string): State
    requires x in st.w.objs && !Held(st.locks, UserLock(st.w.objs[x].uid), st.now)
  {
    var u := st.w.objs[x].uid;
    st.(locks := SetNx(st.locks, UserLock(u), tok, st.now, LOCK_TIMEOUT),
        procs := st.procs[tok := Teardown(s, u, x, Checking)],
        used := st.used + {tok})
  }

  lemma TeardownBegins(st: State, s: ServerName, x: SessionId, tok: string)
    requires Enabled(st, TeardownBegin(s, x, tok)) && !Held(st.locks, UserLock(st.w.objs[x].uid), st.now)
    ensures var s1 := Apply(st, TeardownBegin(s, x, tok));
            && Enabled(s1, TeardownNext(tok)) && Guard(s1, TeardownNext(tok))
            && Apply(s1, TeardownNext(tok)) == AfterChecking(st, s, x, tok)
  {
    var s1 := Apply(st, TeardownBegin(s, x, tok));
    assert Apply(s1, TeardownNext(tok)).procs == AfterChecking(st, s, x, tok).procs;
  }

  lemma StillNoLogin(st: State, s: ServerName, x: SessionId, tok: string)
    requires Enabled(st, TeardownBegin(s, x, tok)) && !Held(st.locks, UserLock(st.w.objs[x].uid), st.now)
    requires !InLogin(st, x)
    ensures !InLogin(AfterChecking(st, s, x, tok), x)
  {
    var st' := AfterChecking(st, s, x, tok);
    assert forall t :: t in st'.procs && st'.procs[t].Login? ==> t in st.procs && st.procs[t] == st'.procs[t];
  }

  /** What a whole teardown leaves. */
  ghost predicate ToreDown(st: State, st': State, s: ServerName, u: Uid, x: SessionId, tok: string) {
    && st'.w == TeardownAll(st.w, s, u, x) && st'.count == st.count && st'.procs == st.procs
    && st'.now == st.now && st'.used == st.used + {tok} && st'.checks == st.checks
    && !Held(st'.locks, UserLock(u), st'.now) && NoMoreHeld(st, st')
  }

  lemma TornFacts(st: State, s: ServerName, x: SessionId, tok: string)
    requires x in st.w.objs && !Held(st.locks, UserLock(st.w.objs[x].uid), st.now) && tok !in st.procs
    ensures var s1 := AfterChecking(st, s, x, tok);
            ToreDown(st, Finish(AfterTeardown(s1, tok), tok), s, st.w.objs[x].uid, x, tok)
  {
    var s1 := AfterChecking(st, s, x, tok);
    assert Finish(AfterTeardown(s1, tok), tok).procs == st.procs;
  }

  lemma TearEnds(st: State, tok: string, n: nat)
    requires IsTeardown(st, tok)
    requires ValidRun(st, TearNexts(tok, n)) && Run(st, TearNexts(tok, n)) == AfterTeardown(st, tok)
    ensures var steps := TearNexts(tok, n) + [TeardownNext(tok)];
            ValidRun(st, steps) && Run(st, steps) == Finish(AfterTeardown(st, tok), tok)
  {
    RunOne(AfterTeardown(st, tok), TeardownNext(tok));
    RunPlus(st, TearNexts(tok, n), [TeardownNext(tok)]);
  }

  /** From any state in which the user lock of `x` is free and no login works for `x`, the sub-steps of
      its teardown in a row are a run under the guards, and they are the teardown as one function. */
  lemma TeardownIsRun(st: State, s: ServerName, x: SessionId, tok: string)
    requires Enabled(st, TeardownBegin(s, x, tok)) && !Held(st.locks, UserLock(st.w.objs[x].uid), st.now)
    requires !InLogin(st, x) && tok !in st.procs
    ensures var u := st.w.objs[x].uid;
            var steps := TeardownSteps(st.w, s, u, x, tok);
            ValidRun(st, steps) && ToreDown(st, Run(st, steps), s, u, x, tok)
  {
    var u := st.w.objs[x].uid;
    var s1 := Apply(st, TeardownBegin(s, x, tok));
    var s2 := AfterChecking(st, s, x, tok);
    var n := TearLength(st.w, u, x);
    TeardownBegins(st, s, x, tok);
    RunOne(st, TeardownBegin(s, x, tok));
    RunOne(s1, TeardownNext(tok));
    StillNoLogin(st, s, x, tok);
    CheckedIsRun(s2, tok);
    TearEnds(s2, tok, n);
    RunPlus(s1, [TeardownNext(tok)], TearNexts(tok, n) + [TeardownNext(tok)]);
    RunPlus(st, [TeardownBegin(s, x, tok)], [TeardownNext(tok)] + (TearNexts(tok, n) + [TeardownNext(tok)]));
    TornFacts(st, s, x, tok);
  }
}
