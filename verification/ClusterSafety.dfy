/** The invariant of the login protocol holds in every reachable state. */
module ClusterSafety {
  import opened LeaseLock
  import opened Registry
  import opened Cluster

  // ------------------------------------------------------------------------------------------
  // Frames
  // ------------------------------------------------------------------------------------------

  /** Nothing changed for `u` except that bindings may have gone. */
  ghost predicate Fewer(w: World, w': World, u: Uid) {
    && (u in w.ip <==> u in w'.ip) && (u in w.ip ==> w.ip[u] == w'.ip[u])
    && (u in w.sid <==> u in w'.sid) && (u in w.sid ==> w.sid[u] == w'.sid[u])
    && (forall s, x :: IsBound(w', u, s, x) ==> IsBound(w, u, s, x))
  }

  /** Session objects stay where they are, and a uid once set stays. */
  ghost predicate ObjsGrow(w: World, w': World) {
    forall x :: x in w.objs ==>
      x in w'.objs && w'.objs[x].home == w.objs[x].home && (w.objs[x].uid != 0 ==> w'.objs[x].uid == w.objs[x].uid)
  }

  /** A login that has bound its session keeps that binding. */
  ghost predicate KeepsBinding(w': World, p: Proc) {
    p.Login? && p.ph.Bound? ==> IsBound(w', p.u, p.s, p.x)
  }

  lemma AgreeFrame(w: World, w': World, u: Uid)
    requires Agree(w, u) && Fewer(w, w', u)
    ensures Agree(w', u)
  {
  }

  lemma PhaseFrame(w: World, w': World, p: Proc)
    requires PhaseOk(w, p) && (p.Login? ==> p.u != 0)
    requires Fewer(w, w', p.u) && ObjsGrow(w, w') && KeepsBinding(w', p)
    ensures PhaseOk(w', p)
  {
  }

  lemma OneSectionPerUser(st: State, t1: string, t2: string)
    requires LocksOk(st) && t1 in st.procs && t2 in st.procs
    requires InSection(st.procs[t1]) && InSection(st.procs[t2]) && st.procs[t1].u == st.procs[t2].u
    ensures t1 == t2
  {
  }

  lemma NotHeldIsFree(st: State, u: Uid)
    requires LocksOk(st) && !Held(st.locks, UserLock(u), st.now)
    ensures Free(st, u)
  {
  }

  /** The world moved on behalf of `tok`, in its critical section for `u`; nobody else noticed. */
  ghost predicate WorldStep(st: State, w': World, tok: string, u: Uid) {
    && TablesOk(w') && ObjsGrow(st.w, w')
    && (forall u' :: u' != u ==> Fewer(st.w, w', u'))
    && (forall t :: t in st.procs && t != tok ==> SessionOk(w', st.procs[t]) && KeepsBinding(w', st.procs[t]))
  }

  /** All other critical sections are as before. */
  ghost predicate OthersSame(st: State, st': State, tok: string) {
    forall t :: t != tok ==> (t in st.procs <==> t in st'.procs) && (t in st.procs ==> st'.procs[t] == st.procs[t])
  }

  lemma OthersPhases(st: State, st': State, tok: string, u: Uid, t: string)
    requires Inv(st) && WorldStep(st, st'.w, tok, u) && OthersSame(st, st', tok)
    requires Free(st, u) || (tok in st.procs && InSection(st.procs[tok]) && st.procs[tok].u == u)
    requires t in st'.procs && t != tok
    ensures PhaseOk(st'.w, st'.procs[t])
  {
    var p := st.procs[t];
    assert SessionOk(st.w, p);
    if InSection(p) {
      if p.u == u && !Free(st, u) {
        OneSectionPerUser(st, t, tok);
      }
      PhaseFrame(st.w, st'.w, p);
    }
  }

  /** One step of the critical section for `u` whose holder is `tok`. */
  lemma SectionStep(st: State, st': State, tok: string, u: Uid)
    requires Inv(st) && LocksOk(st') && WorldStep(st, st'.w, tok, u) && OthersSame(st, st', tok)
    requires tok in st.procs ==> st.procs[tok].u == u
    requires Free(st, u) || (tok in st.procs && InSection(st.procs[tok]))
    requires tok in st'.procs ==>
               var p := st'.procs[tok]; p.u == u && InSection(p) && SessionOk(st'.w, p) && PhaseOk(st'.w, p)
    requires tok !in st'.procs ==> Agree(st'.w, u)
    ensures Inv(st')
  {
    forall t | t in st'.procs
      ensures SessionOk(st'.w, st'.procs[t]) && PhaseOk(st'.w, st'.procs[t])
    {
      if t != tok {
        OthersPhases(st, st', tok, u, t);
      }
    }
    forall u' | Free(st', u')
      ensures Agree(st'.w, u')
    {
      if u' != u {
        assert Free(st, u') by {
          forall t | t in st.procs && st.procs[t].u == u'
            ensures !InSection(st.procs[t])
          {
            assert st'.procs[t] == st.procs[t];
          }
        }
        AgreeFrame(st.w, st'.w, u');
      } else {
        assert tok in st'.procs ==> !Free(st', u);
      }
    }
  }

  /** A step that moves no critical section and only removes bindings. */
  lemma QuietStep(st: State, st': State)
    requires Inv(st) && LocksOk(st') && TablesOk(st'.w) && ObjsGrow(st.w, st'.w)
    requires forall u :: Fewer(st.w, st'.w, u)
    requires forall t :: t in st.procs && InSection(st.procs[t]) ==> t in st'.procs && st'.procs[t] == st.procs[t]
    requires forall t :: t in st'.procs ==>
               SessionOk(st'.w, st'.procs[t]) && KeepsBinding(st'.w, st'.procs[t]) &&
               (InSection(st'.procs[t]) ==> t in st.procs && st.procs[t] == st'.procs[t])
    ensures Inv(st')
  {
    forall t | t in st'.procs
      ensures PhaseOk(st'.w, st'.procs[t])
    {
      if InSection(st'.procs[t]) {
        assert SessionOk(st.w, st.procs[t]);
        PhaseFrame(st.w, st'.w, st'.procs[t]);
      }
    }
    forall u | Free(st', u)
      ensures Agree(st'.w, u)
    {
      assert Free(st, u);
      AgreeFrame(st.w, st'.w, u);
    }
  }

  // ------------------------------------------------------------------------------------------
  // Worlds: clearing a session
  // ------------------------------------------------------------------------------------------

  /** Clearing a session removes that session's binding and no other. */
  lemma ClearBound(w: World, s: ServerName, x: SessionId, u: Uid, s': ServerName, x': SessionId)
    requires TablesOk(w)
    ensures IsBound(Clear(w, s, x), u, s', x') <==> IsBound(w, u, s', x') && !(s' == s && x' == x)
  {
  }

  lemma ClearFacts(w: World, s: ServerName, x: SessionId)
    requires TablesOk(w)
    ensures TablesOk(Clear(w, s, x)) && ObjsGrow(w, Clear(w, s, x))
    ensures forall u :: Fewer(w, Clear(w, s, x), u)
    ensures forall u, s', x' :: IsBound(Clear(w, s, x), u, s', x') <==> IsBound(w, u, s', x') && !(s' == s && x' == x)
  {
    var w' := Clear(w, s, x);
    forall u, s', x'
      ensures IsBound(w', u, s', x') <==> IsBound(w, u, s', x') && !(s' == s && x' == x)
    {
      ClearBound(w, s, x, u, s', x');
    }
  }

  lemma ClearSessionOk(w: World, s: ServerName, x: SessionId, p: Proc)
    requires SessionOk(w, p) && (p.Login? ==> p.x != x)
    ensures SessionOk(Clear(w, s, x), p)
  {
  }

  /** A session that no login is working for can be cleared under anyone's feet. */
  lemma ClearWorldStep(st: State, s: ServerName, x: SessionId, tok: string, u: Uid)
    requires Inv(st)
    requires forall t :: t in st.procs && t != tok && st.procs[t].Login? ==> st.procs[t].x != x
    ensures WorldStep(st, Clear(st.w, s, x), tok, u)
  {
    ClearFacts(st.w, s, x);
    forall t | t in st.procs && t != tok
      ensures SessionOk(Clear(st.w, s, x), st.procs[t]) && KeepsBinding(Clear(st.w, s, x), st.procs[t])
    {
      ClearSessionOk(st.w, s, x, st.procs[t]);
      assert PhaseOk(st.w, st.procs[t]);
    }
  }

  lemma StillWorldStep(st: State, tok: string, u: Uid)
    requires Inv(st)
    ensures WorldStep(st, st.w, tok, u)
  {
    forall t | t in st.procs
      ensures KeepsBinding(st.w, st.procs[t])
    {
      assert PhaseOk(st.w, st.procs[t]);
    }
  }

  // ------------------------------------------------------------------------------------------
  // Locks
  // ------------------------------------------------------------------------------------------

  /** A critical section moves from one phase to another; at most it lets go of the count lock. */
  lemma LocksPhase(st: State, st': State, tok: string, p': Proc)
    requires LocksOk(st) && tok in st.procs && InSection(st.procs[tok]) && InSection(p')
    requires p'.u == st.procs[tok].u && p'.s == st.procs[tok].s && p'.x == st.procs[tok].x
    requires p'.Login? <==> st.procs[tok].Login?
    requires HasCount(p') ==> SameCount(p', st.procs[tok]) && st'.locks == st.locks
    requires st'.locks == st.locks ||
             (HasCount(st.procs[tok]) && st'.locks == CompareDelete(st.locks, CountLock, st.procs[tok].ph.c, st.now))
    requires st'.procs == st.procs[tok := p'] && st'.now == st.now && st'.used == st.used
    ensures LocksOk(st')
  {
    forall t | t in st'.procs && InSection(st'.procs[t])
      ensures Holds(st', UserLock(st'.procs[t].u), t)
    {
      assert Holds(st, UserLock(st.procs[t].u), t);
    }
    forall t | t in st'.procs && HasCount(st'.procs[t])
      ensures Holds(st', CountLock, st'.procs[t].ph.c) && st'.procs[t].ph.c in st'.used
    {
      assert Holds(st, CountLock, st.procs[t].ph.c);
    }
    forall t, t' | t in st'.procs && t' in st'.procs && SameCount(st'.procs[t], st'.procs[t'])
      ensures t == t'
    {
      assert SameCount(st.procs[t], st.procs[t']);
    }
    forall t, t' | t in st'.procs && t' in st'.procs && SameLogic(st'.procs[t], st'.procs[t'])
      ensures t == t'
    {
      assert SameLogic(st.procs[t], st.procs[t']);
    }
  }

  lemma LocksFinish(st: State, tok: string)
    requires LocksOk(st) && tok in st.procs && InSection(st.procs[tok])
    ensures LocksOk(Finish(st, tok))
  {
    var st' := Finish(st, tok);
    forall t | t in st'.procs && InSection(st'.procs[t])
      ensures Holds(st', UserLock(st'.procs[t].u), t)
    {
      assert Holds(st, UserLock(st.procs[t].u), t);
    }
    forall t | t in st'.procs && HasCount(st'.procs[t])
      ensures Holds(st', CountLock, st'.procs[t].ph.c)
    {
      assert Holds(st, CountLock, st.procs[t].ph.c);
    }
  }

  /** A critical section begins: `tok` takes the lock of its user. */
  lemma LocksBegin(st: State, st': State, tok: string, p: Proc)
    requires LocksOk(st) && !Held(st.locks, UserLock(p.u), st.now) && InSection(p) && !HasCount(p)
    requires tok in st.procs ==> tok in st.used && !st.procs[tok].Login? && p.Teardown?
    requires tok !in st.procs ==> tok !in st.used
    requires p.Login? ==> forall t :: t in st.procs && st.procs[t].Login? ==> st.procs[t].s != p.s
    requires st'.locks == SetNx(st.locks, UserLock(p.u), tok, st.now, LOCK_TIMEOUT)
    requires st'.procs == st.procs[tok := p] && st'.now == st.now && st'.used == st.used + {tok}
    ensures LocksOk(st')
  {
    forall t | t in st'.procs && InSection(st'.procs[t])
      ensures Holds(st', UserLock(st'.procs[t].u), t)
    {
      if t != tok {
        assert Holds(st, UserLock(st.procs[t].u), t);
      }
    }
    forall t | t in st'.procs && HasCount(st'.procs[t])
      ensures Holds(st', CountLock, st'.procs[t].ph.c)
    {
      assert Holds(st, CountLock, st.procs[t].ph.c);
    }
  }

  lemma LocksCount(st: State, tok: string, c: string)
    requires LocksOk(st) && Enabled(st, LoginCount(tok, c))
    ensures LocksOk(Apply(st, LoginCount(tok, c)))
  {
    var st' := Apply(st, LoginCount(tok, c));
    forall t | t in st'.procs && InSection(st'.procs[t])
      ensures Holds(st', UserLock(st'.procs[t].u), t)
    {
      assert Holds(st, UserLock(st.procs[t].u), t);
    }
    forall t, t' | t in st'.procs && t' in st'.procs && SameLogic(st'.procs[t], st'.procs[t'])
      ensures t == t'
    {
      assert SameLogic(st.procs[t], st.procs[t']);
    }
  }

  // ------------------------------------------------------------------------------------------
  // Each kind of step
  // ------------------------------------------------------------------------------------------

  lemma AcceptFacts(w: World, s: ServerName, x: SessionId)
    requires TablesOk(w) && s in w.local && x !in w.objs
    ensures forall u, s', x' :: IsBound(AcceptWorld(w, s, x), u, s', x') <==> IsBound(w, u, s', x')
    ensures TablesOk(AcceptWorld(w, s, x)) && ObjsGrow(w, AcceptWorld(w, s, x))
  {
  }

  lemma AcceptKeepsProc(w: World, s: ServerName, x: SessionId, p: Proc)
    requires TablesOk(w) && s in w.local && x !in w.objs && SessionOk(w, p) && PhaseOk(w, p)
    ensures SessionOk(AcceptWorld(w, s, x), p) && KeepsBinding(AcceptWorld(w, s, x), p)
  {
  }

  lemma AcceptStep(st: State, st': State, s: ServerName, x: SessionId)
    requires Inv(st) && s in st.w.local && x !in st.w.objs && st' == st.(w := AcceptWorld(st.w, s, x))
    ensures Inv(st')
  {
    AcceptFacts(st.w, s, x);
    forall t | t in st.procs
      ensures SessionOk(st'.w, st.procs[t]) && KeepsBinding(st'.w, st.procs[t])
    {
      AcceptKeepsProc(st.w, s, x, st.procs[t]);
    }
    LocksSame(st, st');
    QuietStep(st, st');
  }

  lemma LocksSame(st: State, st': State)
    requires LocksOk(st) && st'.procs == st.procs && st'.locks == st.locks && st'.now == st.now && st'.used == st.used
    ensures LocksOk(st')
  {
  }

  /** A step that changes neither bindings nor critical sections. */
  lemma SameStep(st: State, st': State)
    requires Inv(st) && LocksOk(st') && st'.w == st.w && st'.procs == st.procs
    ensures Inv(st')
  {
    assert forall u :: Free(st', u) ==> Free(st, u);
  }

  lemma LocksAdvance(st: State, d: nat)
    requires LocksOk(st) && WithinLease(st, st.now + d)
    ensures LocksOk(st.(now := st.now + d))
  {
  }

  lemma AdvanceStep(st: State, st': State, d: nat)
    requires Inv(st) && WithinLease(st, st.now + d) && st' == st.(now := st.now + d)
    ensures Inv(st')
  {
    LocksAdvance(st, d);
    SameStep(st, st');
  }

  /** A step that changes no bindings, and of the critical sections only those that wait. */
  lemma QuietStillStep(st: State, st': State)
    requires Inv(st) && LocksOk(st') && st'.w == st.w
    requires forall t :: t in st.procs && InSection(st.procs[t]) ==> t in st'.procs && st'.procs[t] == st.procs[t]
    requires forall t :: t in st'.procs ==>
               SessionOk(st.w, st'.procs[t]) &&
               (InSection(st'.procs[t]) ==> t in st.procs && st.procs[t] == st'.procs[t])
    ensures Inv(st')
  {
  }

  lemma LocalClearStep(st: State, st': State, s: ServerName, x: SessionId)
    requires Inv(st) && !InLogin(st, x) && st' == st.(w := Clear(st.w, s, x))
    ensures Inv(st')
  {
    ClearFacts(st.w, s, x);
    forall t | t in st.procs
      ensures SessionOk(st'.w, st.procs[t]) && KeepsBinding(st'.w, st.procs[t])
    {
      assert st.procs[t].Login? ==> st.procs[t].x != x;
      ClearSessionOk(st.w, s, x, st.procs[t]);
      assert PhaseOk(st.w, st.procs[t]);
    }
    LocksSame(st, st');
    QuietStep(st, st');
  }

  /** The counters and the heartbeat checks are no part of the invariant. */
  lemma CountWriteStep(st: State, st': State)
    requires Inv(st) && st' == st.(count := st'.count, checks := st'.checks)
    ensures Inv(st')
  {
    LocksSame(st, st');
    SameStep(st, st');
  }

  lemma TeardownBeginStep(st: State, s: ServerName, x: SessionId, tok: string)
    requires Inv(st) && Enabled(st, TeardownBegin(s, x, tok))
    ensures Inv(Apply(st, TeardownBegin(s, x, tok)))
  {
    var st' := Apply(st, TeardownBegin(s, x, tok));
    LocksShrink(st, st', tok);
    QuietStillStep(st, st');
  }

  lemma TeardownGiveUpStep(st: State, tok: string)
    requires Inv(st) && Enabled(st, TeardownGiveUp(tok))
    ensures Inv(Apply(st, TeardownGiveUp(tok)))
  {
    var st' := Apply(st, TeardownGiveUp(tok));
    LocksShrink(st, st', tok);
    QuietStillStep(st, st');
  }

  /** `tok` comes or goes while it holds nothing. */
  lemma LocksShrink(st: State, st': State, tok: string)
    requires LocksOk(st) && st'.locks == st.locks && st'.now == st.now && st.used <= st'.used
    requires forall t :: t in st'.procs ==> (t in st.procs && st'.procs[t] == st.procs[t]) ||
                                            (t == tok && !InSection(st'.procs[t]) && tok in st'.used)
    ensures LocksOk(st')
  {
    assert forall t :: t in st.procs && InSection(st.procs[t]) ==> Holds(st, UserLock(st.procs[t].u), t);
    assert forall t :: t in st.procs && HasCount(st.procs[t]) ==> Holds(st, CountLock, st.procs[t].ph.c);
    forall t, t' | t in st'.procs && t' in st'.procs && SameCount(st'.procs[t], st'.procs[t'])
      ensures t == t'
    {
      assert SameCount(st.procs[t], st.procs[t']);
    }
    forall t, t' | t in st'.procs && t' in st'.procs && SameLogic(st'.procs[t], st'.procs[t'])
      ensures t == t'
    {
      assert SameLogic(st.procs[t], st.procs[t']);
    }
  }

  /** A login moves to phase `ph` and the world to `w'`. */
  lemma LoginMove(st: State, st': State, tok: string, ph: LoginPhase)
    requires Inv(st) && IsLogin(st, tok) && LocksOk(st')
    requires var p' := st.procs[tok].(ph := ph);
             && WorldStep(st, st'.w, tok, p'.u) && SessionOk(st'.w, p') && PhaseOk(st'.w, p')
             && st'.procs == st.procs[tok := p']
    ensures Inv(st')
  {
    SectionStep(st, st', tok, st.procs[tok].u);
  }

  /** What one sub-step of a login owes: others are undisturbed and its own phase holds. */
  ghost predicate LoginStepOk(st: State, tok: string)
    requires IsLogin(st, tok)
  {
    var p := st.procs[tok];
    var w' := LoginWorld(st.w, p);
    var p' := p.(ph := LoginPhaseNext(st.w, st.count, p));
    WorldStep(st, w', tok, p.u) && SessionOk(w', p') && PhaseOk(w', p')
  }

  lemma LookupFacts(w: World, u: Uid, s: ServerName)
    requires TablesOk(w) && Agree(w, u) && u in w.ip && w.ip[u] == s
    ensures OnlyBinding(w, u, s, Lookup(Users(w, s), u)) && Carries(w, Lookup(Users(w, s), u), u)
  {
    var found := Lookup(Users(w, s), u);
    if found.Some? {
      assert IsBound(w, u, s, found.value);
    }
  }

  predicate Reads(ph: LoginPhase) {
    ph.Locked? || ph.Kicking? || ph.CountLocked? || ph.CountRead? || ph.CountWritten? || ph.CountMissing?
  }

  lemma ReadPhase(w: World, count: map<ServerName, int>, p: Proc)
    requires TablesOk(w) && SessionOk(w, p) && PhaseOk(w, p) && p.Login? && Reads(p.ph)
    ensures var p' := p.(ph := LoginPhaseNext(w, count, p)); LoginWorld(w, p) == w && SessionOk(w, p') && PhaseOk(w, p')
  {
    if p.ph.Kicking? {
      LookupFacts(w, p.u, p.ph.peer);
    }
  }

  lemma LoginReads(st: State, tok: string)
    requires Inv(st) && IsLogin(st, tok) && Reads(st.procs[tok].ph)
    ensures LoginStepOk(st, tok)
  {
    var p := st.procs[tok];
    assert SessionOk(st.w, p) && PhaseOk(st.w, p);
    StillWorldStep(st, tok, p.u);
    ReadPhase(st.w, st.count, p);
  }

  /** The session being kicked carries `u`, so no other login is working for it. */
  lemma LoginKicks(st: State, tok: string)
    requires Inv(st) && IsLogin(st, tok) && st.procs[tok].ph.KickFound?
    ensures LoginStepOk(st, tok)
  {
    var p := st.procs[tok];
    assert SessionOk(st.w, p) && PhaseOk(st.w, p);
    if p.ph.gone.Some? {
      var x := p.ph.gone.value;
      forall t | t in st.procs && t != tok && st.procs[t].Login?
        ensures st.procs[t].x != x
      {
        assert SessionOk(st.w, st.procs[t]);
        if st.procs[t].u == p.u {
          OneSectionPerUser(st, t, tok);
        }
      }
      ClearWorldStep(st, p.ph.peer, x, tok, p.u);
      ClearFacts(st.w, p.ph.peer, x);
      ClearSessionOk(st.w, p.ph.peer, x, p);
    } else {
      StillWorldStep(st, tok, p.u);
    }
  }

  /** The Redis entries of `u` change at most. */
  ghost predicate OnlyRedisOf(w: World, w': World, u: Uid) {
    && w'.local == w.local && w'.objs == w.objs
    && (forall v :: v != u ==> (v in w.ip <==> v in w'.ip) && (v in w.ip ==> w.ip[v] == w'.ip[v]))
    && (forall v :: v != u ==> (v in w.sid <==> v in w'.sid) && (v in w.sid ==> w.sid[v] == w'.sid[v]))
  }

  lemma RedisFacts(w: World, w': World, u: Uid)
    requires TablesOk(w) && OnlyRedisOf(w, w', u)
    ensures forall v, s, x :: IsBound(w', v, s, x) <==> IsBound(w, v, s, x)
    ensures TablesOk(w') && ObjsGrow(w, w') && forall v :: v != u ==> Fewer(w, w', v)
  {
    assert forall v, s, x :: IsBound(w', v, s, x) <==> IsBound(w, v, s, x);
  }

  lemma RedisKeepsProc(w: World, w': World, u: Uid, p: Proc)
    requires SessionOk(w, p) && PhaseOk(w, p) && OnlyRedisOf(w, w', u)
    ensures SessionOk(w', p) && KeepsBinding(w', p)
  {
  }

  lemma RedisWorldStep(st: State, w': World, tok: string, u: Uid)
    requires Inv(st) && OnlyRedisOf(st.w, w', u)
    ensures WorldStep(st, w', tok, u)
    ensures forall v, s, x :: IsBound(w', v, s, x) <==> IsBound(st.w, v, s, x)
  {
    RedisFacts(st.w, w', u);
    forall t | t in st.procs
      ensures SessionOk(w', st.procs[t]) && KeepsBinding(w', st.procs[t])
    {
      RedisKeepsProc(st.w, w', u, st.procs[t]);
    }
  }

  lemma RedisPhase(w: World, count: map<ServerName, int>, p: Proc)
    requires SessionOk(w, p) && PhaseOk(w, p) && p.Login? && (p.ph.Counted? || p.ph.WroteIp?)
    ensures var w', p' := LoginWorld(w, p), p.(ph := LoginPhaseNext(w, count, p)); SessionOk(w', p') && PhaseOk(w', p')
  {
    assert forall v, s, x :: IsBound(LoginWorld(w, p), v, s, x) <==> IsBound(w, v, s, x);
  }

  lemma LoginWritesRedis(st: State, tok: string)
    requires Inv(st) && IsLogin(st, tok)
    requires st.procs[tok].ph.Counted? || st.procs[tok].ph.WroteIp?
    ensures LoginStepOk(st, tok)
  {
    var p := st.procs[tok];
    assert SessionOk(st.w, p) && PhaseOk(st.w, p);
    RedisWorldStep(st, LoginWorld(st.w, p), tok, p.u);
    RedisPhase(st.w, st.count, p);
  }

  lemma SetUidKeepsProc(w: World, x: SessionId, u: Uid, p: Proc)
    requires SessionOk(w, p) && PhaseOk(w, p) && (p.Login? ==> p.x != x) && x in w.objs && w.objs[x].uid == 0
    ensures SessionOk(SetUid(w, x, u), p) && KeepsBinding(SetUid(w, x, u), p)
  {
  }

  lemma SetUidFacts(w: World, x: SessionId, u: Uid)
    requires TablesOk(w) && x in w.objs && w.objs[x].uid == 0
    ensures TablesOk(SetUid(w, x, u)) && ObjsGrow(w, SetUid(w, x, u))
    ensures forall v :: Fewer(w, SetUid(w, x, u), v)
  {
    assert forall v, s, y :: IsBound(SetUid(w, x, u), v, s, y) <==> IsBound(w, v, s, y);
  }

  /** Two logins do not work for one session. */
  lemma OneLoginPerSession(st: State, tok: string, t: string)
    requires Inv(st) && IsLogin(st, tok) && t in st.procs && t != tok && st.procs[t].Login?
    ensures st.procs[t].x != st.procs[tok].x
  {
    assert SessionOk(st.w, st.procs[t]) && SessionOk(st.w, st.procs[tok]);
    assert SameLogic(st.procs[t], st.procs[tok]) ==> t == tok;
  }

  lemma SetUidWorldStep(st: State, tok: string, u: Uid)
    requires Inv(st) && IsLogin(st, tok) && st.procs[tok].x in st.w.objs && st.w.objs[st.procs[tok].x].uid == 0
    ensures WorldStep(st, SetUid(st.w, st.procs[tok].x, u), tok, u)
  {
    var x := st.procs[tok].x;
    SetUidFacts(st.w, x, u);
    forall t | t in st.procs && t != tok
      ensures SessionOk(SetUid(st.w, x, u), st.procs[t]) && KeepsBinding(SetUid(st.w, x, u), st.procs[t])
    {
      if st.procs[t].Login? {
        OneLoginPerSession(st, tok, t);
      }
      SetUidKeepsProc(st.w, x, u, st.procs[t]);
    }
  }

  lemma LoginSetsUid(st: State, tok: string)
    requires Inv(st) && IsLogin(st, tok) && st.procs[tok].ph.WroteSid?
    ensures LoginStepOk(st, tok)
  {
    var p := st.procs[tok];
    assert SessionOk(st.w, p) && PhaseOk(st.w, p);
    SetUidWorldStep(st, tok, p.u);
    SetUidUnbound(st.w, p.x, p.u);
  }

  lemma SetUidUnbound(w: World, x: SessionId, u: Uid)
    requires NoneBound(w, u)
    ensures NoneBound(SetUid(w, x, u), u)
  {
    assert forall s, y :: IsBound(SetUid(w, x, u), u, s, y) <==> IsBound(w, u, s, y);
  }

  /** Binding a free uid adds that binding and no other. */
  lemma BindBound(w: World, s: ServerName, u: Uid, x: SessionId, u': Uid, s': ServerName, x': SessionId)
    requires NoneBound(w, u) && s in w.local
    ensures IsBound(Bind(w, s, u, x), u', s', x') <==> IsBound(w, u', s', x') || (u' == u && s' == s && x' == x)
  {
    if u in w.local[s].users {
      assert IsBound(w, u, s, w.local[s].users[u]);
    }
  }

  lemma BindTables(w: World, s: ServerName, u: Uid, x: SessionId)
    requires TablesOk(w) && NoneBound(w, u) && u != 0 && s in w.local && x in w.local[s].sessions && w.objs[x].uid == u
    ensures TablesOk(Bind(w, s, u, x)) && IsBound(Bind(w, s, u, x), u, s, x)
    ensures forall v, s', x' :: IsBound(Bind(w, s, u, x), v, s', x') <==>
              IsBound(w, v, s', x') || (v == u && s' == s && x' == x)
  {
    forall v, s', x'
      ensures IsBound(Bind(w, s, u, x), v, s', x') <==> IsBound(w, v, s', x') || (v == u && s' == s && x' == x)
    {
      BindBound(w, s, u, x, v, s', x');
    }
  }

  lemma BindKeepsProc(w: World, s: ServerName, u: Uid, x: SessionId, p: Proc)
    requires SessionOk(w, p) && PhaseOk(w, p)
    ensures SessionOk(Bind(w, s, u, x), p) && KeepsBinding(Bind(w, s, u, x), p)
  {
  }

  lemma BindWorldStep(st: State, s: ServerName, u: Uid, x: SessionId, tok: string)
    requires Inv(st) && NoneBound(st.w, u) && u != 0
    requires s in st.w.local && x in st.w.local[s].sessions && x in st.w.objs && st.w.objs[x].uid == u
    ensures WorldStep(st, Bind(st.w, s, u, x), tok, u)
  {
    BindTables(st.w, s, u, x);
    forall t | t in st.procs
      ensures SessionOk(Bind(st.w, s, u, x), st.procs[t]) && KeepsBinding(Bind(st.w, s, u, x), st.procs[t])
    {
      BindKeepsProc(st.w, s, u, x, st.procs[t]);
    }
  }

  lemma BindPhase(w: World, p: Proc)
    requires TablesOk(w) && SessionOk(w, p) && PhaseOk(w, p) && p.Login? && p.ph.UidSet?
    ensures var w', p' := Bind(w, p.s, p.u, p.x), p.(ph := Bound); SessionOk(w', p') && PhaseOk(w', p')
  {
    BindTables(w, p.s, p.u, p.x);
  }

  lemma LoginBinds(st: State, tok: string)
    requires Inv(st) && IsLogin(st, tok) && st.procs[tok].ph.UidSet?
    ensures LoginStepOk(st, tok)
  {
    var p := st.procs[tok];
    assert SessionOk(st.w, p) && PhaseOk(st.w, p);
    BindWorldStep(st, p.s, p.u, p.x, tok);
    BindPhase(st.w, p);
  }

  lemma LoginStepSound(st: State, tok: string)
    requires Inv(st) && IsLogin(st, tok)
    requires var ph := st.procs[tok].ph; !ph.Kicked? && !ph.Bound? && !ph.Failed?
    ensures LoginStepOk(st, tok)
  {
    match st.procs[tok].ph {
      case KickFound(_, _) => LoginKicks(st, tok);
      case Counted => LoginWritesRedis(st, tok);
      case WroteIp => LoginWritesRedis(st, tok);
      case WroteSid => LoginSetsUid(st, tok);
      case UidSet => LoginBinds(st, tok);
      case _ => LoginReads(st, tok);
    }
  }

  lemma LoginFinishStep(st: State, tok: string)
    requires Inv(st) && IsLogin(st, tok) && (st.procs[tok].ph.Bound? || st.procs[tok].ph.Failed?)
    ensures Inv(Finish(st, tok))
  {
    var p := st.procs[tok];
    assert PhaseOk(st.w, p);
    LocksFinish(st, tok);
    StillWorldStep(st, tok, p.u);
    SectionStep(st, Finish(st, tok), tok, p.u);
  }

  lemma LoginLocks(st: State, tok: string)
    requires LocksOk(st) && IsLogin(st, tok)
    requires var ph := st.procs[tok].ph; !ph.Kicked? && !ph.Bound? && !ph.Failed?
    ensures LocksOk(LoginApply(st, tok))
  {
    var p := st.procs[tok];
    LocksPhase(st, LoginApply(st, tok), tok, p.(ph := LoginPhaseNext(st.w, st.count, p)));
  }

  lemma LoginNextStep(st: State, tok: string)
    requires Inv(st) && Enabled(st, LoginNext(tok))
    ensures Inv(Apply(st, LoginNext(tok)))
  {
    var p := st.procs[tok];
    if p.ph.Bound? || p.ph.Failed? {
      LoginFinishStep(st, tok);
    } else {
      LoginStepSound(st, tok);
      LoginLocks(st, tok);
      LoginMove(st, LoginApply(st, tok), tok, LoginPhaseNext(st.w, st.count, p));
    }
  }

  lemma LoginBeginStep(st: State, s: ServerName, u: Uid, x: SessionId, tok: string)
    requires Inv(st) && Enabled(st, LoginBegin(s, u, x, tok)) && Guard(st, LoginBegin(s, u, x, tok))
    ensures Inv(Apply(st, LoginBegin(s, u, x, tok)))
  {
    var st' := Apply(st, LoginBegin(s, u, x, tok));
    NotHeldIsFree(st, u);
    LocksBegin(st, st', tok, Login(s, u, x, Locked));
    StillWorldStep(st, tok, u);
    SectionStep(st, st', tok, u);
  }

  lemma LoginCountStep(st: State, tok: string, c: string)
    requires Inv(st) && Enabled(st, LoginCount(tok, c))
    ensures Inv(Apply(st, LoginCount(tok, c)))
  {
    var p := st.procs[tok];
    assert SessionOk(st.w, p) && PhaseOk(st.w, p);
    LocksCount(st, tok, c);
    StillWorldStep(st, tok, p.u);
    LoginMove(st, Apply(st, LoginCount(tok, c)), tok, CountLocked(c));
  }

  lemma LoginCountFailStep(st: State, tok: string)
    requires Inv(st) && Enabled(st, LoginCountFail(tok))
    ensures Inv(Apply(st, LoginCountFail(tok)))
  {
    var p := st.procs[tok];
    var st' := Apply(st, LoginCountFail(tok));
    assert SessionOk(st.w, p) && PhaseOk(st.w, p);
    LocksPhase(st, st', tok, p.(ph := Failed));
    StillWorldStep(st, tok, p.u);
    LoginMove(st, st', tok, Failed);
  }

  /** A kick that gets lost does no harm where there was nothing to kick. */
  lemma KickLostStep(st: State, tok: string)
    requires Inv(st) && Enabled(st, KickLost(tok)) && Guard(st, KickLost(tok))
    ensures Inv(Apply(st, KickLost(tok)))
  {
    var p := st.procs[tok];
    var st' := Apply(st, KickLost(tok));
    assert SessionOk(st.w, p) && PhaseOk(st.w, p);
    LocksPhase(st, st', tok, p.(ph := Kicked));
    StillWorldStep(st, tok, p.u);
    LoginMove(st, st', tok, Kicked);
  }

  // Teardown

  lemma TeardownMove(st: State, st': State, tok: string, tp: TeardownPhase)
    requires Inv(st) && IsTeardown(st, tok) && LocksOk(st') && tp != Waiting
    requires Free(st, st.procs[tok].u) || InSection(st.procs[tok])
    requires var p' := st.procs[tok].(tp := tp);
             && WorldStep(st, st'.w, tok, p'.u) && SessionOk(st'.w, p') && PhaseOk(st'.w, p')
             && st'.procs == st.procs[tok := p']
    ensures Inv(st')
  {
    SectionStep(st, st', tok, st.procs[tok].u);
  }

  lemma ClearPhase(w: World, p: Proc)
    requires TablesOk(w) && SessionOk(w, p) && PhaseOk(w, p) && p.Teardown? && (p.tp.ClearOwn? || p.tp.ClearKept?)
    ensures SessionOk(Clear(w, p.s, p.x), p.(tp := Cleared)) && PhaseOk(Clear(w, p.s, p.x), p.(tp := Cleared))
  {
    ClearFacts(w, p.s, p.x);
    ClearSessionOk(w, p.s, p.x, p);
  }

  lemma TeardownClears(st: State, tok: string)
    requires Inv(st) && IsTeardown(st, tok) && !InLogin(st, st.procs[tok].x)
    requires st.procs[tok].tp.ClearOwn? || st.procs[tok].tp.ClearKept?
    ensures var p := st.procs[tok];
            var w' := Clear(st.w, p.s, p.x);
            WorldStep(st, w', tok, p.u) && SessionOk(w', p.(tp := Cleared)) && PhaseOk(w', p.(tp := Cleared))
  {
    var p := st.procs[tok];
    assert SessionOk(st.w, p) && PhaseOk(st.w, p);
    assert forall t :: t in st.procs && st.procs[t].Login? ==> st.procs[t].x != p.x;
    ClearWorldStep(st, p.s, p.x, tok, p.u);
    ClearPhase(st.w, p);
  }

  /** If Redis names the session being torn down, no other session is bound to its user. */
  lemma TeardownChecks(st: State, tok: string)
    requires Inv(st) && IsTeardown(st, tok) && st.procs[tok].tp.Checking?
    ensures var p := st.procs[tok]; PhaseOk(st.w, p.(tp := TeardownPhaseNext(st.w, p)))
  {
  }

  lemma TeardownStarts(st: State, tok: string)
    requires Inv(st) && Enabled(st, TeardownNext(tok)) && st.procs[tok].tp.Waiting?
    ensures Inv(TeardownApply(st, tok))
  {
    var p := st.procs[tok];
    assert SessionOk(st.w, p);
    StillWorldStep(st, tok, p.u);
    NotHeldIsFree(st, p.u);
    LocksBegin(st, TeardownApply(st, tok), tok, p.(tp := Checking));
    TeardownMove(st, TeardownApply(st, tok), tok, Checking);
  }

  lemma TeardownFinishes(st: State, tok: string)
    requires Inv(st) && IsTeardown(st, tok) && st.procs[tok].tp.Cleared?
    ensures Inv(Finish(st, tok))
  {
    var p := st.procs[tok];
    assert PhaseOk(st.w, p);
    StillWorldStep(st, tok, p.u);
    LocksFinish(st, tok);
    SectionStep(st, Finish(st, tok), tok, p.u);
  }

  /** What one sub-step of a teardown inside its critical section owes. */
  ghost predicate TeardownStepOk(st: State, tok: string)
    requires IsTeardown(st, tok)
  {
    var p := st.procs[tok];
    var w' := TeardownWorld(st.w, p);
    var p' := p.(tp := TeardownPhaseNext(st.w, p));
    WorldStep(st, w', tok, p.u) && SessionOk(w', p') && PhaseOk(w', p')
  }

  lemma TeardownStepSound(st: State, tok: string)
    requires Inv(st) && IsTeardown(st, tok) && Guard(st, TeardownNext(tok))
    requires !st.procs[tok].tp.Waiting? && !st.procs[tok].tp.Cleared?
    ensures TeardownStepOk(st, tok)
  {
    var p := st.procs[tok];
    assert SessionOk(st.w, p) && PhaseOk(st.w, p);
    match p.tp {
      case Checking =>
        StillWorldStep(st, tok, p.u);
        TeardownChecks(st, tok);
      case DelSid => RedisWorldStep(st, TeardownWorld(st.w, p), tok, p.u);
      case DelIp => RedisWorldStep(st, TeardownWorld(st.w, p), tok, p.u);
      case _ => TeardownClears(st, tok);
    }
  }

  lemma TeardownNextStep(st: State, tok: string)
    requires Inv(st) && Enabled(st, TeardownNext(tok)) && Guard(st, TeardownNext(tok))
    ensures Inv(Apply(st, TeardownNext(tok)))
  {
    var p := st.procs[tok];
    if p.tp.Waiting? {
      TeardownStarts(st, tok);
    } else if p.tp.Cleared? {
      TeardownFinishes(st, tok);
    } else {
      var p' := p.(tp := TeardownPhaseNext(st.w, p));
      TeardownStepSound(st, tok);
      LocksPhase(st, TeardownApply(st, tok), tok, p');
      TeardownMove(st, TeardownApply(st, tok), tok, p'.tp);
    }
  }

  // Server stop and heartbeat check

  function StopWorld(w: World, s: ServerName): World {
    w.(local := w.local[s := EMPTY_LOCAL])
  }

  lemma StopFacts(w: World, s: ServerName)
    requires TablesOk(w)
    ensures forall u, s', x :: IsBound(StopWorld(w, s), u, s', x) <==> IsBound(w, u, s', x) && s' != s
    ensures TablesOk(StopWorld(w, s)) && forall u :: Fewer(w, StopWorld(w, s), u)
  {
  }

  lemma StopKeepsProc(w: World, s: ServerName, p: Proc)
    requires TablesOk(w) && SessionOk(w, p) && PhaseOk(w, p) && p.s != s
    ensures SessionOk(StopWorld(w, s), p) && PhaseOk(StopWorld(w, s), p)
  {
    StopFacts(w, s);
    PhaseFrame(w, StopWorld(w, s), p);
  }

  /** A critical section that dies with its server leaves its user unbound or in agreement. */
  lemma StopFrees(w: World, s: ServerName, p: Proc)
    requires TablesOk(w) && PhaseOk(w, p) && InSection(p) && p.s == s
    ensures Agree(StopWorld(w, s), p.u)
  {
    StopFacts(w, s);
    assert Fewer(w, StopWorld(w, s), p.u);
  }

  lemma StopStep(st: State, s: ServerName, graceful: bool)
    requires Inv(st) && Enabled(st, Stop(s, graceful))
    ensures Inv(Apply(st, Stop(s, graceful)))
  {
    var st' := Apply(st, Stop(s, graceful));
    StopFacts(st.w, s);
    LocksShrink(st, st', "");
    forall t | t in st'.procs
      ensures SessionOk(st'.w, st'.procs[t]) && PhaseOk(st'.w, st'.procs[t])
    {
      StopKeepsProc(st.w, s, st.procs[t]);
    }
    forall u | Free(st', u)
      ensures Agree(st'.w, u)
    {
      if Free(st, u) {
        AgreeFrame(st.w, st'.w, u);
      } else {
        var t :| t in st.procs && st.procs[t].u == u && InSection(st.procs[t]);
        assert t !in st'.procs;
        StopFrees(st.w, s, st.procs[t]);
      }
    }
  }

  lemma TickBound(w: World, s: ServerName, expired: set<SessionId>, u: Uid, s': ServerName, x: SessionId)
    requires TablesOk(w) && s in w.local
    ensures IsBound(TickWorld(w, s, expired), u, s', x) <==> IsBound(w, u, s', x) && !(s' == s && x in expired)
  {
  }

  lemma TickFacts(w: World, s: ServerName, torn: set<SessionId>)
    requires TablesOk(w) && s in w.local
    ensures forall u, s', x :: IsBound(TickWorld(w, s, torn), u, s', x) <==>
              IsBound(w, u, s', x) && !(s' == s && x in torn)
    ensures TablesOk(TickWorld(w, s, torn))
    ensures forall u :: u !in Deleted(w, torn) ==> Fewer(w, TickWorld(w, s, torn), u)
  {
    forall u, s', x
      ensures IsBound(TickWorld(w, s, torn), u, s', x) <==> IsBound(w, u, s', x) && !(s' == s && x in torn)
    {
      TickBound(w, s, torn, u, s', x);
    }
    TickTables(w, s, torn);
    forall u | u !in Deleted(w, torn)
      ensures Fewer(w, TickWorld(w, s, torn), u)
    {
      TickFewer(w, s, torn, u);
    }
  }

  lemma TickTables(w: World, s: ServerName, torn: set<SessionId>)
    requires TablesOk(w) && s in w.local
    ensures TablesOk(TickWorld(w, s, torn))
  {
    var w' := TickWorld(w, s, torn);
    forall u, s', x | IsBound(w', u, s', x)
      ensures x in w'.local[s'].sessions && x in w'.objs && w'.objs[x].uid == u && u != 0
    {
      TickBound(w, s, torn, u, s', x);
    }
  }

  lemma TickFewer(w: World, s: ServerName, torn: set<SessionId>, u: Uid)
    requires TablesOk(w) && s in w.local && u !in Deleted(w, torn)
    ensures Fewer(w, TickWorld(w, s, torn), u)
  {
    forall s', x | IsBound(TickWorld(w, s, torn), u, s', x)
      ensures IsBound(w, u, s', x)
    {
      TickBound(w, s, torn, u, s', x);
    }
  }

  lemma TickKeepsProc(st: State, s: ServerName, torn: set<SessionId>, t: string)
    requires Inv(st) && CanTearDown(st, s, torn) && NoneInLogin(st, torn) && t in st.procs
    ensures SessionOk(TickWorld(st.w, s, torn), st.procs[t]) && PhaseOk(TickWorld(st.w, s, torn), st.procs[t])
  {
    var p := st.procs[t];
    TickFacts(st.w, s, torn);
    assert SessionOk(st.w, p) && PhaseOk(st.w, p);
    assert p.Login? ==> p.x !in torn;
    if InSection(p) {
      if p.u in Deleted(st.w, torn) {
        NotHeldIsFree(st, p.u);
      }
      PhaseFrame(st.w, TickWorld(st.w, s, torn), p);
    }
  }

  /** The check deletes Redis entries only of users whose lock it had. */
  lemma TickStep(st: State, st': State, s: ServerName, torn: set<SessionId>)
    requires Inv(st) && CanTearDown(st, s, torn) && NoneInLogin(st, torn)
    requires st' == st.(w := TickWorld(st.w, s, torn), count := st'.count)
    ensures Inv(st')
  {
    TickFacts(st.w, s, torn);
    LocksSame(st, st');
    forall t | t in st'.procs
      ensures SessionOk(st'.w, st'.procs[t]) && PhaseOk(st'.w, st'.procs[t])
    {
      TickKeepsProc(st, s, torn, t);
    }
    forall u | Free(st', u)
      ensures Agree(st'.w, u)
    {
      assert Free(st, u);
      if u in Deleted(st.w, torn) {
        TickDeletedUnbound(st, s, torn, u);
      } else {
        AgreeFrame(st.w, st'.w, u);
      }
    }
  }

  lemma TickDeletedUnbound(st: State, s: ServerName, torn: set<SessionId>, u: Uid)
    requires Inv(st) && CanTearDown(st, s, torn) && u in Deleted(st.w, torn) && Free(st, u)
    ensures NoneBound(TickWorld(st.w, s, torn), u)
  {
    forall s', x
      ensures !IsBound(TickWorld(st.w, s, torn), u, s', x)
    {
      TickBound(st.w, s, torn, u, s', x);
      if IsBound(st.w, u, s', x) {
        assert Agree(st.w, u) && st.w.sid[u] == x;
        assert x in st.w.local[s].sessions && x in st.w.local[s'].sessions;
      }
    }
  }

  // ------------------------------------------------------------------------------------------
  // Every reachable state
  // ------------------------------------------------------------------------------------------

  lemma LoginKeepsInv(st: State, step: Step)
    requires Inv(st) && Enabled(st, step) && Guard(st, step)
    requires step.LoginBegin? || step.LoginNext? || step.LoginCount? || step.LoginCountFail? || step.KickLost?
    ensures Inv(Apply(st, step))
  {
    match step
    case LoginBegin(s, u, x, tok) => LoginBeginStep(st, s, u, x, tok);
    case LoginNext(tok) => LoginNextStep(st, tok);
    case LoginCount(tok, c) => LoginCountStep(st, tok, c);
    case LoginCountFail(tok) => LoginCountFailStep(st, tok);
    case KickLost(tok) => KickLostStep(st, tok);
  }

  lemma TeardownKeepsInv(st: State, step: Step)
    requires Inv(st) && Enabled(st, step) && Guard(st, step)
    requires step.TeardownBegin? || step.TeardownNext? || step.TeardownGiveUp?
    ensures Inv(Apply(st, step))
  {
    match step
    case TeardownBegin(s, x, tok) => TeardownBeginStep(st, s, x, tok);
    case TeardownNext(tok) => TeardownNextStep(st, tok);
    case TeardownGiveUp(tok) => TeardownGiveUpStep(st, tok);
  }

  lemma SessionKeepsInv(st: State, step: Step)
    requires Inv(st) && Enabled(st, step) && Guard(st, step)
    requires step.Accept? || step.LocalClear? || step.Advance?
    ensures Inv(Apply(st, step))
  {
    match step
    case Accept(s, x) => AcceptStep(st, Apply(st, step), s, x);
    case LocalClear(s, x) => LocalClearStep(st, Apply(st, step), s, x);
    case Advance(d) => AdvanceStep(st, Apply(st, step), d);
  }

  lemma ServerKeepsInv(st: State, step: Step)
    requires Inv(st) && Enabled(st, step) && Guard(st, step)
    requires step.Tick? || step.TickSnapshot? || step.TickWrite? || step.Stop? || step.Boot?
    ensures Inv(Apply(st, step))
  {
    match step
    case Tick(s, expired, torn) => TickStep(st, Apply(st, step), s, torn);
    case TickSnapshot(s, expired) => CountWriteStep(st, Apply(st, step));
    case TickWrite(s) => CountWriteStep(st, Apply(st, step));
    case Stop(s, graceful) => StopStep(st, s, graceful);
    case Boot(s) => CountWriteStep(st, Apply(st, step));
  }

  lemma StepKeepsInv(st: State, step: Step)
    requires Inv(st) && Enabled(st, step) && Guard(st, step)
    ensures Inv(Apply(st, step))
  {
    if step.LoginBegin? || step.LoginNext? || step.LoginCount? || step.LoginCountFail? || step.KickLost? {
      LoginKeepsInv(st, step);
    } else if step.TeardownBegin? || step.TeardownNext? || step.TeardownGiveUp? {
      TeardownKeepsInv(st, step);
    } else if step.Accept? || step.LocalClear? || step.Advance? {
      SessionKeepsInv(st, step);
    } else {
      ServerKeepsInv(st, step);
    }
  }

  lemma {:induction false} InvOverRun(st: State, steps: seq<Step>)
    requires Inv(st) && ValidRun(st, steps)
    ensures Inv(Run(st, steps))
    decreases |steps|
  {
    if steps == [] {
    } else {
      StepKeepsInv(st, steps[0]);
      InvOverRun(Apply(st, steps[0]), steps[1..]);
    }
  }

  lemma Reachable(servers: set<ServerName>, steps: seq<Step>)
    requires ValidRun(Init(servers), steps)
    ensures Inv(Run(Init(servers), steps))
  {
    assert Inv(Init(servers)) by {
      assert forall u, s, x :: !IsBound(Init(servers).w, u, s, x);
    }
    InvOverRun(Init(servers), steps);
  }
}
