/** A teardown and a login of one user, or two teardowns, in their critical sections at once, as a lapsed
    lease allows: exactly when Redis still names what is bound, over every interleaving. */
module ClusterOvertake {
  import opened Wrappers
  import opened Registry
  import opened Cluster
  import opened ClusterSafety
  import opened ClusterSequential
  import opened ClusterOverlap

  // ------------------------------------------------------------------------------------------
  // A teardown and a login
  // ------------------------------------------------------------------------------------------

  /** The teardown of one session of a user and the login of another. */
  ghost predicate Mixed(w: World, d: Proc, q: Proc) {
    && d.Teardown? && q.Login? && d.u == q.u && d.x != q.x && !d.tp.Waiting?
    && TablesOk(w) && Own(w, q) && d.x in w.objs && w.objs[d.x] == SessionObj(d.s, d.u)
  }

  /** The one is in its critical section when the other begins. */
  ghost predicate Meets(w: World, d: Proc, q: Proc) {
    Mixed(w, d, q) && ((q.ph.Locked? && PhaseOk(w, d)) || (d.tp.Checking? && PhaseOk(w, q)))
  }

  /** `x` on `s` is what is torn down, when Redis knows of it no longer. */
  predicate Orphan(d: Proc, s: ServerName, x: SessionId)
    requires d.Teardown?
  {
    d.tp.ClearOwn? && s == d.s && x == d.x
  }

  predicate Deleting(tp: TeardownPhase) {
    tp.DelSid? || tp.DelIp?
  }

  /** What the login has written to Redis is gone, or will be. */
  predicate Spoiled(w: World, d: Proc)
    requires d.Teardown?
  {
    Deleting(d.tp) || d.u !in w.ip
  }

  /** The login has written both hashes. */
  predicate Written(ph: LoginPhase) {
    ph.WroteSid? || ph.UidSet? || ph.Bound?
  }

  ghost predicate WroteOk(w: World, d: Proc, q: Proc)
    requires d.Teardown? && q.Login?
  {
    && (d.u in w.ip ==> w.ip[d.u] == q.s)
    && (d.tp.Checking? ==> d.u in w.ip)
    && (Spoiled(w, d) ==> !IsBound(w, d.u, d.s, d.x))
  }

  ghost predicate WrittenOk(w: World, d: Proc, q: Proc)
    requires d.Teardown? && q.Login?
  {
    if Spoiled(w, d) then q.ph.Bound? ==> IsBound(w, q.u, q.s, q.x) else q.u in w.sid && w.sid[q.u] == q.x
  }

  /** What holds while the two go on. */
  ghost predicate Meeting(w: World, d: Proc, q: Proc) {
    && Mixed(w, d, q)
    && (q.ph.Locked? ==> PhaseOk(w, d))
    && (q.ph.KickFound? ==> Carries(w, q.ph.gone, q.u))
    && (Wrote(q.ph) ==> WroteOk(w, d, q)) && (Written(q.ph) ==> WrittenOk(w, d, q))
    && (forall s, x :: IsBound(w, d.u, s, x) ==> Orphan(d, s, x) || Bounds(q, s, x) || Knows(w, q, s, x))
  }

  lemma MeetsGo(w: World, d: Proc, q: Proc)
    requires Meets(w, d, q)
    ensures Meeting(w, d, q)
  {
  }

  // One sub-step of the login

  lemma LoginLooks(w: World, count: map<ServerName, int>, d: Proc, q: Proc)
    requires Meeting(w, d, q) && Unlooked(q.ph)
    ensures Meeting(w, d, q.(ph := LoginPhaseNext(w, count, q)))
  {
    if q.ph.Kicking? {
      var gone := Lookup(Users(w, q.ph.peer), q.u);
      assert gone.Some? ==> IsBound(w, q.u, q.ph.peer, gone.value);
    }
  }

  lemma LoginClears(w: World, d: Proc, q: Proc)
    requires Meeting(w, d, q) && q.ph.KickFound?
    ensures Meeting(ClearIf(w, q.ph.peer, q.ph.gone), d, q.(ph := Kicked))
  {
    if q.ph.gone.Some? {
      ClearFacts(w, q.ph.peer, q.ph.gone.value);
    }
  }

  /** Neither Redis nor the tables change. */
  lemma LoginIdles(w: World, d: Proc, q: Proc, q': Proc)
    requires Meeting(w, d, q) && SameLogin(q, q') && Plain(q.ph) && Plain(q'.ph) && !Wrote(q'.ph)
    ensures Meeting(w, d, q')
  {
  }

  lemma LoginWrites(w: World, count: map<ServerName, int>, d: Proc, q: Proc)
    requires Meeting(w, d, q) && (q.ph.Counted? || q.ph.WroteIp?)
    ensures Meeting(LoginWorld(w, q), d, q.(ph := LoginPhaseNext(w, count, q)))
  {
    assert forall v, s, x :: IsBound(LoginWorld(w, q), v, s, x) <==> IsBound(w, v, s, x);
  }

  lemma LoginUid(w: World, d: Proc, q: Proc)
    requires Meeting(w, d, q) && q.ph.WroteSid?
    ensures Meeting(SetUid(w, q.x, q.u), d, q.(ph := UidSet))
  {
    SetUidFacts(w, q.x, q.u);
    assert forall v, s, x :: IsBound(SetUid(w, q.x, q.u), v, s, x) <==> IsBound(w, v, s, x);
  }

  /** If the session torn down is still bound on the server of the login, it stays so. */
  lemma LoginBindsIfFree(w: World, d: Proc, q: Proc)
    requires Meeting(w, d, q) && q.ph.UidSet?
    ensures Meeting(Bind(w, q.s, q.u, q.x), d, q.(ph := Bound))
  {
    if q.u in w.local[q.s].users {
      assert IsBound(w, q.u, q.s, w.local[q.s].users[q.u]);
      assert Bind(w, q.s, q.u, q.x) == w;
    } else {
      BindOne(w, q.s, q.u, q.x);
    }
  }

  lemma LoginMoves(w: World, count: map<ServerName, int>, d: Proc, q: Proc)
    requires Meeting(w, d, q) && CanMove(q.ph)
    ensures Meeting(LoginWorld(w, q), d, q.(ph := LoginPhaseNext(w, count, q)))
  {
    if Unlooked(q.ph) {
      LoginLooks(w, count, d, q);
    } else if q.ph.KickFound? {
      LoginClears(w, d, q);
    } else if q.ph.Counted? || q.ph.WroteIp? {
      LoginWrites(w, count, d, q);
    } else if q.ph.WroteSid? {
      LoginUid(w, d, q);
    } else if q.ph.UidSet? {
      LoginBindsIfFree(w, d, q);
    } else {
      LoginIdles(w, d, q, q.(ph := LoginPhaseNext(w, count, q)));
    }
  }

  // One sub-step of the teardown

  lemma TeardownReads(w: World, d: Proc, q: Proc)
    requires Meeting(w, d, q) && d.tp.Checking?
    ensures Meeting(w, d.(tp := TeardownPhaseNext(w, d)), q)
  {
  }

  lemma TeardownDeletes(w: World, d: Proc, q: Proc)
    requires Meeting(w, d, q) && Deleting(d.tp)
    ensures Meeting(TeardownWorld(w, d), d.(tp := TeardownPhaseNext(w, d)), q)
  {
    assert forall v, s, x :: IsBound(TeardownWorld(w, d), v, s, x) <==> IsBound(w, v, s, x);
  }

  lemma TeardownEnds(w: World, d: Proc, q: Proc)
    requires Meeting(w, d, q) && (d.tp.ClearOwn? || d.tp.ClearKept?)
    ensures Meeting(Clear(w, d.s, d.x), d.(tp := Cleared), q)
  {
    ClearFacts(w, d.s, d.x);
  }

  lemma TeardownMoves(w: World, d: Proc, q: Proc)
    requires Meeting(w, d, q)
    ensures Meeting(TeardownWorld(w, d), d.(tp := TeardownPhaseNext(w, d)), q)
  {
    if d.tp.Checking? {
      TeardownReads(w, d, q);
    } else if Deleting(d.tp) {
      TeardownDeletes(w, d, q);
    } else if !d.tp.Cleared? {
      TeardownEnds(w, d, q);
    }
  }

  /** Once the login has written both hashes, it is settled whether they stay. */
  lemma SpoiltSettled(w: World, d: Proc, q: Proc)
    requires Meeting(w, d, q) && Written(q.ph)
    ensures Spoiled(TeardownWorld(w, d), d.(tp := TeardownPhaseNext(w, d))) <==> Spoiled(w, d)
  {
  }

  // Every interleaving

  ghost predicate Two(st: State, t1: string, t2: string) {
    IsTeardown(st, t1) && IsLogin(st, t2) && t1 != t2 && Meeting(st.w, st.procs[t1], st.procs[t2])
  }

  predicate SpoiledAt(st: State, tok: string)
    requires IsTeardown(st, tok)
  {
    Spoiled(st.w, st.procs[tok])
  }

  predicate WrittenAt(st: State, tok: string)
    requires IsLogin(st, tok)
  {
    Written(st.procs[tok].ph)
  }

  /** Both sections are still there, for the same sessions. */
  predicate Kept(st: State, st': State, t1: string, t2: string)
    requires IsTeardown(st, t1) && IsLogin(st, t2)
  {
    && IsTeardown(st', t1) && st'.procs[t1] == st.procs[t1].(tp := st'.procs[t1].tp)
    && IsLogin(st', t2) && SameLogin(st.procs[t2], st'.procs[t2])
    && (WrittenAt(st, t2) ==> WrittenAt(st', t2) && (SpoiledAt(st', t1) <==> SpoiledAt(st, t1)))
  }

  lemma TeardownKeepsTwo(st: State, t1: string, t2: string)
    requires Two(st, t1, t2) && !st.procs[t1].tp.Cleared?
    ensures var st' := TeardownApply(st, t1); Two(st', t1, t2) && Kept(st, st', t1, t2)
  {
    TeardownMoves(st.w, st.procs[t1], st.procs[t2]);
    if WrittenAt(st, t2) {
      SpoiltSettled(st.w, st.procs[t1], st.procs[t2]);
    }
  }

  lemma LoginKeepsTwo(st: State, t1: string, t2: string)
    requires Two(st, t1, t2) && CanMove(st.procs[t2].ph)
    ensures var st' := LoginApply(st, t2); Two(st', t1, t2) && Kept(st, st', t1, t2)
  {
    LoginMoves(st.w, st.count, st.procs[t1], st.procs[t2]);
  }

  lemma CountKeepsTwo(st: State, st': State, t1: string, t2: string, ph: LoginPhase)
    requires Two(st, t1, t2) && st.procs[t2].ph.Kicked? && (ph.CountLocked? || ph.Failed?)
    requires st'.w == st.w && st'.procs == st.procs[t2 := st.procs[t2].(ph := ph)]
    ensures Two(st', t1, t2) && Kept(st, st', t1, t2)
  {
    LoginIdles(st.w, st.procs[t1], st.procs[t2], st'.procs[t2]);
  }

  lemma MoveKeepsTwo(st: State, step: Step, t1: string, t2: string)
    requires Two(st, t1, t2) && Enabled(st, step) && Moves(st, step, t1, t2)
    ensures var st' := Apply(st, step); Two(st', t1, t2) && Kept(st, st', t1, t2)
  {
    match step {
      case TeardownNext(_) => TeardownKeepsTwo(st, t1, t2);
      case LoginNext(_) => LoginKeepsTwo(st, t1, t2);
      case LoginCount(_, c) => CountKeepsTwo(st, Apply(st, step), t1, t2, CountLocked(c));
      case LoginCountFail(_) => CountKeepsTwo(st, Apply(st, step), t1, t2, Failed);
      case Advance(_) =>
    }
  }

  lemma {:induction false} InterleavingKeepsTwo(st: State, steps: seq<Step>, t1: string, t2: string)
    requires Two(st, t1, t2) && Interleaving(st, steps, t1, t2)
    ensures var st' := Run(st, steps); Two(st', t1, t2) && Kept(st, st', t1, t2)
    decreases |steps|
  {
    if steps == [] {
    } else {
      MoveKeepsTwo(st, steps[0], t1, t2);
      InterleavingKeepsTwo(Apply(st, steps[0]), steps[1..], t1, t2);
    }
  }

  /** A login begins while a teardown of its user, whose lease may have lapsed, is in its section. */
  lemma LoginOvertakes(st: State, d: nat, s: ServerName, u: Uid, x: SessionId, t1: string, t2: string)
    requires Inv(st) && IsTeardown(st, t1) && InSection(st.procs[t1]) && st.procs[t1].u == u
    requires var late := Apply(st, Advance(d));
             Enabled(late, LoginBegin(s, u, x, t2)) && Guard(late, LoginBegin(s, u, x, t2))
    ensures var st' := Apply(Apply(st, Advance(d)), LoginBegin(s, u, x, t2));
            IsTeardown(st', t1) && IsLogin(st', t2) && t1 != t2 && Meets(st'.w, st'.procs[t1], st'.procs[t2])
  {
    assert SessionOk(st.w, st.procs[t1]) && PhaseOk(st.w, st.procs[t1]);
  }

  /** A teardown begins while a login of its user, whose lease may have lapsed, is in its section. */
  lemma TeardownOvertakes(st: State, d: nat, t1: string, t2: string)
    requires Inv(st) && IsTeardown(st, t1) && IsLogin(st, t2) && st.procs[t1].tp.Waiting?
    requires st.procs[t1].u == st.procs[t2].u && st.procs[t1].x != st.procs[t2].x
    requires Enabled(Apply(st, Advance(d)), TeardownNext(t1))
    ensures var st' := Apply(Apply(st, Advance(d)), TeardownNext(t1));
            IsTeardown(st', t1) && IsLogin(st', t2) && t1 != t2 && Meets(st'.w, st'.procs[t1], st'.procs[t2])
  {
    assert SessionOk(st.w, st.procs[t1]);
    assert SessionOk(st.w, st.procs[t2]) && PhaseOk(st.w, st.procs[t2]);
  }

  predicate LoginIs(st: State, tok: string, ph: LoginPhase) {
    IsLogin(st, tok) && st.procs[tok].ph == ph
  }

  predicate HasWritten(st: State, tok: string) {
    IsLogin(st, tok) && WrittenAt(st, tok)
  }

  predicate TornDown(st: State, tok: string) {
    IsTeardown(st, tok) && st.procs[tok].tp.Cleared?
  }

  /** The teardown of one session of a user and the login of another are in their sections at once,
      whichever began first. Interleave them in any way until both are done. Redis names whatever is bound
      in the end, and the next login of the user on any other server leaves one session bound, if and
      only if, when the login had written both hashes, the teardown was not about to delete them and
      `uid_at_ip` was there; whether this is so no longer changes from then on. */
  lemma OvertakenIff(st: State, before: seq<Step>, after: seq<Step>, t1: string, t2: string,
                     s: ServerName, z: SessionId)
    requires IsTeardown(st, t1) && IsLogin(st, t2) && Meets(st.w, st.procs[t1], st.procs[t2])
    requires Interleaving(st, before, t1, t2) && HasWritten(Run(st, before), t2)
    requires Interleaving(Run(st, before), after, t1, t2)
    requires var end := Run(Run(st, before), after);
             LoginIs(end, t2, Bound) && TornDown(end, t1) && s in end.w.local && s != st.procs[t2].s
    ensures var u := st.procs[t2].u;
            var mid := Run(st, before);
            var end := Run(mid, after);
            && IsTeardown(mid, t1)
            && (Agree(end.w, u) <==> !Deleting(mid.procs[t1].tp) && u in mid.w.ip)
            && (AtMostOne(LoginAll(end.w, s, u, z, true), u) <==> !Deleting(mid.procs[t1].tp) && u in mid.w.ip)
  {
    MeetsGo(st.w, st.procs[t1], st.procs[t2]);
    InterleavingKeepsTwo(st, before, t1, t2);
    InterleavingKeepsTwo(Run(st, before), after, t1, t2);
    var end := Run(Run(st, before), after);
    EndsIff(end.w, end.procs[t1], end.procs[t2]);
    NextLoginIff(end.w, end.procs[t1], end.procs[t2], s, z);
  }

  lemma EndsIff(w: World, d: Proc, q: Proc)
    requires Meeting(w, d, q) && d.tp.Cleared? && q.ph.Bound?
    ensures (Agree(w, q.u) <==> !Spoiled(w, d)) && (!Spoiled(w, d) <==> q.u in w.ip)
    ensures forall s, x :: IsBound(w, q.u, s, x) ==> s == q.s && x == q.x
    ensures Spoiled(w, d) ==> IsBound(w, q.u, q.s, q.x)
  {
  }

  lemma NextLoginIff(w: World, d: Proc, q: Proc, s: ServerName, z: SessionId)
    requires Meeting(w, d, q) && d.tp.Cleared? && q.ph.Bound? && s in w.local && s != q.s
    ensures AtMostOne(LoginAll(w, s, q.u, z, true), q.u) <==> !Spoiled(w, d)
  {
    EndsIff(w, d, q);
    if Spoiled(w, d) {
      assert q.u in w.local[s].users ==> IsBound(w, q.u, s, w.local[s].users[q.u]);
      EnterBound(w, s, q.u, z, q.u, s, z);
      EnterBound(w, s, q.u, z, q.u, q.s, q.x);
    } else {
      ClusterSequential.LoginBinds(w, s, q.u, z);
    }
  }

  /** A login that fails leaves the user bound nowhere, whatever the teardown did. */
  lemma FailedOvertakenLeavesNone(st: State, steps: seq<Step>, t1: string, t2: string)
    requires IsTeardown(st, t1) && IsLogin(st, t2) && Meets(st.w, st.procs[t1], st.procs[t2])
    requires Interleaving(st, steps, t1, t2) && LoginIs(Run(st, steps), t2, Failed) && TornDown(Run(st, steps), t1)
    ensures NoneBound(Run(st, steps).w, st.procs[t2].u)
  {
    MeetsGo(st.w, st.procs[t1], st.procs[t2]);
    InterleavingKeepsTwo(st, steps, t1, t2);
  }

  // ------------------------------------------------------------------------------------------
  // Two teardowns
  // ------------------------------------------------------------------------------------------

  /** The teardown has found that Redis names its session. */
  predicate Owning(tp: TeardownPhase) {
    Deleting(tp) || tp.ClearOwn?
  }

  ghost predicate OwnsOnly(w: World, p: Proc)
    requires p.Teardown?
  {
    Owning(p.tp) ==> OnlyBinding(w, p.u, p.s, Some(p.x)) && (p.u in w.sid ==> w.sid[p.u] == p.x)
  }

  predicate HasHome(w: World, p: Proc) {
    p.Teardown? && !p.tp.Waiting? && p.x in w.objs && w.objs[p.x].home == p.s
  }

  /** Two teardowns of one user, of different sessions or the same. */
  ghost predicate Tearing(w: World, p: Proc, q: Proc) {
    && HasHome(w, p) && HasHome(w, q) && p.u == q.u && TablesOk(w) && OwnsOnly(w, p) && OwnsOnly(w, q)
    && (!Owning(p.tp) && !Owning(q.tp) ==> Agree(w, p.u))
  }

  lemma TearingClears(w: World, p: Proc, q: Proc)
    requires Tearing(w, p, q) && (p.tp.ClearOwn? || p.tp.ClearKept?)
    ensures Tearing(Clear(w, p.s, p.x), p.(tp := Cleared), q)
  {
    ClearFacts(w, p.s, p.x);
  }

  lemma TearingDeletes(w: World, p: Proc, q: Proc)
    requires Tearing(w, p, q) && Deleting(p.tp)
    ensures Tearing(TeardownWorld(w, p), p.(tp := TeardownPhaseNext(w, p)), q)
  {
    assert forall v, s, x :: IsBound(TeardownWorld(w, p), v, s, x) <==> IsBound(w, v, s, x);
  }

  lemma TearingMoves(w: World, p: Proc, q: Proc)
    requires Tearing(w, p, q)
    ensures Tearing(TeardownWorld(w, p), p.(tp := TeardownPhaseNext(w, p)), q)
  {
    if p.tp.ClearOwn? || p.tp.ClearKept? {
      TearingClears(w, p, q);
    } else if Deleting(p.tp) {
      TearingDeletes(w, p, q);
    }
  }

  lemma TearingSymmetric(w: World, p: Proc, q: Proc)
    requires Tearing(w, p, q)
    ensures Tearing(w, q, p)
  {
  }

  ghost predicate BothTear(st: State, t1: string, t2: string) {
    IsTeardown(st, t1) && IsTeardown(st, t2) && t1 != t2 && Tearing(st.w, st.procs[t1], st.procs[t2])
  }

  lemma BothTearMoves(st: State, t1: string, t2: string)
    requires BothTear(st, t1, t2) && !st.procs[t1].tp.Cleared?
    ensures BothTear(TeardownApply(st, t1), t1, t2) && TeardownApply(st, t1).procs[t2] == st.procs[t2]
    ensures TeardownApply(st, t1).procs[t1].u == st.procs[t1].u
  {
    TearingMoves(st.w, st.procs[t1], st.procs[t2]);
  }

  lemma MoveKeepsTearing(st: State, step: Step, t1: string, t2: string)
    requires BothTear(st, t1, t2) && Enabled(st, step) && Moves(st, step, t1, t2)
    ensures BothTear(Apply(st, step), t1, t2) && Apply(st, step).procs[t1].u == st.procs[t1].u
  {
    if step == TeardownNext(t1) {
      BothTearMoves(st, t1, t2);
    } else if step == TeardownNext(t2) {
      TearingSymmetric(st.w, st.procs[t1], st.procs[t2]);
      BothTearMoves(st, t2, t1);
      TearingSymmetric(TeardownApply(st, t2).w, TeardownApply(st, t2).procs[t2], st.procs[t1]);
    }
  }

  lemma {:induction false} InterleavingKeepsTearing(st: State, steps: seq<Step>, t1: string, t2: string)
    requires BothTear(st, t1, t2) && Interleaving(st, steps, t1, t2)
    ensures BothTear(Run(st, steps), t1, t2) && Run(st, steps).procs[t1].u == st.procs[t1].u
    decreases |steps|
  {
    if steps == [] {
    } else {
      MoveKeepsTearing(st, steps[0], t1, t2);
      InterleavingKeepsTearing(Apply(st, steps[0]), steps[1..], t1, t2);
    }
  }

  /** The one is in its critical section when the other begins. */
  ghost predicate TearsMeet(w: World, p: Proc, q: Proc) {
    HasHome(w, p) && HasHome(w, q) && p.u == q.u && TablesOk(w) && p.tp.Checking? && PhaseOk(w, q)
  }

  lemma TearsMeetGo(w: World, p: Proc, q: Proc)
    requires TearsMeet(w, p, q)
    ensures Tearing(w, p, q)
  {
  }

  /** A teardown begins while another one of its user, whose lease may have lapsed, is in its section. */
  lemma TeardownsOvertake(st: State, d: nat, t1: string, t2: string)
    requires Inv(st) && IsTeardown(st, t1) && IsTeardown(st, t2) && st.procs[t1].u == st.procs[t2].u
    requires st.procs[t1].tp.Waiting? && InSection(st.procs[t2])
    requires Enabled(Apply(st, Advance(d)), TeardownNext(t1))
    ensures var st' := Apply(Apply(st, Advance(d)), TeardownNext(t1));
            IsTeardown(st', t1) && IsTeardown(st', t2) && TearsMeet(st'.w, st'.procs[t1], st'.procs[t2])
  {
    assert SessionOk(st.w, st.procs[t1]);
    assert SessionOk(st.w, st.procs[t2]) && PhaseOk(st.w, st.procs[t2]);
  }

  /** Two teardowns of a user are in their sections at once. However they interleave, in the end Redis names
      whatever is bound. */
  lemma TeardownsAgree(st: State, steps: seq<Step>, t1: string, t2: string)
    requires IsTeardown(st, t1) && IsTeardown(st, t2) && t1 != t2 && TearsMeet(st.w, st.procs[t1], st.procs[t2])
    requires Interleaving(st, steps, t1, t2) && TornDown(Run(st, steps), t1) && TornDown(Run(st, steps), t2)
    ensures Agree(Run(st, steps).w, st.procs[t1].u)
  {
    TearsMeetGo(st.w, st.procs[t1], st.procs[t2]);
    InterleavingKeepsTearing(st, steps, t1, t2);
  }
}
