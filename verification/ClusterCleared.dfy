/** A session is cleared during its own login, by a close without the user lock, a teardown or a heartbeat
    check: exactly when the tables stay in order and the next login of its user is exclusive. */
module ClusterCleared {
  import opened Registry
  import opened Cluster
  import opened ClusterSafety
  import opened ClusterSequential
  import opened ClusterOverlap

  /** The step takes the session of the login `tok` out of the session table. */
  predicate Removes(st: State, step: Step, tok: string)
    requires IsLogin(st, tok)
  {
    var p := st.procs[tok];
    match step
    case LocalClear(s, x) => s == p.s && x == p.x
    case TeardownNext(t) =>
      IsTeardown(st, t) && st.procs[t].x == p.x && (st.procs[t].tp.ClearOwn? || st.procs[t].tp.ClearKept?)
    case Tick(s, expired, torn) => s == p.s && p.x in torn
    case _ => false
  }

  ghost predicate Unlisted(w: World, p: Proc) {
    && TablesOk(w) && p.u != 0 && p.s in w.local && p.x !in w.local[p.s].sessions
    && p.x in w.objs && w.objs[p.x].home == p.s
  }

  /** A login that is not done and whose session is not listed. */
  ghost predicate Stray(w: World, p: Proc) {
    p.Login? && !p.ph.Bound? && Unlisted(w, p) && PhaseOk(w, p) && w.objs[p.x].uid == (if p.ph.UidSet? then p.u else 0)
  }

  /** It has bound its session all the same. */
  ghost predicate StrayBound(w: World, p: Proc) {
    p.Login? && p.ph.Bound? && PhaseOk(w, p) && p.s in w.local && p.x !in w.local[p.s].sessions
  }

  /** Its session was unbound after it had been bound. */
  ghost predicate Undone(w: World, p: Proc) {
    p.Login? && p.ph.Bound? && Unlisted(w, p) && NoneBound(w, p.u) && p.u in w.sid && w.sid[p.u] == p.x
  }

  // The clear

  /** What the clear leaves. */
  ghost predicate Gone(w: World, p: Proc) {
    p.Login? && if p.ph.Bound? then Undone(w, p) else Stray(w, p)
  }

  lemma RemovedFrame(w: World, w': World, p: Proc)
    requires p.Login? && SessionOk(w, p) && PhaseOk(w, p) && Unlisted(w', p) && Fewer(w, w', p.u) && w'.objs == w.objs
    ensures Gone(w', p)
  {
  }

  lemma ClearRemoves(w: World, p: Proc)
    requires TablesOk(w) && p.Login? && SessionOk(w, p) && PhaseOk(w, p)
    ensures Gone(Clear(w, p.s, p.x), p)
  {
    ClearFacts(w, p.s, p.x);
    RemovedFrame(w, Clear(w, p.s, p.x), p);
  }

  /** A check does not get the lock of the user while the login has it. */
  lemma TickRemoves(st: State, s: ServerName, torn: set<SessionId>, tok: string)
    requires Inv(st) && IsLogin(st, tok) && CanTearDown(st, s, torn) && s == st.procs[tok].s && st.procs[tok].x in torn
    ensures Gone(TickWorld(st.w, s, torn), st.procs[tok])
  {
    var p := st.procs[tok];
    assert SessionOk(st.w, p) && PhaseOk(st.w, p);
    TickFacts(st.w, s, torn);
    assert Holds(st, UserLock(p.u), tok);
    RemovedFrame(st.w, TickWorld(st.w, s, torn), p);
  }

  lemma TeardownRemoves(st: State, t: string, tok: string)
    requires TablesOk(st.w) && IsLogin(st, tok) && IsTeardown(st, t) && Removes(st, TeardownNext(t), tok)
    requires SessionOk(st.w, st.procs[tok]) && PhaseOk(st.w, st.procs[tok]) && SessionOk(st.w, st.procs[t])
    ensures var st' := TeardownApply(st, t);
            tok in st'.procs && st'.procs[tok] == st.procs[tok] && Gone(st'.w, st.procs[tok])
  {
    ClearRemoves(st.w, st.procs[tok]);
  }

  lemma Removed(st: State, step: Step, tok: string)
    requires Inv(st) && IsLogin(st, tok) && Enabled(st, step) && Removes(st, step, tok)
    ensures var st' := Apply(st, step);
            tok in st'.procs && st'.procs[tok] == st.procs[tok] && Gone(st'.w, st.procs[tok])
  {
    assert SessionOk(st.w, st.procs[tok]) && PhaseOk(st.w, st.procs[tok]);
    match step {
      case LocalClear(_, _) => ClearRemoves(st.w, st.procs[tok]);
      case TeardownNext(t) => TeardownRemoves(st, t, tok);
      case Tick(s, _, torn) => TickRemoves(st, s, torn, tok);
    }
  }

  // The rest of the login

  lemma StrayClears(w: World, p: Proc)
    requires Stray(w, p) && p.ph.KickFound?
    ensures Stray(ClearIf(w, p.ph.peer, p.ph.gone), p.(ph := Kicked))
  {
    if p.ph.gone.Some? {
      ClearFacts(w, p.ph.peer, p.ph.gone.value);
    }
  }

  lemma StrayReads(w: World, count: map<ServerName, int>, p: Proc)
    requires Stray(w, p) && Reads(p.ph)
    ensures Stray(w, p.(ph := LoginPhaseNext(w, count, p)))
  {
    if p.ph.Kicking? {
      LookupFacts(w, p.u, p.ph.peer);
    }
  }

  lemma StrayWrites(w: World, count: map<ServerName, int>, p: Proc)
    requires Stray(w, p) && (p.ph.Counted? || p.ph.WroteIp?)
    ensures Stray(LoginWorld(w, p), p.(ph := LoginPhaseNext(w, count, p)))
  {
    assert forall v, s, x :: IsBound(LoginWorld(w, p), v, s, x) <==> IsBound(w, v, s, x);
  }

  lemma StrayUid(w: World, p: Proc)
    requires Stray(w, p) && p.ph.WroteSid?
    ensures Stray(SetUid(w, p.x, p.u), p.(ph := UidSet))
  {
    SetUidFacts(w, p.x, p.u);
    SetUidUnbound(w, p.x, p.u);
  }

  /** The insert does not ask whether the session is listed. */
  lemma StrayBinds(w: World, p: Proc)
    requires Stray(w, p) && p.ph.UidSet?
    ensures StrayBound(Bind(w, p.s, p.u, p.x), p.(ph := Bound))
  {
    forall s, x
      ensures IsBound(Bind(w, p.s, p.u, p.x), p.u, s, x) <==> s == p.s && x == p.x
    {
      BindBound(w, p.s, p.u, p.x, p.u, s, x);
    }
  }

  lemma StrayMoves(w: World, count: map<ServerName, int>, p: Proc)
    requires Stray(w, p) && CanMove(p.ph)
    ensures var w', p' := LoginWorld(w, p), p.(ph := LoginPhaseNext(w, count, p));
            if p.ph.UidSet? then StrayBound(w', p') else Stray(w', p')
  {
    if p.ph.KickFound? {
      StrayClears(w, p);
    } else if p.ph.UidSet? {
      StrayBinds(w, p);
    } else if p.ph.WroteSid? {
      StrayUid(w, p);
    } else if p.ph.Counted? || p.ph.WroteIp? {
      StrayWrites(w, count, p);
    } else {
      StrayReads(w, count, p);
    }
  }

  ghost predicate Astray(st: State, tok: string) {
    IsLogin(st, tok) && (Stray(st.w, st.procs[tok]) || StrayBound(st.w, st.procs[tok]))
  }

  lemma AstrayMoves(st: State, step: Step, tok: string)
    requires Astray(st, tok) && Enabled(st, step) && Moves(st, step, tok, tok)
    ensures Astray(Apply(st, step), tok) && SameLogin(st.procs[tok], Apply(st, step).procs[tok])
  {
    if step.LoginNext? {
      StrayMoves(st.w, st.count, st.procs[tok]);
    }
  }

  lemma {:induction false} AstrayStays(st: State, steps: seq<Step>, tok: string)
    requires Astray(st, tok) && Interleaving(st, steps, tok, tok)
    ensures Astray(Run(st, steps), tok) && SameLogin(st.procs[tok], Run(st, steps).procs[tok])
    decreases |steps|
  {
    if steps == [] {
    } else {
      AstrayMoves(st, steps[0], tok);
      AstrayStays(Apply(st, steps[0]), steps[1..], tok);
    }
  }

  /** A login that has bound its session has nothing more to do but to release its lock. */
  lemma {:induction false} BoundStays(st: State, steps: seq<Step>, tok: string)
    requires IsLogin(st, tok) && st.procs[tok].ph.Bound? && Interleaving(st, steps, tok, tok)
    ensures Run(st, steps).w == st.w && Run(st, steps).procs == st.procs
    decreases |steps|
  {
    if steps == [] {
    } else {
      BoundStays(Apply(st, steps[0]), steps[1..], tok);
    }
  }

  // What the next login finds

  lemma StrayNext(w: World, p: Proc, s: ServerName, y: SessionId)
    requires StrayBound(w, p) && s in w.local && s != p.s
    ensures !TablesOk(w) && !AtMostOne(LoginAll(TeardownAll(w, p.s, p.u, p.x), s, p.u, y, true), p.u)
  {
    var w1 := TeardownAll(w, p.s, p.u, p.x);
    assert IsBound(w1, p.u, p.s, p.x) && p.u !in w1.ip;
    assert p.u in w1.local[s].users ==> IsBound(w, p.u, s, w1.local[s].users[p.u]);
    EnterBound(w1, s, p.u, y, p.u, p.s, p.x);
    EnterBound(w1, s, p.u, y, p.u, s, y);
  }

  lemma UnboundNext(w: World, p: Proc, s: ServerName, y: SessionId)
    requires Undone(w, p) && s in w.local
    ensures TablesOk(w) && AtMostOne(LoginAll(TeardownAll(w, p.s, p.u, p.x), s, p.u, y, true), p.u)
  {
    var w1 := TeardownAll(w, p.s, p.u, p.x);
    assert forall s', x :: IsBound(w1, p.u, s', x) ==> IsBound(w, p.u, s', x);
    forall s', x
      ensures IsBound(LoginAll(w1, s, p.u, y, true), p.u, s', x) ==> s' == s && x == y
    {
      EnterBound(w1, s, p.u, y, p.u, s', x);
    }
  }

  /** In any state of a run under the guards a login is in its section, in whatever phase, and its session
      is cleared; the login goes on to its end. The tables are in order then, and the next login of the
      user on another server, after the teardown of this session, is the only one bound, if and only if
      the login had bound its session before the clear. */
  lemma ClearedDuringLoginIff(st: State, step: Step, rest: seq<Step>, tok: string, s: ServerName, y: SessionId)
    requires Inv(st) && IsLogin(st, tok) && Enabled(st, step) && Removes(st, step, tok)
    requires Interleaving(Apply(st, step), rest, tok, tok)
    requires var end := Run(Apply(st, step), rest); IsLogin(end, tok) && end.procs[tok].ph.Bound? && s in end.w.local
    requires s != st.procs[tok].s
    ensures var p := st.procs[tok];
            var w := Run(Apply(st, step), rest).w;
            && (TablesOk(w) <==> p.ph.Bound?)
            && (AtMostOne(LoginAll(TeardownAll(w, p.s, p.u, p.x), s, p.u, y, true), p.u) <==> p.ph.Bound?)
  {
    var end := Run(Apply(st, step), rest);
    Removed(st, step, tok);
    if st.procs[tok].ph.Bound? {
      BoundStays(Apply(st, step), rest, tok);
      UnboundNext(end.w, end.procs[tok], s, y);
    } else {
      AstrayStays(Apply(st, step), rest, tok);
      StrayNext(end.w, end.procs[tok], s, y);
    }
  }
}
