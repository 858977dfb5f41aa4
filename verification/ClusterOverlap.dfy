/** Two logins of one user in their critical sections at once, as a lapsed lease allows: exactly when
    they leave one binding, over every interleaving of their sub-steps. */
module ClusterOverlap {
  import opened Wrappers
  import opened Registry
  import opened Cluster
  import opened ClusterSafety
  import opened ClusterSequential

  /** The login has not looked up yet whom to kick. */
  predicate Unlooked(ph: LoginPhase) {
    ph.Locked? || ph.Kicking?
  }

  predicate PastKick(ph: LoginPhase) {
    !Unlooked(ph) && !ph.KickFound?
  }

  /** The session of a login: listed until it is bound. */
  ghost predicate Own(w: World, p: Proc)
    requires p.Login?
  {
    && p.u != 0 && p.s in w.local && p.x in w.objs && w.objs[p.x].home == p.s
    && w.objs[p.x].uid == (if p.ph.UidSet? || p.ph.Bound? then p.u else 0)
    && (!p.ph.Bound? ==> p.x in w.local[p.s].sessions)
  }

  /** Two logins of one user on different servers. */
  ghost predicate Pair(w: World, p: Proc, q: Proc) {
    p.Login? && q.Login? && p.u == q.u && p.s != q.s && TablesOk(w) && Own(w, p) && Own(w, q)
  }

  /** The one is in its critical section when the other begins. */
  ghost predicate Overlaps(w: World, p: Proc, q: Proc) {
    && Pair(w, p, q) && SessionOk(w, p) && SessionOk(w, q)
    && ((p.ph.Locked? && PhaseOk(w, q)) || (q.ph.Locked? && PhaseOk(w, p)))
  }

  /** How much `p` knows of the binding of its user to `x` on `s`. */
  predicate Knows(w: World, p: Proc, s: ServerName, x: SessionId)
    requires p.Login?
  {
    match p.ph
    case Locked => p.u in w.ip && w.ip[p.u] == s
    case Kicking(peer) => peer == s
    case KickFound(peer, gone) => peer == s && gone == Some(x)
    case _ => false
  }

  /** `p` has found the session that `q` has bound. */
  predicate Found(p: Proc, q: Proc)
    requires p.Login? && q.Login?
  {
    p.ph == KickFound(q.s, Some(q.x))
  }

  /** `p` has found a session of neither, if any. */
  predicate FoundNeither(p: Proc, q: Proc)
    requires p.Login? && q.Login?
  {
    p.ph.KickFound? && p.ph.gone.Some? ==> p.ph.gone.value != p.x && p.ph.gone.value != q.x
  }

  /** `x` on `s` is what the login has bound. */
  predicate Bounds(p: Proc, s: ServerName, x: SessionId)
    requires p.Login?
  {
    p.ph.Bound? && s == p.s && x == p.x
  }

  /** The login has begun to write to Redis. */
  predicate Wrote(ph: LoginPhase) {
    ph.WroteIp? || ph.WroteSid? || ph.UidSet? || ph.Bound?
  }

  /** Redis names what the login has written. */
  predicate Named(w: World, p: Proc)
    requires p.Login?
  {
    && (Wrote(p.ph) ==> p.u in w.ip && w.ip[p.u] == p.s)
    && (Wrote(p.ph) && !p.ph.WroteIp? ==> p.u in w.sid && w.sid[p.u] == p.x)
  }

  /** What holds while the two go on: what either has bound is still bound, unless `p` found the session
      of `q` and has cleared it; of any other binding both know; and Redis names the last to write, as far
      as it is known. */
  ghost predicate Going(w: World, p: Proc, q: Proc, found: bool) {
    && Pair(w, p, q)
    && (found ==> q.ph.Bound? && !Unlooked(p.ph) && (p.ph.KickFound? ==> Found(p, q)))
    && (!found ==> FoundNeither(p, q)) && FoundNeither(q, p)
    && (found || !Wrote(q.ph) ==> Named(w, p)) && (!Wrote(p.ph) ==> Named(w, q))
    && (p.ph.Bound? ==> IsBound(w, p.u, p.s, p.x))
    && (q.ph.Bound? ==> (IsBound(w, q.u, q.s, q.x) <==> (found ==> p.ph.KickFound?)))
    && (forall s, x :: IsBound(w, p.u, s, x) ==>
          Bounds(p, s, x) || Bounds(q, s, x) || (Knows(w, p, s, x) && Knows(w, q, s, x)))
  }

  lemma Symmetric(w: World, p: Proc, q: Proc)
    requires Going(w, p, q, false)
    ensures Going(w, q, p, false)
  {
  }

  lemma OverlapGoes(w: World, p: Proc, q: Proc)
    requires Overlaps(w, p, q)
    ensures Going(w, p, q, false)
  {
    if p.ph.Locked? && PhaseOk(w, q) {
      NewcomerGoes(w, p, q);
    } else {
      NewcomerGoes(w, q, p);
      Symmetric(w, q, p);
    }
  }

  lemma NewcomerGoes(w: World, p: Proc, q: Proc)
    requires Overlaps(w, p, q) && p.ph.Locked? && PhaseOk(w, q)
    ensures Going(w, p, q, false)
  {
    assert Agree(w, p.u);
  }

  /** The phases in which a login has a next sub-step of its own. */
  predicate CanMove(ph: LoginPhase) {
    !ph.Kicked? && !ph.Bound? && !ph.Failed?
  }

  // ------------------------------------------------------------------------------------------
  // One sub-step of either
  // ------------------------------------------------------------------------------------------

  /** `p` reads the table of its peer. */
  lemma LookMoves(w: World, p: Proc, q: Proc)
    requires Going(w, p, q, false) && p.ph.Kicking?
    ensures var peer := p.ph.peer;
            Going(w, p.(ph := KickFound(peer, Lookup(Users(w, peer), p.u))), q, q.ph.Bound? && peer == q.s)
  {
    var peer := p.ph.peer;
    var gone := Lookup(Users(w, peer), p.u);
    assert gone.Some? ==> IsBound(w, p.u, peer, gone.value);
  }

  lemma LockedMoves(w: World, count: map<ServerName, int>, p: Proc, q: Proc)
    requires Going(w, p, q, false) && p.ph.Locked?
    ensures Going(w, p.(ph := LoginPhaseNext(w, count, p)), q, false)
  {
  }

  lemma ClearMoves(w: World, p: Proc, q: Proc, found: bool)
    requires Going(w, p, q, found) && p.ph.KickFound?
    ensures Going(ClearIf(w, p.ph.peer, p.ph.gone), p.(ph := Kicked), q, found)
  {
    if p.ph.gone.Some? {
      ClearFacts(w, p.ph.peer, p.ph.gone.value);
    }
  }

  /** Neither a read nor a write to Redis moves a binding. */
  lemma PlainMoves(w: World, count: map<ServerName, int>, p: Proc)
    requires p.Login? && CanMove(p.ph) && Plain(p.ph) && !p.ph.WroteSid?
    ensures LoginWorld(w, p).local == w.local && LoginWorld(w, p).objs == w.objs
    ensures var ph := LoginPhaseNext(w, count, p); Plain(ph) && Moved(w, LoginWorld(w, p), p, p.(ph := ph))
  {
  }

  /** Past the kick and before the session is changed. */
  predicate Plain(ph: LoginPhase) {
    PastKick(ph) && !ph.UidSet? && !ph.Bound?
  }

  /** The same login, in whatever phase. */
  predicate SameLogin(p: Proc, p': Proc) {
    p.Login? && p'.Login? && p' == p.(ph := p'.ph)
  }

  /** Redis is as before until the login writes to it. */
  predicate Moved(w: World, w': World, p: Proc, p': Proc)
    requires p.Login? && p'.Login?
  {
    && (Wrote(p.ph) ==> Wrote(p'.ph))
    && (Named(w, p) ==> Named(w', p')) && (!Wrote(p'.ph) ==> w'.ip == w.ip && w'.sid == w.sid)
  }

  /** Bindings and sessions are as before. */
  lemma GoingFrame(w: World, w': World, p: Proc, p': Proc, q: Proc, found: bool)
    requires Going(w, p, q, found) && w'.local == w.local && w'.objs == w.objs
    requires SameLogin(p, p') && Plain(p.ph) && Plain(p'.ph) && Moved(w, w', p, p')
    ensures Going(w', p', q, found)
  {
    assert forall v, s, x :: IsBound(w', v, s, x) <==> IsBound(w, v, s, x);
  }

  lemma UidMoves(w: World, p: Proc, q: Proc, found: bool)
    requires Going(w, p, q, found) && p.ph.WroteSid?
    ensures Going(SetUid(w, p.x, p.u), p.(ph := UidSet), q, found)
  {
    SetUidFacts(w, p.x, p.u);
    assert forall v, s, x :: IsBound(SetUid(w, p.x, p.u), v, s, x) <==> IsBound(w, v, s, x);
  }

  /** A binding on a server where the user has none is added. */
  lemma BindOne(w: World, s: ServerName, u: Uid, x: SessionId)
    requires TablesOk(w) && s in w.local && u !in w.local[s].users && u != 0
    requires x in w.local[s].sessions && x in w.objs && w.objs[x].uid == u
    ensures var w' := Bind(w, s, u, x);
            && TablesOk(w') && w'.objs == w.objs && w'.local.Keys == w.local.Keys
            && (forall v, s', z :: IsBound(w', v, s', z) <==> IsBound(w, v, s', z) || (v == u && s' == s && z == x))
            && (forall s' :: s' in w.local ==> w'.local[s'].sessions == w.local[s'].sessions)
  {
    var w' := Bind(w, s, u, x);
    forall v, s', z
      ensures IsBound(w', v, s', z) <==> IsBound(w, v, s', z) || (v == u && s' == s && z == x)
    {
    }
  }

  lemma BindMoves(w: World, p: Proc, q: Proc, found: bool)
    requires Going(w, p, q, found) && p.ph.UidSet?
    ensures Going(Bind(w, p.s, p.u, p.x), p.(ph := Bound), q, found)
  {
    assert p.u in w.local[p.s].users ==> IsBound(w, p.u, p.s, w.local[p.s].users[p.u]);
    BindOne(w, p.s, p.u, p.x);
  }

  lemma FirstMoves(w: World, count: map<ServerName, int>, p: Proc, q: Proc, found: bool)
    requires Going(w, p, q, found) && CanMove(p.ph)
    ensures Going(LoginWorld(w, p), p.(ph := LoginPhaseNext(w, count, p)), q, found || Finds(p, q))
  {
    if p.ph.Locked? {
      LockedMoves(w, count, p, q);
    } else if p.ph.Kicking? {
      LookMoves(w, p, q);
    } else if p.ph.KickFound? {
      ClearMoves(w, p, q, found);
    } else if p.ph.WroteSid? {
      UidMoves(w, p, q, found);
    } else if p.ph.UidSet? {
      BindMoves(w, p, q, found);
    } else {
      PlainMoves(w, count, p);
      GoingFrame(w, LoginWorld(w, p), p, p.(ph := LoginPhaseNext(w, count, p)), q, found);
    }
  }

  /** With its next sub-step `p` finds the session that `q` has bound. */
  predicate Finds(p: Proc, q: Proc)
    requires p.Login? && q.Login?
  {
    p.ph == Kicking(q.s) && q.ph.Bound?
  }

  lemma SecondMoves(w: World, count: map<ServerName, int>, p: Proc, q: Proc, found: bool)
    requires Going(w, p, q, found) && CanMove(q.ph) && !Finds(q, p)
    ensures Going(LoginWorld(w, q), p, q.(ph := LoginPhaseNext(w, count, q)), found)
  {
    Symmetric(w, p, q);
    FirstMoves(w, count, q, p, false);
    Symmetric(LoginWorld(w, q), q.(ph := LoginPhaseNext(w, count, q)), p);
  }

  // ------------------------------------------------------------------------------------------
  // Every interleaving
  // ------------------------------------------------------------------------------------------

  /** A sub-step of the critical section `tok`, up to its end. */
  predicate SubStep(st: State, step: Step, tok: string) {
    match step
    case LoginNext(t) => t == tok && IsLogin(st, tok) && CanMove(st.procs[tok].ph)
    case LoginCount(t, _) => t == tok
    case LoginCountFail(t) => t == tok
    case TeardownNext(t) => t == tok && IsTeardown(st, tok) && !st.procs[tok].tp.Waiting? && !st.procs[tok].tp.Cleared?
    case _ => false
  }

  /** A sub-step of one of the two, or time passing. */
  predicate Moves(st: State, step: Step, t1: string, t2: string) {
    step.Advance? || SubStep(st, step, t1) || SubStep(st, step, t2)
  }

  /** An interleaving of the two. */
  predicate Interleaving(st: State, steps: seq<Step>, t1: string, t2: string): (possible: bool)
    ensures possible ==> Possible(st, steps)
    decreases |steps|
  {
    steps == [] ||
    (Enabled(st, steps[0]) && Moves(st, steps[0], t1, t2) && Interleaving(Apply(st, steps[0]), steps[1..], t1, t2))
  }

  ghost predicate Both(st: State, t1: string, t2: string, found: bool) {
    IsLogin(st, t1) && IsLogin(st, t2) && t1 != t2 && Going(st.w, st.procs[t1], st.procs[t2], found)
  }

  /** The count lock is taken, or not obtained. */
  lemma CountMoves(w: World, p: Proc, p': Proc, q: Proc, found: bool)
    requires Going(w, p, q, found) && SameLogin(p, p') && p.ph.Kicked? && (p'.ph.CountLocked? || p'.ph.Failed?)
    ensures Going(w, p', q, found)
  {
    GoingFrame(w, w, p, p', q, found);
  }

  lemma CountMovesOther(w: World, p: Proc, q: Proc, q': Proc, found: bool)
    requires Going(w, p, q, found) && SameLogin(q, q') && q.ph.Kicked? && (q'.ph.CountLocked? || q'.ph.Failed?)
    ensures Going(w, p, q', found)
  {
    Symmetric(w, p, q);
    CountMoves(w, q, q', p, false);
    Symmetric(w, q', p);
  }

  lemma NextKeeps(st: State, t1: string, t2: string, found: bool)
    requires Both(st, t1, t2, found) && CanMove(st.procs[t1].ph) && !Finds(st.procs[t1], st.procs[t2])
    ensures Both(LoginApply(st, t1), t1, t2, found)
  {
    FirstMoves(st.w, st.count, st.procs[t1], st.procs[t2], found);
  }

  lemma NextKeepsOther(st: State, t1: string, t2: string, found: bool)
    requires Both(st, t1, t2, found) && CanMove(st.procs[t2].ph) && !Finds(st.procs[t2], st.procs[t1])
    ensures Both(LoginApply(st, t2), t1, t2, found)
  {
    SecondMoves(st.w, st.count, st.procs[t1], st.procs[t2], found);
  }

  lemma MoveKeeps(st: State, step: Step, t1: string, t2: string, found: bool)
    requires Both(st, t1, t2, found) && Enabled(st, step) && Moves(st, step, t1, t2)
    requires step == LoginNext(t1) ==> !Finds(st.procs[t1], st.procs[t2])
    requires step == LoginNext(t2) ==> !Finds(st.procs[t2], st.procs[t1])
    ensures Both(Apply(st, step), t1, t2, found)
  {
    if step.LoginNext? {
      if step.tok == t1 {
        NextKeeps(st, t1, t2, found);
      } else {
        NextKeepsOther(st, t1, t2, found);
      }
    } else if !step.Advance? {
      var st' := Apply(st, step);
      if step.tok == t1 {
        CountMoves(st.w, st.procs[t1], st'.procs[t1], st.procs[t2], found);
      } else {
        CountMovesOther(st.w, st.procs[t1], st.procs[t2], st'.procs[t2], found);
      }
    }
  }

  lemma MoveSame(st: State, step: Step, t1: string, t2: string, tok: string)
    requires IsLogin(st, tok) && Enabled(st, step) && Moves(st, step, t1, t2)
    ensures var st' := Apply(st, step);
            && IsLogin(st', tok) && SameLogin(st.procs[tok], st'.procs[tok])
            && (Unlooked(st'.procs[tok].ph) ==> Unlooked(st.procs[tok].ph))
  {
  }

  lemma {:induction false} SameLogins(st: State, steps: seq<Step>, t1: string, t2: string)
    requires Interleaving(st, steps, t1, t2) && IsLogin(st, t1) && IsLogin(st, t2)
    ensures var st' := Run(st, steps);
            && IsLogin(st', t1) && SameLogin(st.procs[t1], st'.procs[t1])
            && IsLogin(st', t2) && SameLogin(st.procs[t2], st'.procs[t2])
            && (Unlooked(st'.procs[t1].ph) ==> Unlooked(st.procs[t1].ph))
    decreases |steps|
  {
    if steps == [] {
    } else {
      MoveSame(st, steps[0], t1, t2, t1);
      MoveSame(st, steps[0], t1, t2, t2);
      SameLogins(Apply(st, steps[0]), steps[1..], t1, t2);
    }
  }

  /** The first of the two is still to look, or both have looked. */
  ghost predicate Settled(st: State, end: State, t1: string, t2: string)
    requires IsLogin(st, t1) && IsLogin(st, t2)
  {
    (IsLogin(end, t1) && Unlooked(end.procs[t1].ph)) || (!Unlooked(st.procs[t1].ph) && !Unlooked(st.procs[t2].ph))
  }

  lemma {:induction false} InterleavingKeeps(st: State, steps: seq<Step>, t1: string, t2: string, found: bool)
    requires Both(st, t1, t2, found) && Interleaving(st, steps, t1, t2) && Settled(st, Run(st, steps), t1, t2)
    ensures Both(Run(st, steps), t1, t2, found)
    decreases |steps|
  {
    if steps == [] {
    } else {
      var st' := Apply(st, steps[0]);
      MoveSame(st, steps[0], t1, t2, t1);
      MoveSame(st, steps[0], t1, t2, t2);
      SameLogins(st', steps[1..], t1, t2);
      MoveKeeps(st, steps[0], t1, t2, found);
      InterleavingKeeps(st', steps[1..], t1, t2, found);
    }
  }

  /** A login begins while another one of its user, whose lease may have lapsed, is in its section. */
  lemma OverlapBegins(st: State, d: nat, s: ServerName, u: Uid, x: SessionId, t1: string, t2: string)
    requires Inv(st) && IsLogin(st, t2) && st.procs[t2].u == u
    requires var late := Apply(st, Advance(d));
             Enabled(late, LoginBegin(s, u, x, t1)) && Guard(late, LoginBegin(s, u, x, t1))
    ensures var st' := Apply(Apply(st, Advance(d)), LoginBegin(s, u, x, t1));
            IsLogin(st', t1) && IsLogin(st', t2) && t1 != t2 && Overlaps(st'.w, st'.procs[t1], st'.procs[t2])
  {
    assert SessionOk(st.w, st.procs[t2]) && PhaseOk(st.w, st.procs[t2]);
  }

  /** The next sub-step of t1 is its look, and t2 has looked. */
  predicate LooksLast(st: State, t1: string, t2: string) {
    && IsLogin(st, t1) && IsLogin(st, t2) && Unlooked(st.procs[t1].ph) && !Unlooked(st.procs[t2].ph)
    && !Unlooked(LoginPhaseNext(st.w, st.count, st.procs[t1]))
  }

  predicate BothBound(st: State, t1: string, t2: string) {
    IsLogin(st, t1) && IsLogin(st, t2) && st.procs[t1].ph.Bound? && st.procs[t2].ph.Bound?
  }

  predicate BothDone(st: State, t1: string, t2: string) {
    && IsLogin(st, t1) && (st.procs[t1].ph.Bound? || st.procs[t1].ph.Failed?)
    && IsLogin(st, t2) && (st.procs[t2].ph.Bound? || st.procs[t2].ph.Failed?)
  }

  /** One login of a user begins while another is in its section, whichever of the two t1 is. Interleave
      them in any way until both are done; t1 is the last to look up whom to kick. In the end at most one
      session is bound, and Redis names it, if and only if one of the two has failed or t1 looked on the
      server of t2 when t2 had bound its session. Two logins on one server cannot overlap, as a server has
      one logic thread. */
  lemma OverlapExclusiveIff(st: State, before: seq<Step>, after: seq<Step>, t1: string, t2: string)
    requires IsLogin(st, t1) && IsLogin(st, t2) && t1 != t2 && Overlaps(st.w, st.procs[t1], st.procs[t2])
    requires Interleaving(st, before, t1, t2) && LooksLast(Run(st, before), t1, t2)
    requires Interleaving(LoginApply(Run(st, before), t1), after, t1, t2)
    requires BothDone(Run(LoginApply(Run(st, before), t1), after), t1, t2)
    ensures var look := Run(st, before);
            var end := Run(LoginApply(look, t1), after);
            var good := BothBound(end, t1, t2) ==>
                          look.procs[t1].ph == Kicking(look.procs[t2].s) && look.procs[t2].ph.Bound?;
            (AtMostOne(end.w, st.procs[t1].u) <==> good) && (Agree(end.w, st.procs[t1].u) <==> good)
  {
    var look := Run(st, before);
    var found := Finds(look.procs[t1], look.procs[t2]);
    OverlapGoes(st.w, st.procs[t1], st.procs[t2]);
    SameLogins(st, before, t1, t2);
    InterleavingKeeps(st, before, t1, t2, false);
    FirstMoves(look.w, look.count, look.procs[t1], look.procs[t2], false);
    SameLogins(LoginApply(look, t1), after, t1, t2);
    InterleavingKeeps(LoginApply(look, t1), after, t1, t2, found);
    DoneIffFound(Run(LoginApply(look, t1), after), t1, t2, found);
  }

  lemma DoneIffFound(st: State, t1: string, t2: string, found: bool)
    requires Both(st, t1, t2, found) && BothDone(st, t1, t2)
    ensures AtMostOne(st.w, st.procs[t1].u) <==> (BothBound(st, t1, t2) ==> found)
    ensures Agree(st.w, st.procs[t1].u) <==> (BothBound(st, t1, t2) ==> found)
  {
    var p, q := st.procs[t1], st.procs[t2];
    if BothBound(st, t1, t2) {
      assert IsBound(st.w, p.u, p.s, p.x);
      assert IsBound(st.w, p.u, q.s, q.x) <==> !found;
    }
  }
}
