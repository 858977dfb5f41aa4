/** The kick RPC of a login gets lost: exactly when the login still leaves one binding, over its
    sub-steps. */
module ClusterLostKick {
  import opened Registry
  import opened Cluster
  import opened ClusterSafety
  import opened ClusterSequential
  import opened ClusterOverlap

  /** A login past its kick; besides what it binds, its user may be bound on `peer`. */
  ghost predicate Alone(w: World, p: Proc, peer: ServerName, kept: bool) {
    && p.Login? && TablesOk(w) && Own(w, p) && PastKick(p.ph) && peer != p.s && Named(w, p)
    && (p.u in Users(w, peer) <==> kept)
    && (p.ph.Bound? ==> IsBound(w, p.u, p.s, p.x))
    && (forall s, x :: IsBound(w, p.u, s, x) ==> s == peer || Bounds(p, s, x))
  }

  lemma AlonePlain(w: World, w': World, p: Proc, p': Proc, peer: ServerName, kept: bool)
    requires Alone(w, p, peer, kept) && w'.local == w.local && w'.objs == w.objs
    requires SameLogin(p, p') && Plain(p.ph) && Plain(p'.ph) && Moved(w, w', p, p')
    ensures Alone(w', p', peer, kept)
  {
    assert forall v, s, x :: IsBound(w', v, s, x) <==> IsBound(w, v, s, x);
  }

  lemma AloneUid(w: World, p: Proc, peer: ServerName, kept: bool)
    requires Alone(w, p, peer, kept) && p.ph.WroteSid?
    ensures Alone(SetUid(w, p.x, p.u), p.(ph := UidSet), peer, kept)
  {
    SetUidFacts(w, p.x, p.u);
    assert forall v, s, x :: IsBound(SetUid(w, p.x, p.u), v, s, x) <==> IsBound(w, v, s, x);
  }

  lemma AloneBinds(w: World, p: Proc, peer: ServerName, kept: bool)
    requires Alone(w, p, peer, kept) && p.ph.UidSet?
    ensures Alone(Bind(w, p.s, p.u, p.x), p.(ph := Bound), peer, kept)
  {
    assert p.u in w.local[p.s].users ==> IsBound(w, p.u, p.s, w.local[p.s].users[p.u]);
    BindOne(w, p.s, p.u, p.x);
  }

  lemma AloneMoves(w: World, count: map<ServerName, int>, p: Proc, peer: ServerName, kept: bool)
    requires Alone(w, p, peer, kept) && CanMove(p.ph)
    ensures Alone(LoginWorld(w, p), p.(ph := LoginPhaseNext(w, count, p)), peer, kept)
  {
    if p.ph.WroteSid? {
      AloneUid(w, p, peer, kept);
    } else if p.ph.UidSet? {
      AloneBinds(w, p, peer, kept);
    } else {
      PlainMoves(w, count, p);
      AlonePlain(w, LoginWorld(w, p), p, p.(ph := LoginPhaseNext(w, count, p)), peer, kept);
    }
  }

  ghost predicate AloneAt(st: State, tok: string, peer: ServerName, kept: bool) {
    IsLogin(st, tok) && Alone(st.w, st.procs[tok], peer, kept)
  }

  lemma AloneStep(st: State, step: Step, tok: string, peer: ServerName, kept: bool)
    requires AloneAt(st, tok, peer, kept) && Enabled(st, step) && Moves(st, step, tok, tok)
    ensures AloneAt(Apply(st, step), tok, peer, kept) && SameLogin(st.procs[tok], Apply(st, step).procs[tok])
  {
    if step.LoginNext? {
      AloneMoves(st.w, st.count, st.procs[tok], peer, kept);
    } else if !step.Advance? {
      AlonePlain(st.w, st.w, st.procs[tok], Apply(st, step).procs[tok], peer, kept);
    }
  }

  lemma {:induction false} AloneStays(st: State, steps: seq<Step>, tok: string, peer: ServerName, kept: bool)
    requires AloneAt(st, tok, peer, kept) && Interleaving(st, steps, tok, tok)
    ensures AloneAt(Run(st, steps), tok, peer, kept) && SameLogin(st.procs[tok], Run(st, steps).procs[tok])
    decreases |steps|
  {
    if steps == [] {
    } else {
      AloneStep(st, steps[0], tok, peer, kept);
      AloneStays(Apply(st, steps[0]), steps[1..], tok, peer, kept);
    }
  }

  lemma AloneEnds(w: World, p: Proc, peer: ServerName, kept: bool)
    requires Alone(w, p, peer, kept) && p.ph.Bound?
    ensures (AtMostOne(w, p.u) <==> !kept) && (Agree(w, p.u) <==> !kept)
  {
    assert kept ==> IsBound(w, p.u, peer, Users(w, peer)[p.u]);
    assert !kept ==> forall x :: !IsBound(w, p.u, peer, x);
  }

  /** The result of `NotifyKickUser` is ignored. In any state of a run under the guards the kick RPC of a
      login gets lost, and the login goes on to its end: at most one session is bound then, and Redis names
      it, if and only if there was nothing to kick on the server Redis had named. */
  lemma LostKickIff(st: State, rest: seq<Step>, tok: string)
    requires Inv(st) && Enabled(st, KickLost(tok))
    requires Interleaving(Apply(st, KickLost(tok)), rest, tok, tok)
    requires var end := Run(Apply(st, KickLost(tok)), rest); IsLogin(end, tok) && end.procs[tok].ph.Bound?
    ensures var p := st.procs[tok];
            var w := Run(Apply(st, KickLost(tok)), rest).w;
            && (AtMostOne(w, p.u) <==> p.u !in Users(st.w, p.ph.peer))
            && (Agree(w, p.u) <==> p.u !in Users(st.w, p.ph.peer))
  {
    var p := st.procs[tok];
    var kept := p.u in Users(st.w, p.ph.peer);
    assert SessionOk(st.w, p) && PhaseOk(st.w, p);
    AloneStays(Apply(st, KickLost(tok)), rest, tok, p.ph.peer, kept);
    var end := Run(Apply(st, KickLost(tok)), rest);
    AloneEnds(end.w, end.procs[tok], p.ph.peer, kept);
  }
}
