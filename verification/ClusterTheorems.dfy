/** What the login protocol guarantees in every reachable state of every run. */
module ClusterTheorems {
  import opened Wrappers
  import opened LeaseLock
  import opened Registry
  import opened Cluster
  import opened ClusterSafety

  /** In an invariant state a user has at most one binding, whoever holds its lock. */
  lemma BindingUnique(st: State, u: Uid, s1: ServerName, x1: SessionId, s2: ServerName, x2: SessionId)
    requires Inv(st) && IsBound(st.w, u, s1, x1) && IsBound(st.w, u, s2, x2)
    ensures s1 == s2 && x1 == x2
  {
    if !Free(st, u) {
      var t :| t in st.procs && st.procs[t].u == u && InSection(st.procs[t]);
      assert PhaseOk(st.w, st.procs[t]);
    }
  }

  /** Exclusive login: at every moment of every run, at most one session in the whole cluster is
      bound to a user. */
  lemma ExclusiveLogin(servers: set<ServerName>, steps: seq<Step>, u: Uid,
                       s1: ServerName, x1: SessionId, s2: ServerName, x2: SessionId)
    requires ValidRun(Init(servers), steps)
    requires var w := Run(Init(servers), steps).w; IsBound(w, u, s1, x1) && IsBound(w, u, s2, x2)
    ensures s1 == s2 && x1 == x2
  {
    Reachable(servers, steps);
    BindingUnique(Run(Init(servers), steps), u, s1, x1, s2, x2);
  }

  /** When a login that bound its session releases the user lock, that session is the one bound
      session of the user, Redis names it, and the lock is free. */
  lemma LoginLeavesExactlyItsSession(servers: set<ServerName>, steps: seq<Step>, tok: string)
    requires ValidRun(Init(servers), steps)
    requires var st := Run(Init(servers), steps); IsLogin(st, tok) && st.procs[tok].ph.Bound?
    ensures var st := Run(Init(servers), steps);
            var p := st.procs[tok];
            var st' := Apply(st, LoginNext(tok));
            && (forall s, x :: IsBound(st'.w, p.u, s, x) <==> s == p.s && x == p.x)
            && p.u in st'.w.ip && st'.w.ip[p.u] == p.s && p.u in st'.w.sid && st'.w.sid[p.u] == p.x
            && !Held(st'.locks, UserLock(p.u), st'.now)
  {
    Reachable(servers, steps);
    var st := Run(Init(servers), steps);
    assert PhaseOk(st.w, st.procs[tok]);
    assert Holds(st, UserLock(st.procs[tok].u), tok);
  }

  /** A login that fails after its kick leaves the user bound nowhere and gives the user lock back. */
  lemma FailedLoginLeavesNone(servers: set<ServerName>, steps: seq<Step>, tok: string)
    requires ValidRun(Init(servers), steps)
    requires var st := Run(Init(servers), steps); IsLogin(st, tok) && st.procs[tok].ph.Failed?
    ensures var u := Run(Init(servers), steps).procs[tok].u;
            var st' := Apply(Run(Init(servers), steps), LoginNext(tok));
            NoneBound(st'.w, u) && !Held(st'.locks, UserLock(u), st'.now) && tok !in st'.procs
  {
    Reachable(servers, steps);
    var st := Run(Init(servers), steps);
    assert PhaseOk(st.w, st.procs[tok]);
    assert Holds(st, UserLock(st.procs[tok].u), tok);
  }

  // ------------------------------------------------------------------------------------------
  // Routing
  // ------------------------------------------------------------------------------------------

  /** How a message finds its receiver: `uid_at_ip` gives the server, its `UserMgr` the session. */
  function Route(w: World, u: Uid): Option<(ServerName, SessionId)> {
    if u in w.ip && u in Users(w, w.ip[u]) then Some((w.ip[u], Users(w, w.ip[u])[u])) else None
  }

  /** Index agreement: while no login or teardown of `u` is in progress (so whenever its lock is free,
      by NotHeldIsFree), the route leads to a session exactly when that session is bound, and its id
      is the one in Redis. */
  lemma IndexAgreement(servers: set<ServerName>, steps: seq<Step>, u: Uid, s: ServerName, x: SessionId)
    requires ValidRun(Init(servers), steps) && Free(Run(Init(servers), steps), u)
    ensures var w := Run(Init(servers), steps).w;
            && (Route(w, u) == Some((s, x)) <==> IsBound(w, u, s, x))
            && (Route(w, u) == Some((s, x)) ==> u in w.sid && w.sid[u] == x && x in w.objs && w.objs[x].uid == u)
  {
    Reachable(servers, steps);
    var w := Run(Init(servers), steps).w;
    assert Agree(w, u);
    if Route(w, u).Some? {
      assert IsBound(w, u, Route(w, u).value.0, Route(w, u).value.1);
    }
  }

  // ------------------------------------------------------------------------------------------
  // Old sessions
  // ------------------------------------------------------------------------------------------

  /** The step tears down, clears or expires sessions, and `x` is not among them. */
  predicate TearsDownOther(st: State, step: Step, x: SessionId) {
    match step
    case TeardownNext(tok) => IsTeardown(st, tok) && st.procs[tok].x != x
    case LocalClear(s, y) => y != x
    case Tick(s, expired, torn) => x !in torn
    case _ => false
  }

  /** What a step leaves of the binding of `u` to `x` and of the Redis entries of `u`. */
  ghost predicate Spared(w: World, w': World, u: Uid, s: ServerName, x: SessionId) {
    IsBound(w', u, s, x) && Lookup(w'.sid, u) == Lookup(w.sid, u) && Lookup(w'.ip, u) == Lookup(w.ip, u)
  }

  lemma SubStepSpares(w: World, p: Proc, u: Uid, s: ServerName, x: SessionId)
    requires TablesOk(w) && PhaseOk(w, p) && p.Teardown? && p.x != x && IsBound(w, u, s, x)
    ensures Spared(w, TeardownWorld(w, p), u, s, x)
  {
    ClearFacts(w, p.s, p.x);
  }

  lemma TeardownSparesOthers(st: State, tok: string, u: Uid, s: ServerName, x: SessionId)
    requires Inv(st) && Enabled(st, TeardownNext(tok)) && st.procs[tok].x != x && IsBound(st.w, u, s, x)
    ensures Spared(st.w, Apply(st, TeardownNext(tok)).w, u, s, x)
  {
    assert PhaseOk(st.w, st.procs[tok]);
    SubStepSpares(st.w, st.procs[tok], u, s, x);
  }

  /** Tearing down an old session, in any interleaving, changes neither the binding nor the Redis
      entries of a user bound to another session. */
  lemma OldSessionIsHarmless(servers: set<ServerName>, steps: seq<Step>, step: Step,
                             u: Uid, s: ServerName, x: SessionId)
    requires ValidRun(Init(servers), steps)
    requires var st := Run(Init(servers), steps);
             Enabled(st, step) && Guard(st, step) && TearsDownOther(st, step, x) && IsBound(st.w, u, s, x)
    ensures var st := Run(Init(servers), steps); Spared(st.w, Apply(st, step).w, u, s, x)
  {
    Reachable(servers, steps);
    var st := Run(Init(servers), steps);
    match step {
      case TeardownNext(tok) => TeardownSparesOthers(st, tok, u, s, x);
      case LocalClear(s', y) => ClearFacts(st.w, s', y);
      case Tick(s', expired, torn) =>
        TickFacts(st.w, s', torn);
        if u in Deleted(st.w, torn) {
          NotHeldIsFree(st, u);
        }
    }
  }
}
