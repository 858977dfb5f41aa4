/** Exclusive login over a cluster of chat servers, as a transition system over any number of
    servers, sessions and users. Every access to Redis, every locked block of `Server` and
    `UserMgr`, and every plain write to a session is one step; steps of different servers and
    threads interleave freely. */
module Cluster {
  import opened Wrappers
  import opened LeaseLock
  import opened Registry

  datatype LockKey = UserLock(uid: Uid) | CountLock

  /** A session object: the server it lives on and its `_uid`. */
  datatype SessionObj = SessionObj(home: ServerName, uid: Uid)

  /** Where a login stands inside its critical section (LogicSystem.cpp, LoginCallback). */
  datatype LoginPhase =
    | Locked                                                  // user lock obtained
    | Kicking(peer: ServerName)                               // uid_at_ip names `peer`, this server or another
    | KickFound(peer: ServerName, gone: Option<SessionId>)    // what the uid table of `peer` had
    | Kicked
    | CountLocked(c: string)
    | CountRead(c: string, v: int)
    | CountWritten(c: string)
    | CountMissing(c: string)
    | Counted
    | WroteIp
    | WroteSid
    | UidSet
    | Bound
    | Failed

  /** Where a teardown stands (Session.cpp, DealExceptionSession). */
  datatype TeardownPhase = Waiting | Checking | DelSid | DelIp | ClearOwn | ClearKept | Cleared

  /** A critical section in progress, on server `s`, for user `u` and session `x`. */
  datatype Proc =
    | Login(s: ServerName, u: Uid, x: SessionId, ph: LoginPhase)
    | Teardown(s: ServerName, u: Uid, x: SessionId, tp: TeardownPhase)

  /** Who is where: `ip` and `sid` are the Redis hashes `uid_at_ip` and `uid_bind_sessionid`,
      `local` is each server's memory, `objs` every session object ever created. */
  datatype World = World(
    ip: map<Uid, ServerName>,
    sid: map<Uid, SessionId>,
    local: map<ServerName, Local>,
    objs: map<SessionId, SessionObj>)

  /** `locks` are the Redis keys `lock:*`, `count` the hash `logincount`; `checks` the heartbeat checks
      that have counted their sessions and not written the number yet, with the sessions counted;
      `procs` the critical sections in progress, by lock uuid; `used` the uuids drawn. */
  datatype State = State(
    now: nat,
    locks: map<LockKey, Lease>,
    count: map<ServerName, int>,
    checks: map<ServerName, set<SessionId>>,
    w: World,
    procs: map<string, Proc>,
    used: set<string>)

  datatype Step =
    | Accept(s: ServerName, x: SessionId)
    | Advance(d: nat)
    | LoginBegin(s: ServerName, u: Uid, x: SessionId, tok: string)
    | LoginNext(tok: string)
    | LoginCount(tok: string, c: string)
    | LoginCountFail(tok: string)
    | KickLost(tok: string)
    | TeardownBegin(s: ServerName, x: SessionId, tok: string)
    | TeardownNext(tok: string)
    | TeardownGiveUp(tok: string)
    | LocalClear(s: ServerName, x: SessionId)
    | Tick(s: ServerName, expired: set<SessionId>, torn: set<SessionId>)  // a whole heartbeat check
    | TickSnapshot(s: ServerName, expired: set<SessionId>)                // or its counting,
    | TickWrite(s: ServerName)                                            // and its write
    | Stop(s: ServerName, graceful: bool)
    | Boot(s: ServerName)

  function Init(servers: set<ServerName>): State {
    State(0, map[], map[], map[], World(map[], map[], map s | s in servers :: EMPTY_LOCAL, map[]), map[], {})
  }

  function Users(w: World, s: ServerName): map<Uid, SessionId> {
    if s in w.local then w.local[s].users else map[]
  }

  function Lookup(m: map<Uid, SessionId>, u: Uid): Option<SessionId> {
    if u in m then Some(m[u]) else None
  }

  /** `u` is bound to session `x` on server `s`. */
  predicate IsBound(w: World, u: Uid, s: ServerName, x: SessionId) {
    s in w.local && u in w.local[s].users && w.local[s].users[u] == x
  }

  /** A new session `x` on server `s`. */
  function AcceptWorld(w: World, s: ServerName, x: SessionId): World
    requires s in w.local
  {
    w.(objs := w.objs[x := SessionObj(s, 0)],
       local := w.local[s := w.local[s].(sessions := w.local[s].sessions + {x})])
  }

  /** `ClearSession(x)` on server `s`. */
  function Clear(w: World, s: ServerName, x: SessionId): World {
    if s in w.local && x in w.objs
    then w.(local := w.local[s := ClearSession(w.local[s], x, w.objs[x].uid)])
    else w
  }

  function ClearIf(w: World, s: ServerName, x: Option<SessionId>): World {
    if x.Some? then Clear(w, s, x.value) else w
  }

  /** `Session::SetUid`. */
  function SetUid(w: World, x: SessionId, u: Uid): World {
    if x in w.objs then w.(objs := w.objs[x := w.objs[x].(uid := u)]) else w
  }

  /** `UserMgr::SetUidSession`. */
  function Bind(w: World, s: ServerName, u: Uid, x: SessionId): World {
    if s in w.local
    then w.(local := w.local[s := w.local[s].(users := InsertBinding(w.local[s].users, u, x))])
    else w
  }

  predicate InLogin(st: State, x: SessionId) {
    exists tok :: tok in st.procs && st.procs[tok].Login? && st.procs[tok].x == x
  }

  predicate InSection(p: Proc) {
    p.Login? || p.tp != Waiting
  }

  /** The logins that hold the count lock, and under which uuid. */
  predicate HasCount(p: Proc) {
    p.Login? && (p.ph.CountLocked? || p.ph.CountRead? || p.ph.CountWritten? || p.ph.CountMissing?)
  }

  predicate NoneInLogin(st: State, xs: set<SessionId>) {
    forall x :: x in xs ==> !InLogin(st, x)
  }

  predicate IsLogin(st: State, tok: string) {
    tok in st.procs && st.procs[tok].Login?
  }

  predicate IsTeardown(st: State, tok: string) {
    tok in st.procs && st.procs[tok].Teardown?
  }

  /** The lock is released by its uuid and the critical section is over. */
  function Finish(st: State, tok: string): State
    requires tok in st.procs
  {
    st.(locks := CompareDelete(st.locks, UserLock(st.procs[tok].u), tok, st.now), procs := st.procs - {tok})
  }

  // ------------------------------------------------------------------------------------------
  // When a step is possible, and what it does
  // ------------------------------------------------------------------------------------------

  /** The user locks of `torn` are to be had. */
  predicate CanTearDown(st: State, s: ServerName, torn: set<SessionId>) {
    && s in st.w.local && torn <= st.w.local[s].sessions && torn <= st.w.objs.Keys
    && (forall x :: x in torn ==> !Held(st.locks, UserLock(st.w.objs[x].uid), st.now))
  }

  /** The check finds `expired` and gets the user locks of `torn`. It asks for the count lock too, but
      goes on without. */
  predicate CanTick(st: State, s: ServerName, expired: set<SessionId>, torn: set<SessionId>) {
    CanTearDown(st, s, torn) && torn <= expired <= st.w.local[s].sessions
  }

  predicate Enabled(st: State, step: Step) {
    match step
    case Accept(s, x) => s in st.w.local && x !in st.w.objs
    case Advance(d) => true
    case LoginBegin(s, u, x, tok) =>
      && s in st.w.local && x in st.w.objs && st.w.objs[x].home == s && tok !in st.used
      && !Held(st.locks, UserLock(u), st.now)
      && (forall t :: t in st.procs && st.procs[t].Login? ==> st.procs[t].s != s)  // one logic thread
    case LoginNext(tok) => IsLogin(st, tok) && st.procs[tok].ph != Kicked
    case LoginCount(tok, c) =>
      IsLogin(st, tok) && st.procs[tok].ph == Kicked && c !in st.used && !Held(st.locks, CountLock, st.now)
    case LoginCountFail(tok) => IsLogin(st, tok) && st.procs[tok].ph == Kicked
    case KickLost(tok) =>                                     // only the kick of another server is an RPC
      IsLogin(st, tok) && st.procs[tok].ph.Kicking? && st.procs[tok].ph.peer != st.procs[tok].s
    case TeardownBegin(s, x, tok) =>
      s in st.w.local && x in st.w.objs && st.w.objs[x].home == s && tok !in st.used
    case TeardownNext(tok) =>
      IsTeardown(st, tok) &&
      (st.procs[tok].tp == Waiting ==> !Held(st.locks, UserLock(st.procs[tok].u), st.now))
    case TeardownGiveUp(tok) => IsTeardown(st, tok) && st.procs[tok].tp == Waiting
    case LocalClear(s, x) => s in st.w.local
    case Tick(s, expired, torn) => CanTick(st, s, expired, torn)
    case TickSnapshot(s, expired) => s in st.w.local && expired <= st.w.local[s].sessions
    case TickWrite(s) => s in st.w.local && s in st.checks
    case Stop(s, graceful) => s in st.w.local
    case Boot(s) =>
      s in st.w.local && st.w.local[s] == EMPTY_LOCAL && forall t :: t in st.procs ==> st.procs[t].s != s
  }

  /** The phase a login reaches with its next sub-step, in the order of the source. */
  function LoginPhaseNext(w: World, count: map<ServerName, int>, p: Proc): LoginPhase
    requires p.Login?
  {
    match p.ph
    case Locked =>                                            // hget uid_at_ip
      if p.u in w.ip then Kicking(w.ip[p.u]) else Kicked
    case Kicking(peer) => KickFound(peer, Lookup(Users(w, peer), p.u))  // GetUidSession
    case KickFound(peer, gone) => Kicked
    case Kicked => Kicked
    case CountLocked(c) => if p.s in count then CountRead(c, count[p.s]) else CountMissing(c)
    case CountRead(c, v) => CountWritten(c)
    case CountWritten(c) => Counted
    case CountMissing(c) => Failed
    case Counted => WroteIp
    case WroteIp => WroteSid
    case WroteSid => UidSet
    case UidSet => Bound
    case Bound => Bound
    case Failed => Failed
  }

  /** What that sub-step does to the bindings. */
  function LoginWorld(w: World, p: Proc): World
    requires p.Login?
  {
    match p.ph
    case KickFound(peer, gone) => ClearIf(w, peer, gone)      // ClearSession
    case Counted => w.(ip := w.ip[p.u := p.s])                // hset uid_at_ip
    case WroteIp => w.(sid := w.sid[p.u := p.x])              // hset uid_bind_sessionid
    case WroteSid => SetUid(w, p.x, p.u)
    case UidSet => Bind(w, p.s, p.u, p.x)
    case _ => w
  }

  function LoginApply(st: State, tok: string): State
    requires IsLogin(st, tok)
  {
    var p := st.procs[tok];
    if p.ph.Bound? || p.ph.Failed? then Finish(st, tok)
    else
      st.(w := LoginWorld(st.w, p),
          count := if p.ph.CountRead? then st.count[p.s := p.ph.v + 1] else st.count,
          locks := if p.ph.CountWritten? || p.ph.CountMissing?
                   then CompareDelete(st.locks, CountLock, p.ph.c, st.now) else st.locks,
          procs := st.procs[tok := p.(ph := LoginPhaseNext(st.w, st.count, p))])
  }

  function TeardownPhaseNext(w: World, p: Proc): TeardownPhase
    requires p.Teardown?
  {
    match p.tp
    case Waiting => Checking
    case Checking => if p.u in w.sid && w.sid[p.u] == p.x then DelSid else ClearKept
    case DelSid => DelIp
    case DelIp => ClearOwn
    case ClearOwn => Cleared
    case ClearKept => Cleared
    case Cleared => Cleared
  }

  function TeardownWorld(w: World, p: Proc): World
    requires p.Teardown?
  {
    match p.tp
    case DelSid => w.(sid := w.sid - {p.u})
    case DelIp => w.(ip := w.ip - {p.u})
    case ClearOwn => Clear(w, p.s, p.x)
    case ClearKept => Clear(w, p.s, p.x)
    case _ => w
  }

  function TeardownApply(st: State, tok: string): State
    requires IsTeardown(st, tok)
    requires st.procs[tok].tp == Waiting ==> !Held(st.locks, UserLock(st.procs[tok].u), st.now)
  {
    var p := st.procs[tok];
    if p.tp.Cleared? then Finish(st, tok)
    else
      st.(w := TeardownWorld(st.w, p),
          locks := if p.tp.Waiting? then SetNx(st.locks, UserLock(p.u), tok, st.now, LOCK_TIMEOUT) else st.locks,
          procs := st.procs[tok := p.(tp := TeardownPhaseNext(st.w, p))])
  }

  /** The users whose Redis entries the teardown of `expired` deletes. */
  function Deleted(w: World, expired: set<SessionId>): set<Uid> {
    set u | u in w.sid && w.sid[u] in expired && w.sid[u] in w.objs && w.objs[w.sid[u]].uid == u
  }

  /** The bindings the teardown of `expired` removes from a server's uid table. */
  function Unbound(w: World, users: map<Uid, SessionId>, expired: set<SessionId>): set<Uid> {
    set u | u in users && users[u] in expired && users[u] in w.objs && w.objs[users[u]].uid == u
  }

  /** The teardowns of `expired` on server `s`, all locks obtained. */
  function TickWorld(w: World, s: ServerName, expired: set<SessionId>): World
    requires s in w.local
  {
    var l := w.local[s];
    w.(sid := w.sid - Deleted(w, expired),
       ip := w.ip - Deleted(w, expired),
       local := w.local[s := Local(l.sessions - expired, l.users - Unbound(w, l.users, expired))])
  }

  function Apply(st: State, step: Step): State
    requires Enabled(st, step)
  {
    match step
    case Accept(s, x) => st.(w := AcceptWorld(st.w, s, x))
    case Advance(d) => st.(now := st.now + d)
    case LoginBegin(s, u, x, tok) =>
      st.(locks := SetNx(st.locks, UserLock(u), tok, st.now, LOCK_TIMEOUT),
          procs := st.procs[tok := Login(s, u, x, Locked)],
          used := st.used + {tok})
    case LoginNext(tok) => LoginApply(st, tok)
    case LoginCount(tok, c) =>
      st.(locks := SetNx(st.locks, CountLock, c, st.now, LOCK_TIMEOUT),
          procs := st.procs[tok := st.procs[tok].(ph := CountLocked(c))],
          used := st.used + {c})
    case LoginCountFail(tok) => st.(procs := st.procs[tok := st.procs[tok].(ph := Failed)])
    case KickLost(tok) => st.(procs := st.procs[tok := st.procs[tok].(ph := Kicked)])
    case TeardownBegin(s, x, tok) =>
      st.(procs := st.procs[tok := Teardown(s, st.w.objs[x].uid, x, Waiting)], used := st.used + {tok})
    case TeardownNext(tok) => TeardownApply(st, tok)
    case TeardownGiveUp(tok) => st.(procs := st.procs - {tok})
    case LocalClear(s, x) => st.(w := Clear(st.w, s, x))
    case Tick(s, expired, torn) =>
      st.(w := TickWorld(st.w, s, torn), count := st.count[s := |st.w.local[s].sessions - expired|])
    case TickSnapshot(s, expired) => st.(checks := st.checks[s := st.w.local[s].sessions - expired])
    case TickWrite(s) => st.(count := st.count[s := |st.checks[s]|], checks := st.checks - {s})
    case Stop(s, graceful) =>
      st.(w := st.w.(local := st.w.local[s := EMPTY_LOCAL]),
          count := if graceful then st.count - {s} else st.count,
          checks := st.checks - {s},
          procs := map t | t in st.procs && st.procs[t].s != s :: st.procs[t])
    case Boot(s) => st.(count := st.count[s := 0])
  }

  // ------------------------------------------------------------------------------------------
  // What the surroundings must provide
  // ------------------------------------------------------------------------------------------

  /** At time `t` every critical section in progress still has its lease. */
  predicate WithinLease(st: State, t: nat) {
    && (forall k :: k in st.procs && InSection(st.procs[k]) ==> Held(st.locks, UserLock(st.procs[k].u), t))
    && (forall k :: k in st.procs && HasCount(st.procs[k]) ==> Held(st.locks, CountLock, t))
  }

  /** The guards under which logins are exclusive. Module ClusterLimits has, for each, a run that
      goes wrong without it. */
  predicate Guard(st: State, step: Step) {
    match step
    case Advance(d) => WithinLease(st, st.now + d)            // critical sections end within the lease
    case LoginBegin(s, u, x, tok) =>                          // first login of a live session
      u != 0 && s in st.w.local && x in st.w.local[s].sessions && x in st.w.objs && st.w.objs[x].uid == 0
    case KickLost(tok) =>                                     // a kick may fail only where it has no work
      IsLogin(st, tok) && st.procs[tok].ph.Kicking? && st.procs[tok].u !in Users(st.w, st.procs[tok].ph.peer)
    case TeardownNext(tok) =>                                 // not torn down during its own login
      IsTeardown(st, tok) && (st.procs[tok].tp in {ClearOwn, ClearKept} ==> !InLogin(st, st.procs[tok].x))
    case LocalClear(s, x) => !InLogin(st, x)
    case Tick(s, expired, torn) => NoneInLogin(st, torn)
    case _ => true
  }

  /** The steps can happen, whatever the surroundings do. */
  predicate Possible(st: State, steps: seq<Step>)
    decreases |steps|
  {
    steps == [] || (Enabled(st, steps[0]) && Possible(Apply(st, steps[0]), steps[1..]))
  }

  function Run(st: State, steps: seq<Step>): State
    requires Possible(st, steps)
    decreases |steps|
  {
    if steps == [] then st else Run(Apply(st, steps[0]), steps[1..])
  }

  /** The steps can happen under the guards. */
  predicate ValidRun(st: State, steps: seq<Step>): (valid: bool)
    ensures valid ==> Possible(st, steps)
    decreases |steps|
  {
    steps == [] || (Enabled(st, steps[0]) && Guard(st, steps[0]) && ValidRun(Apply(st, steps[0]), steps[1..]))
  }

  // ------------------------------------------------------------------------------------------
  // The invariant
  // ------------------------------------------------------------------------------------------

  /** Wherever `u` is bound, Redis names that server and that session. */
  ghost predicate Agree(w: World, u: Uid) {
    forall s, x :: IsBound(w, u, s, x) ==> u in w.ip && w.ip[u] == s && u in w.sid && w.sid[u] == x
  }

  ghost predicate NoneBound(w: World, u: Uid) {
    forall s, x :: !IsBound(w, u, s, x)
  }

  ghost predicate OnlyBinding(w: World, u: Uid, s: ServerName, x: Option<SessionId>) {
    forall s', x' :: IsBound(w, u, s', x') ==> s' == s && x == Some(x')
  }

  ghost predicate Carries(w: World, x: Option<SessionId>, u: Uid) {
    x.Some? ==> x.value in w.objs && w.objs[x.value].uid == u
  }

  /** What holds for user `p.u` while `p` is in its critical section. */
  ghost predicate PhaseOk(w: World, p: Proc) {
    match p
    case Login(s, u, x, ph) =>
      (match ph
       case Locked => Agree(w, u)
       case Kicking(peer) => Agree(w, u) && u in w.ip && w.ip[u] == peer
       case KickFound(peer, gone) => Agree(w, u) && OnlyBinding(w, u, peer, gone) && Carries(w, gone, u)
       case WroteIp => NoneBound(w, u) && u in w.ip && w.ip[u] == s
       case WroteSid => NoneBound(w, u) && u in w.ip && w.ip[u] == s && u in w.sid && w.sid[u] == x
       case UidSet => NoneBound(w, u) && u in w.ip && w.ip[u] == s && u in w.sid && w.sid[u] == x
       case Bound => Agree(w, u) && IsBound(w, u, s, x)
       case _ => NoneBound(w, u))
    case Teardown(s, u, x, tp) =>
      (match tp
       case Waiting => true
       case Checking => Agree(w, u)
       case DelSid => Agree(w, u) && u in w.sid && w.sid[u] == x
       case DelIp => OnlyBinding(w, u, s, Some(x)) && (IsBound(w, u, s, x) ==> u in w.ip && w.ip[u] == s) && u !in w.sid
       case ClearOwn => OnlyBinding(w, u, s, Some(x)) && u !in w.sid
       case ClearKept => Agree(w, u)
       case Cleared => Agree(w, u))
  }

  /** A bound session is in the session table of its server and carries the uid it is bound to. */
  ghost predicate TablesOk(w: World) {
    && (forall s, x :: s in w.local && x in w.local[s].sessions ==> x in w.objs && w.objs[x].home == s)
    && (forall u, s, x :: IsBound(w, u, s, x) ==>
          x in w.local[s].sessions && x in w.objs && w.objs[x].uid == u && u != 0)
  }

  /** The session a critical section works for. */
  ghost predicate SessionOk(w: World, p: Proc) {
    && p.x in w.objs && w.objs[p.x].home == p.s
    && (p.Teardown? ==> p.u == 0 || w.objs[p.x].uid == p.u)
    && (p.Login? ==>
          && p.u != 0 && p.s in w.local && p.x in w.local[p.s].sessions
          && w.objs[p.x].uid == (if p.ph.UidSet? || p.ph.Bound? then p.u else 0))
  }

  ghost predicate Holds(st: State, key: LockKey, tok: string) {
    Held(st.locks, key, st.now) && st.locks[key].token == tok
  }

  /** Two logins on one server: they would share its only logic thread. */
  predicate SameLogic(p: Proc, q: Proc) {
    p.Login? && q.Login? && p.s == q.s
  }

  predicate SameCount(p: Proc, q: Proc) {
    HasCount(p) && HasCount(q) && p.ph.c == q.ph.c
  }

  ghost predicate LocksOk(st: State) {
    && (forall t :: t in st.procs ==> t in st.used)
    && (forall t :: t in st.procs && InSection(st.procs[t]) ==> Holds(st, UserLock(st.procs[t].u), t))
    && (forall t :: t in st.procs && HasCount(st.procs[t]) ==> Holds(st, CountLock, st.procs[t].ph.c))
    && (forall t :: t in st.procs && HasCount(st.procs[t]) ==> st.procs[t].ph.c in st.used)
    && (forall t, t' :: t in st.procs && t' in st.procs && SameCount(st.procs[t], st.procs[t']) ==> t == t')
    && (forall t, t' :: t in st.procs && t' in st.procs && SameLogic(st.procs[t], st.procs[t']) ==> t == t')
  }

  /** No critical section for `u` is in progress. */
  ghost predicate Free(st: State, u: Uid) {
    forall t :: t in st.procs && st.procs[t].u == u ==> !InSection(st.procs[t])
  }

  ghost predicate Inv(st: State) {
    && TablesOk(st.w)
    && LocksOk(st)
    && (forall t :: t in st.procs ==> SessionOk(st.w, st.procs[t]))
    && (forall t :: t in st.procs ==> PhaseOk(st.w, st.procs[t]))
    && (forall u :: Free(st, u) ==> Agree(st.w, u))
  }
}
