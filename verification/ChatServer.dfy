/** One chat server as objects that change in place: its sessions, its uid table, the Redis hashes it
    shares with the others, and the operations on them, each proved against the functions the
    transition system of module Cluster is made of. */
module ChatServer {
  import opened Registry
  import opened Cluster
  import opened ClusterSequential
  import ClusterRuns
  import Receiver
  import opened LeaseLock

  /** Seconds without a message after which a session counts as dead. */
  const EXPIRED_TIME: int := 20

  /** A world with a single server in sight. */
  function OneServer(ip: map<Uid, ServerName>, sid: map<Uid, SessionId>, s: ServerName, l: Local,
                     objs: map<SessionId, SessionObj>): World
  {
    World(ip, sid, map[s := l], objs)
  }

  lemma ClearOne(ip: map<Uid, ServerName>, sid: map<Uid, SessionId>, s: ServerName, l: Local,
                 objs: map<SessionId, SessionObj>, x: SessionId)
    ensures Clear(OneServer(ip, sid, s, l, objs), s, x) ==
            OneServer(ip, sid, s, if x in objs then Registry.ClearSession(l, x, objs[x].uid) else l, objs)
  {
  }

  /** The counter of `s` went up by one, and no other. */
  ghost predicate Raised(was: map<ServerName, int>, now: map<ServerName, int>, s: ServerName) {
    s in was && now == was[s := was[s] + 1]
  }

  /** What a server has in memory after the kick of a user. */
  function AfterKick(l: Local, objs: map<SessionId, SessionObj>, u: Uid): Local {
    if u in l.users && l.users[u] in objs then Registry.ClearSession(l, l.users[u], objs[l.users[u]].uid) else l
  }

  lemma EnterOne(ip: map<Uid, ServerName>, sid: map<Uid, SessionId>, s: ServerName, l: Local,
                 objs: map<SessionId, SessionObj>, u: Uid, x: SessionId)
    requires x in objs
    ensures Enter(OneServer(ip, sid, s, l, objs), s, u, x) ==
            OneServer(ip[u := s], sid[u := x], s, Local(l.sessions, InsertBinding(l.users, u, x)),
                      objs[x := objs[x].(uid := u)])
  {
  }

  class Session {
    const id: SessionId
    var uid: Uid
    var lastHeartbeat: int

    constructor (id: SessionId, now: int)
      ensures this.id == id && uid == 0 && lastHeartbeat == now
    {
      this.id, uid, lastHeartbeat := id, 0, now;
    }

    method UpdateHeartbeat(now: int)
      modifies this`lastHeartbeat
      ensures lastHeartbeat == now
    {
      lastHeartbeat := now;
    }

    method IsHeartbeatExpired(now: int) returns (expired: bool)
      ensures expired <==> now - lastHeartbeat > 20
    {
      expired := now - lastHeartbeat > EXPIRED_TIME;
    }
  }

  class UserMgr {
    var uidToSessions: map<Uid, Session>

    constructor ()
      ensures uidToSessions == map[]
    {
      uidToSessions := map[];
    }

    ghost function View(): map<Uid, SessionId>
      reads this
    {
      map u | u in uidToSessions :: uidToSessions[u].id
    }

    method SetUidSession(uid: Uid, session: Session)
      modifies this
      ensures View() == InsertBinding(old(View()), uid, session.id)
      ensures forall u :: u in uidToSessions ==>
                (u in old(uidToSessions) && uidToSessions[u] == old(uidToSessions)[u]) || uidToSessions[u] == session
    {
      if uid !in uidToSessions {
        uidToSessions := uidToSessions[uid := session];
      }
    }

    method GetUidSession(uid: Uid) returns (session: Session?)
      ensures session == null <==> uid !in uidToSessions
      ensures session != null ==> session == uidToSessions[uid]
    {
      session := if uid in uidToSessions then uidToSessions[uid] else null;
    }

    method RmUidSession(uid: Uid, id: SessionId)
      modifies this
      ensures View() == RemoveBinding(old(View()), uid, id)
      ensures forall u :: u in uidToSessions ==> u in old(uidToSessions) && uidToSessions[u] == old(uidToSessions)[u]
    {
      if uid !in uidToSessions {
        return;
      }
      if uidToSessions[uid].id != id {
        return;
      }
      uidToSessions := uidToSessions - {uid};
    }
  }

  /** The Redis hashes `uid_at_ip`, `uid_bind_sessionid` and `logincount`. */
  class Redis {
    var ip: map<Uid, ServerName>
    var sid: map<Uid, SessionId>
    var count: map<ServerName, int>

    constructor ()
      ensures ip == map[] && sid == map[] && count == map[]
    {
      ip, sid, count := map[], map[], map[];
    }
  }

  class Server {
    const name: ServerName
    const userMgr: UserMgr
    const redis: Redis
    var sessions: map<SessionId, Session>
    ghost var objects: map<SessionId, Session>  // every session object this server created
    ghost var cells: set<Session>               // the same, as a set

    constructor (name: ServerName, redis: Redis)
      ensures this.name == name && this.redis == redis && fresh(userMgr) && Valid()
      ensures View() == EMPTY_LOCAL && objects == map[] && cells == {}
    {
      this.name, this.redis := name, redis;
      userMgr := new UserMgr();
      sessions, objects, cells := map[], map[], {};
    }

    ghost predicate Valid()
      reads this, userMgr
    {
      && (forall x :: x in objects ==> objects[x].id == x && objects[x] in cells)
      && (forall x :: x in sessions ==> x in objects && sessions[x] == objects[x])
      && (forall u :: u in userMgr.uidToSessions ==>
            var s := userMgr.uidToSessions[u]; s.id in objects && objects[s.id] == s)
    }

    ghost function View(): Local
      reads this, userMgr
    {
      Local(sessions.Keys, userMgr.View())
    }

    ghost function Objs(): map<SessionId, SessionObj>
      requires Valid()
      reads this, userMgr, cells
    {
      map x | x in objects :: SessionObj(name, objects[x].uid)
    }

    /** The bindings as this server can see them. */
    ghost function Bindings(): World
      requires Valid()
      reads this, userMgr, redis`ip, redis`sid, cells
    {
      OneServer(redis.ip, redis.sid, name, View(), Objs())
    }

    method HandleAccept(session: Session)
      requires Valid() && session.id !in objects && session.uid == 0
      modifies this
      ensures Valid() && sessions == old(sessions)[session.id := session]
      ensures View() == Local(old(View()).sessions + {session.id}, old(View()).users)
      ensures Bindings().objs == old(Bindings()).objs[session.id := SessionObj(name, 0)]
    {
      sessions := sessions[session.id := session];
      objects := objects[session.id := session];
      cells := cells + {session};
    }

    method CheckValid(id: SessionId) returns (valid: bool)
      ensures valid <==> id in View().sessions
    {
      valid := id in sessions;
    }

    method ClearSession(id: SessionId)
      requires Valid()
      modifies this`sessions, userMgr
      ensures Valid() && Bindings() == Clear(old(Bindings()), name, id)
      ensures View() ==
              if id in old(Objs()) then Registry.ClearSession(old(View()), id, old(Objs())[id].uid) else old(View())
      ensures sessions == old(sessions) - {id}
    {
      if id in sessions {
        userMgr.RmUidSession(sessions[id].uid, id);
      }
      sessions := sessions - {id};
      ClearOne(redis.ip, redis.sid, name, old(View()), Objs(), id);
      assert id !in old(sessions) ==> old(View()).sessions - {id} == old(View()).sessions;
      assert Objs() == old(Objs());
    }

    /** The handler of `NotifyKickUser` on the server that Redis names. */
    method KickUser(uid: Uid)
      requires Valid()
      modifies this`sessions, userMgr
      ensures Valid() && Bindings() == ClearIf(old(Bindings()), name, Lookup(old(View()).users, uid))
      ensures View() == AfterKick(old(View()), old(Objs()), uid)
    {
      var session := userMgr.GetUidSession(uid);
      if session != null {
        ClearSession(session.id);
      }
    }

    /** Another server as the kick RPC reaches it. */
    ghost predicate IsPeer(peer: Server)
      reads this, peer
    {
      peer.redis == redis && peer != this && peer.userMgr != userMgr && peer.name != name &&
      cells !! peer.cells
    }

    /** First half of the critical section of `LoginCallback`: whoever Redis names is kicked.
        `peer` is another server, `delivered` whether the RPC reaches the server Redis names. */
    method KickBeforeLogin(uid: Uid, peer: Server, delivered: bool)
      requires Valid() && peer.Valid() && IsPeer(peer)
      modifies this`sessions, userMgr, peer`sessions, peer.userMgr
      ensures Valid() && peer.Valid()
      ensures Bindings() == Kick(old(Bindings()), name, uid, delivered)
      ensures peer.Bindings() ==
              if uid in redis.ip && redis.ip[uid] == peer.name && delivered
              then ClearIf(old(peer.Bindings()), peer.name, Lookup(old(peer.View()).users, uid))
              else old(peer.Bindings())
      ensures peer.View() ==
              if uid in redis.ip && redis.ip[uid] == peer.name && delivered
              then AfterKick(old(peer.View()), old(peer.Objs()), uid) else old(peer.View())
    {
      if uid in redis.ip {
        if redis.ip[uid] == name {
          KickUser(uid);
        } else if delivered && redis.ip[uid] == peer.name {
          peer.KickUser(uid);
        }
      }
    }

    /** `SetUid` and `SetUidSession`. */
    method BindSession(session: Session, uid: Uid)
      requires Valid() && session.id in objects && objects[session.id] == session
      modifies userMgr, session`uid
      ensures Valid()
      ensures View() == Local(old(View()).sessions, InsertBinding(old(View()).users, uid, session.id))
      ensures Objs() == old(Objs())[session.id := SessionObj(name, uid)]
    {
      session.uid := uid;
      userMgr.SetUidSession(uid, session);
      forall x | x in objects
        ensures Objs()[x] == old(Objs())[session.id := SessionObj(name, uid)][x]
      {
        if x != session.id {
          assert objects[x] != session;
        }
      }
    }

    /** Both hashes, the session and the uid table. */
    method Name(session: Session, uid: Uid)
      requires Valid() && session.id in objects && objects[session.id] == session
      modifies userMgr, redis`ip, redis`sid, session`uid
      ensures Valid() && Bindings() == Enter(old(Bindings()), name, uid, session.id)
    {
      redis.ip := redis.ip[uid := name];
      redis.sid := redis.sid[uid := session.id];
      BindSession(session, uid);
      EnterOne(old(redis.ip), old(redis.sid), name, old(View()), old(Objs()), uid, session.id);
    }

    /** Second half: the counter, both hashes, the session and the uid table. `counted` tells whether
        the count lock was obtained. */
    method EnterLogin(session: Session, uid: Uid, counted: bool) returns (success: bool)
      requires Valid() && session.id in objects && objects[session.id] == session
      modifies userMgr, redis, session`uid
      ensures Valid()
      ensures success <==> counted && name in old(redis.count)
      ensures Bindings() == if success then Enter(old(Bindings()), name, uid, session.id) else old(Bindings())
      ensures redis.count == if success then old(redis.count)[name := old(redis.count)[name] + 1] else old(redis.count)
      ensures success ==> Raised(old(redis.count), redis.count, name)
    {
      if !counted {
        return false;
      }
      if name !in redis.count {
        return false;
      }
      redis.count := redis.count[name := redis.count[name] + 1];
      Name(session, uid);
      return true;
    }

    /** The critical section of `LoginCallback`, with the user lock held. */
    method LoginSection(session: Session, uid: Uid, peer: Server, delivered: bool, counted: bool)
      returns (success: bool)
      requires Valid() && session.id in objects && objects[session.id] == session
      requires peer.Valid() && IsPeer(peer)
      modifies this`sessions, userMgr, redis, session`uid, peer`sessions, peer.userMgr
      ensures Valid()
      ensures success <==> counted && name in old(redis.count)
      ensures success ==> Bindings() == LoginAll(old(Bindings()), name, uid, session.id, delivered)
      ensures !success ==> Bindings() == Kick(old(Bindings()), name, uid, delivered)
      ensures peer.Valid() && peer.View() ==
              if uid in old(redis.ip) && old(redis.ip)[uid] == peer.name && delivered
              then AfterKick(old(peer.View()), old(peer.Objs()), uid) else old(peer.View())
      ensures success ==> Raised(old(redis.count), redis.count, name)
      ensures !success ==> redis.count == old(redis.count)
    {
      KickBeforeLogin(uid, peer, delivered);
      success := EnterLogin(session, uid, counted);
    }

    /** `DealExceptionSession`; `locked` tells whether the user lock was obtained. */
    method DealExceptionSession(session: Session, locked: bool)
      requires Valid() && session.id in objects && objects[session.id] == session
      modifies this`sessions, userMgr, redis`ip, redis`sid
      ensures Valid()
      ensures !locked ==> Bindings() == old(Bindings()) && sessions == old(sessions)
      ensures locked ==> Bindings() == TeardownAll(old(Bindings()), name, session.uid, session.id)
      ensures locked ==> sessions == old(sessions) - {session.id}
    {
      if !locked {
        return;
      }
      var uid := session.uid;
      if uid in redis.sid && redis.sid[uid] == session.id {
        redis.sid := redis.sid - {uid};
        redis.ip := redis.ip - {uid};
      }
      ClearSession(session.id);
    }

    /** What a reading callback calls before it ends: the clear after an oversize frame leaves Redis alone. */
    method EndSession(session: Session, call: Receiver.Call, locked: bool)
      requires Valid() && session.id in objects && objects[session.id] == session
      modifies this`sessions, userMgr, redis`ip, redis`sid
      ensures Valid()
      ensures call.Clear? ==> Bindings() == Clear(old(Bindings()), name, session.id)
      ensures call.Clear? ==> redis.ip == old(redis.ip) && redis.sid == old(redis.sid)
      ensures call.TearDown? && locked ==> Bindings() == TeardownAll(old(Bindings()), name, session.uid, session.id)
      ensures call.TearDown? && !locked ==> Bindings() == old(Bindings()) && sessions == old(sessions)
      ensures call.Clear? || locked ==> sessions == old(sessions) - {session.id}
    {
      match call {
        case TearDown => DealExceptionSession(session, locked);
        case Clear => ClearSession(session.id);
      }
    }

    /** First loop of `on_timer`: expired sessions are listed, the rest are counted. */
    method CheckHeartbeats(now: int) returns (expired: set<SessionId>, alive: nat)
      requires Valid()
      ensures forall x :: x in expired <==> x in sessions && now - sessions[x].lastHeartbeat > 20
      ensures alive == |sessions.Keys - expired|
    {
      expired, alive := {}, 0;
      var keys := sessions.Keys;
      ghost var all := set x | x in sessions && now - sessions[x].lastHeartbeat > 20;
      var todo := keys;
      while todo != {}
        invariant todo <= keys && Sorted(keys, todo, all, expired, alive)
        decreases todo
      {
        var x :| x in todo;
        CountOne(keys, todo, all, expired, alive, x);
        var silent := sessions[x].IsHeartbeatExpired(now);
        if silent {
          expired := expired + {x};
        } else {
          alive := alive + 1;
        }
        todo := todo - {x};
      }
    }

    /** One turn of the second loop, after those of `done`. */
    method TearDownNext(x: SessionId, locked: bool, ghost done: set<SessionId>, ghost w: World)
      requires Valid() && x in sessions && x !in done
      requires name in w.local && x in w.local[name].sessions && w.objs == Objs()
      requires Bindings() == TickWorld(w, name, done)
      modifies this`sessions, userMgr, redis`ip, redis`sid
      ensures Valid() && Objs() == old(Objs())
      ensures sessions.Keys == if locked then old(sessions.Keys) - {x} else old(sessions.Keys)
      ensures Bindings() == TickWorld(w, name, if locked then done + {x} else done)
    {
      TickIsTeardowns(w, name, done, x);
      DealExceptionSession(sessions[x], locked);
    }

    /** Second loop of `on_timer`: the expired sessions are torn down one after the other, as far as
        their user locks, `locked`, are obtained. */
    method TearDownExpired(expired: set<SessionId>, locked: SessionId -> bool)
      requires Valid() && expired <= sessions.Keys
      modifies this`sessions, userMgr, redis`ip, redis`sid
      ensures Valid() && sessions.Keys == old(sessions.Keys) - Chosen(expired, locked)
      ensures Bindings() == TickWorld(old(Bindings()), name, Chosen(expired, locked))
    {
      var left := expired;
      ghost var w, keys := Bindings(), sessions.Keys;
      ghost var done := {};
      TickNone(w, name);
      while left != {}
        invariant Valid() && left <= expired <= keys
        invariant forall x :: x in done <==> x in expired && x !in left && locked(x)
        invariant sessions.Keys == keys - done && w.objs == Objs()
        invariant Bindings() == TickWorld(w, name, done)
        decreases left
      {
        var x :| x in left;
        TearDownNext(x, locked(x), done, w);
        done := if locked(x) then done + {x} else done;
        left := left - {x};
      }
      assert done == Chosen(expired, locked);
    }

    method WriteCount(alive: nat)
      requires Valid()
      modifies redis`count
      ensures Valid() && Bindings() == old(Bindings()) && redis.count == old(redis.count)[name := alive]
    {
      redis.count := redis.count[name := alive];
    }

    /** What follows the first loop: the write of the counter and the second loop. */
    method FinishCheck(expired: set<SessionId>, alive: nat, locked: SessionId -> bool)
      returns (ghost torn: set<SessionId>)
      requires Valid() && expired <= sessions.Keys
      modifies this`sessions, userMgr, redis
      ensures Valid() && forall x :: x in torn <==> x in expired && locked(x)
      ensures Bindings() == TickWorld(old(Bindings()), name, torn)
      ensures Spares(old(Bindings()), Bindings(), name, torn)
      ensures redis.count == old(redis.count)[name := alive]
      ensures sessions.Keys == old(sessions.Keys) - torn
    {
      torn := Chosen(expired, locked);
      TickSpares(Bindings(), name, torn);
      WriteCount(alive);
      TearDownExpired(expired, locked);
    }

    /** `on_timer`: the whole check, as one step. It goes on without the count lock. `silent` are the
        sessions without a message for more than 20 s, `torn` those of them whose user lock it gets. */
    method OnTimer(now: int, locked: SessionId -> bool)
      returns (ghost silent: set<SessionId>, ghost torn: set<SessionId>)
      requires Valid()
      modifies this`sessions, userMgr, redis
      ensures Valid()
      ensures forall x :: x in silent <==> x in old(sessions) && now - old(sessions)[x].lastHeartbeat > 20
      ensures forall x :: x in torn <==> x in silent && locked(x)
      ensures redis.count == old(redis.count)[name := |old(sessions.Keys) - silent|]
      ensures sessions.Keys == old(sessions.Keys) - torn
      ensures Bindings() == TickWorld(old(Bindings()), name, torn)
      ensures Spares(old(Bindings()), Bindings(), name, torn)
    {
      var expired, alive := CheckHeartbeats(now);
      silent := expired;
      torn := FinishCheck(expired, alive, locked);
    }
  }

  /** The sessions whose user lock is obtained. */
  ghost function Chosen(xs: set<SessionId>, locked: SessionId -> bool): set<SessionId> {
    set x | x in xs && locked(x)
  }

  /** Of `keys`, those not in `todo` are sorted: the ones of `all` into `expired`, `alive` others counted. */
  ghost predicate Sorted(keys: set<SessionId>, todo: set<SessionId>, all: set<SessionId>,
                         expired: set<SessionId>, alive: nat) {
    expired == all - todo && alive == |keys - todo - all|
  }

  /** Looking at `x` moves it to the expired ones or makes the others one more. */
  lemma CountOne(keys: set<SessionId>, todo: set<SessionId>, all: set<SessionId>,
                 expired: set<SessionId>, alive: nat, x: SessionId)
    requires x in todo && todo <= keys && Sorted(keys, todo, all, expired, alive)
    ensures x in all ==> Sorted(keys, todo - {x}, all, expired + {x}, alive)
    ensures x !in all ==> Sorted(keys, todo - {x}, all, expired, alive + 1)
  {
    if x in all {
      assert keys - (todo - {x}) - all == keys - todo - all;
    } else {
      assert keys - (todo - {x}) - all == (keys - todo - all) + {x};
    }
  }

  /** The counters after a login that ran without interruption are those of its sub-steps in a row, in any
      state of the cluster with the counters there were before. */
  lemma LoginRaises(st: State, s: ServerName, u: Uid, x: SessionId, tok: string, c: string, now: map<ServerName, int>)
    requires Enabled(st, LoginBegin(s, u, x, tok)) && !Held(st.locks, CountLock, st.now)
    requires c !in st.used && c != tok && tok !in st.procs && s in st.count
    ensures var steps := ClusterRuns.LoginSteps(st.w, s, u, x, tok, c);
            Possible(st, steps) && (Raised(st.count, now, s) <==> Run(st, steps).count == now)
  {
    ClusterRuns.LoginIsRun(st, s, u, x, tok, c);
  }

  /** Sessions of `s` that are not in `torn` keep their binding, and Redis entries that name others than
      `torn` stay. */
  ghost predicate Spares(w: World, w': World, s: ServerName, torn: set<SessionId>) {
    && (forall u, x :: IsBound(w, u, s, x) && x !in torn ==> IsBound(w', u, s, x))
    && (forall u :: u in w.sid && w.sid[u] !in torn ==>
          Lookup(w'.sid, u) == Lookup(w.sid, u) && (u in w'.ip <==> u in w.ip) && (u in w.ip ==> w'.ip[u] == w.ip[u]))
  }

  /** A check as `OnTimer` leaves it is the heartbeat step of the cluster. */
  lemma CheckIsTick(st: State, s: ServerName, silent: set<SessionId>, torn: set<SessionId>)
    requires CanTick(st, s, silent, torn)
    ensures var st' := Apply(st, Tick(s, silent, torn));
            && st'.w == TickWorld(st.w, s, torn) && st'.count == st.count[s := |st.w.local[s].sessions - silent|]
            && st'.procs == st.procs && st'.locks == st.locks && st'.checks == st.checks
  {
  }

  lemma TickSpares(w: World, s: ServerName, torn: set<SessionId>)
    requires s in w.local
    ensures Spares(w, TickWorld(w, s, torn), s, torn)
  {
  }

  lemma TickNone(w: World, s: ServerName)
    requires s in w.local
    ensures TickWorld(w, s, {}) == w
  {
    assert Deleted(w, {}) == {} && Unbound(w, w.local[s].users, {}) == {};
    assert w.sid - {} == w.sid && w.ip - {} == w.ip && w.local[s].users - {} == w.local[s].users;
    assert w.local[s].sessions - {} == w.local[s].sessions;
  }

  lemma DeletedNext(w: World, done: set<SessionId>, x: SessionId)
    requires x in w.objs && x !in done
    ensures var u := w.objs[x].uid;
            Deleted(w, done + {x}) == Deleted(w, done) + (if u in w.sid && w.sid[u] == x then {u} else {})
  {
  }

  lemma UnboundNext(w: World, users: map<Uid, SessionId>, done: set<SessionId>, x: SessionId)
    requires x in w.objs && x !in done
    ensures var u := w.objs[x].uid;
            && Unbound(w, users, done + {x}) ==
               Unbound(w, users, done) + (if u in users && users[u] == x then {u} else {})
            && users - Unbound(w, users, done + {x}) == RemoveBinding(users - Unbound(w, users, done), u, x)
  {
    var u := w.objs[x].uid;
    assert Unbound(w, users, done + {x}) == Unbound(w, users, done) + (if u in users && users[u] == x then {u} else {});
  }

  /** The heartbeat check as one step is the teardowns of the expired sessions in any order. */
  lemma TickIsTeardowns(w: World, s: ServerName, done: set<SessionId>, x: SessionId)
    requires s in w.local && x in w.objs && x in w.local[s].sessions && x !in done
    ensures TickWorld(w, s, done + {x}) == TeardownAll(TickWorld(w, s, done), s, w.objs[x].uid, x)
  {
    var u := w.objs[x].uid;
    var t := TickWorld(w, s, done);
    var goal := TickWorld(w, s, done + {x});
    DeletedNext(w, done, x);
    UnboundNext(w, w.local[s].users, done, x);
    ForgetNext(w, s, done, x);
    assert goal.local[s].sessions == t.local[s].sessions - {x};
    assert goal.local == t.local[s := goal.local[s]];
  }

  lemma ForgetNext(w: World, s: ServerName, done: set<SessionId>, x: SessionId)
    requires s in w.local && x in w.objs && x !in done
    ensures var u := w.objs[x].uid;
            var f := Forget(TickWorld(w, s, done), u, x);
            && f.sid == w.sid - Deleted(w, done + {x}) && f.ip == w.ip - Deleted(w, done + {x})
            && f.local == TickWorld(w, s, done).local && f.objs == w.objs
  {
    var u := w.objs[x].uid;
    DeletedNext(w, done, x);
    var d := Deleted(w, done);
    if u in w.sid && w.sid[u] == x {
      assert u !in d;
      assert w.sid - d - {u} == w.sid - (d + {u}) && w.ip - d - {u} == w.ip - (d + {u});
    } else {
      assert d + {} == d;
    }
  }
}
