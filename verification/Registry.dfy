/** What one chat server keeps in memory about its clients, and the three changes it makes to it:
    the session table of `Server` and the uid table of `UserMgr`. */
module Registry {
  type Uid = int
  type SessionId = string
  type ServerName = string

  /** `sessions` is `Server::_sessions`, `users` is `UserMgr::_uid_to_sessions` with each session
      named by its id. */
  datatype Local = Local(sessions: set<SessionId>, users: map<Uid, SessionId>)

  const EMPTY_LOCAL := Local({}, map[])

  /** `UserMgr::SetUidSession`: `unordered_map::insert` keeps an entry that is already there. */
  function InsertBinding(users: map<Uid, SessionId>, uid: Uid, id: SessionId): map<Uid, SessionId> {
    if uid in users then users else users[uid := id]
  }

  /** `UserMgr::RmUidSession`: only the session that is bound may unbind itself. */
  function RemoveBinding(users: map<Uid, SessionId>, uid: Uid, id: SessionId): map<Uid, SessionId> {
    if uid in users && users[uid] == id then users - {uid} else users
  }

  /** `Server::ClearSession`; `uid` is the uid the session object carries. */
  function ClearSession(l: Local, id: SessionId, uid: Uid): Local {
    Local(l.sessions - {id}, if id in l.sessions then RemoveBinding(l.users, uid, id) else l.users)
  }

  // Sizes

  lemma SubsetSmaller<T>(a: set<T>, b: set<T>)
    requires a <= b
    ensures |a| <= |b|
  {
    assert b == a + (b - a) && a !! (b - a);
  }

  lemma Pick<T>(s: set<T>) returns (x: T)
    requires s != {}
    ensures x in s
  {
    x :| x in s;
  }

  lemma {:induction false} InjectiveSmaller(users: map<Uid, SessionId>, keys: set<Uid>, s: set<SessionId>)
    requires keys <= users.Keys
    requires forall u :: u in keys ==> users[u] in s
    requires forall u, v :: u in keys && v in keys && users[u] == users[v] ==> u == v
    ensures |keys| <= |s|
    decreases |s|
  {
    if keys == {} {
    } else {
      var u := Pick(keys);
      InjectiveSmaller(users, keys - {u}, s - {users[u]});
    }
  }
}
