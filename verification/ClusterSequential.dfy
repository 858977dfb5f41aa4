/** Logins and teardowns that run without interruption, as functions on the bindings, and the exact
    conditions under which they keep logins exclusive. */
module ClusterSequential {
  import opened Registry
  import opened Cluster
  import opened ClusterSafety

  /** The kick: the server Redis names clears the session it has bound. */
  function Kick(w: World, s: ServerName, u: Uid, delivered: bool): World {
    if u !in w.ip then w
    else if w.ip[u] == s then ClearIf(w, s, Lookup(Users(w, s), u))
    else if delivered then ClearIf(w, w.ip[u], Lookup(Users(w, w.ip[u]), u))
    else w
  }

  /** The writes after the kick: both Redis hashes, the session's uid, the uid table. */
  function Enter(w: World, s: ServerName, u: Uid, x: SessionId): World {
    Bind(SetUid(w.(ip := w.ip[u := s], sid := w.sid[u := x]), x, u), s, u, x)
  }

  function LoginAll(w: World, s: ServerName, u: Uid, x: SessionId, delivered: bool): World {
    Enter(Kick(w, s, u, delivered), s, u, x)
  }

  /** The Redis part of a teardown: entries are deleted only while they name the session. */
  function Forget(w: World, u: Uid, x: SessionId): World {
    if u in w.sid && w.sid[u] == x then w.(sid := w.sid - {u}, ip := w.ip - {u}) else w
  }

  function TeardownAll(w: World, s: ServerName, u: Uid, x: SessionId): World {
    Clear(Forget(w, u, x), s, x)
  }

  // ------------------------------------------------------------------------------------------
  // Exactly when logins stay exclusive
  // ------------------------------------------------------------------------------------------

  ghost predicate AtMostOne(w: World, u: Uid) {
    forall s1, x1, s2, x2 :: IsBound(w, u, s1, x1) && IsBound(w, u, s2, x2) ==> s1 == s2 && x1 == x2
  }

  lemma KickUnbinds(w: World, s: ServerName, u: Uid)
    requires TablesOk(w) && Agree(w, u)
    ensures NoneBound(Kick(w, s, u, true), u) && TablesOk(Kick(w, s, u, true))
  {
    if u in w.ip {
      var peer := w.ip[u];
      LookupFacts(w, u, peer);
      if Lookup(Users(w, peer), u).Some? {
        ClearFacts(w, peer, Lookup(Users(w, peer), u).value);
      }
    }
  }

  lemma EnterBound(w: World, s: ServerName, u: Uid, x: SessionId, u': Uid, s': ServerName, x': SessionId)
    requires s in w.local
    ensures IsBound(Enter(w, s, u, x), u', s', x') <==>
            IsBound(w, u', s', x') || (u' == u && s' == s && x' == x && u !in w.local[s].users)
  {
  }

  /** The result of `NotifyKickUser` is ignored. A login whose kick got lost leaves at most one
      session bound if and only if there was nothing to kick on the server Redis named. */
  lemma LostKickExclusiveIff(w: World, s: ServerName, u: Uid, x: SessionId)
    requires TablesOk(w) && Agree(w, u) && s in w.local
    ensures AtMostOne(LoginAll(w, s, u, x, false), u) <==>
            u !in w.ip || w.ip[u] == s || u !in Users(w, w.ip[u])
  {
    var w' := LoginAll(w, s, u, x, false);
    var k := Kick(w, s, u, false);
    forall s', x'
      ensures IsBound(w', u, s', x') <==> IsBound(k, u, s', x') || (s' == s && x' == x && u !in k.local[s].users)
    {
      EnterBound(k, s, u, x, u, s', x');
    }
    if u !in w.ip || w.ip[u] == s {
      assert k == Kick(w, s, u, true);
      KickUnbinds(w, s, u);
    } else if u in Users(w, w.ip[u]) {
      var peer := w.ip[u];
      assert IsBound(w', u, peer, Users(w, peer)[u]);
      assert u !in w.local[s].users by {
        if u in w.local[s].users {
          assert IsBound(w, u, s, w.local[s].users[u]);
        }
      }
      assert IsBound(w', u, s, x);
    } else {
      assert NoneBound(w, u);
    }
  }

  /** `SetUidSession` does not check its session. A login leaves the tables in order if and only if
      it is the first login (`u != 0`) of a session that the server still lists and that is bound to
      no one, itself included. */
  lemma LoginTablesIff(w: World, s: ServerName, u: Uid, x: SessionId)
    requires TablesOk(w) && Agree(w, u) && s in w.local && x in w.objs && w.objs[x].home == s
    ensures TablesOk(LoginAll(w, s, u, x, true)) <==>
            u != 0 && x in w.local[s].sessions && forall v :: !IsBound(w, v, s, x)
  {
    var k := Kick(w, s, u, true);
    var w' := LoginAll(w, s, u, x, true);
    KickUnbinds(w, s, u);
    KickBound(w, s, u);
    forall v, s', x'
      ensures IsBound(w', v, s', x') <==> IsBound(k, v, s', x') || (v == u && s' == s && x' == x)
    {
      EnterBound(k, s, u, x, v, s', x');
      assert u in k.local[s].users ==> IsBound(k, u, s, k.local[s].users[u]);
    }
    assert IsBound(w', u, s, x);
    if v :| IsBound(w, v, s, x) {
      assert v != u ==> IsBound(w', v, s, x);
      assert !TablesOk(w');
    } else if u != 0 && x in w.local[s].sessions {
      assert x in k.local[s].sessions;
      assert TablesOk(w') by {
        forall v, s', x' | IsBound(w', v, s', x')
          ensures x' in w'.local[s'].sessions && x' in w'.objs && w'.objs[x'].uid == v && v != 0
        {
          assert x' == x ==> !IsBound(w, v, s', x) by {
            assert IsBound(w, v, s', x) ==> s' == s;
          }
        }
      }
    }
  }

  /** A kick removes the bindings of `u`, and from the session tables only a session bound to `u`. */
  lemma KickBound(w: World, s: ServerName, u: Uid)
    requires TablesOk(w) && Agree(w, u) && s in w.local
    ensures var k := Kick(w, s, u, true);
            && k.local.Keys == w.local.Keys && k.objs == w.objs
            && (forall v, s', x :: IsBound(k, v, s', x) <==> IsBound(w, v, s', x) && v != u)
            && (forall x :: x in k.local[s].sessions <==> x in w.local[s].sessions && !IsBound(w, u, s, x))
  {
    if u in w.ip {
      var peer := w.ip[u];
      LookupFacts(w, u, peer);
      var gone := Lookup(Users(w, peer), u);
      if gone.Some? {
        assert IsBound(w, u, peer, gone.value);
        ClearFacts(w, peer, gone.value);
      }
    }
  }

  /** A session that was cleared while its login waited stays bound for good: its own teardown
      cannot remove it, and the next login of the user on another server does not know of it. */
  lemma ClearedSessionStaysBound(w: World, u: Uid, s: ServerName, x: SessionId, s2: ServerName, y: SessionId)
    requires TablesOk(w) && Agree(w, u) && s in w.local && s2 in w.local && s != s2
    requires x in w.objs && x !in w.local[s].sessions
    ensures var w1 := LoginAll(w, s, u, x, true);
            var w2 := TeardownAll(w1, s, u, x);
            var w3 := LoginAll(w2, s2, u, y, true);
            u !in w2.ip && u !in w2.sid && IsBound(w3, u, s, x) && IsBound(w3, u, s2, y)
  {
    var w1 := LoginAll(w, s, u, x, true);
    LoginBinds(w, s, u, x);
    var w2 := TeardownAll(w1, s, u, x);
    assert u in w1.sid && w1.sid[u] == x;
    assert forall s', x' :: IsBound(w2, u, s', x') <==> IsBound(w1, u, s', x');
    assert Kick(w2, s2, u, true) == w2;
    EnterBound(w2, s2, u, y, u, s, x);
    EnterBound(w2, s2, u, y, u, s2, y);
    assert u in w2.local[s2].users ==> IsBound(w2, u, s2, w2.local[s2].users[u]);
  }

  lemma LoginBinds(w: World, s: ServerName, u: Uid, x: SessionId)
    requires TablesOk(w) && Agree(w, u) && s in w.local
    ensures var w' := LoginAll(w, s, u, x, true);
            && (forall s', x' :: IsBound(w', u, s', x') <==> s' == s && x' == x)
            && w'.local.Keys == w.local.Keys && w'.local[s].sessions <= w.local[s].sessions
  {
    KickUnbinds(w, s, u);
    KickBound(w, s, u);
    var k := Kick(w, s, u, true);
    assert u in k.local[s].users ==> IsBound(k, u, s, k.local[s].users[u]);
    forall s', x'
      ensures IsBound(LoginAll(w, s, u, x, true), u, s', x') <==> s' == s && x' == x
    {
      EnterBound(k, s, u, x, u, s', x');
    }
  }

  /** What a teardown removes: its session from the table, its binding, and the Redis entries exactly
      if they name it. What is left agrees. */
  lemma TeardownEffect(w: World, s: ServerName, u: Uid, x: SessionId)
    requires TablesOk(w) && Agree(w, u) && s in w.local && x in w.objs && w.objs[x] == SessionObj(s, u)
    ensures var w' := TeardownAll(w, s, u, x);
            && TablesOk(w') && Agree(w', u) && x !in w'.local[s].sessions
            && (forall v, s', y :: IsBound(w', v, s', y) <==> IsBound(w, v, s', y) && !(s' == s && y == x))
            && (forall v :: v in w'.sid <==> v in w.sid && !(v == u && w.sid[u] == x))
            && (forall v :: v in w'.ip <==> v in w.ip && !(v == u && u in w.sid && w.sid[u] == x))
  {
    var f := Forget(w, u, x);
    assert forall v, s', y :: IsBound(f, v, s', y) <==> IsBound(w, v, s', y);
    assert TablesOk(f);
    ClearFacts(f, s, x);
    forall s', y | IsBound(w, u, s', y) && y == x
      ensures s' == s
    {
      assert y in w.local[s'].sessions;
    }
  }

  /** A teardown undoes the login of its session if and only if, when that login ran, the server still
      listed the session and had not bound it to the same user before. */
  lemma TeardownUndoesLoginIff(w: World, s: ServerName, u: Uid, x: SessionId)
    requires TablesOk(w) && Agree(w, u) && s in w.local && x in w.objs && w.objs[x].home == s
    ensures var w' := TeardownAll(LoginAll(w, s, u, x, true), s, u, x);
            && u !in w'.ip && u !in w'.sid
            && (NoneBound(w', u) <==> x in w.local[s].sessions && !IsBound(w, u, s, x))
  {
    var w1 := LoginAll(w, s, u, x, true);
    var w' := TeardownAll(w1, s, u, x);
    LoginBinds(w, s, u, x);
    KickBound(w, s, u);
    assert IsBound(w1, u, s, x);
    assert x in w1.local[s].sessions <==> x in w.local[s].sessions && !IsBound(w, u, s, x);
    if x in w1.local[s].sessions {
      assert forall s', y :: IsBound(w', u, s', y) ==> IsBound(w1, u, s', y);
      assert NoneBound(w', u);
    } else {
      assert IsBound(w', u, s, x);
    }
  }

  /** A session that logs in a second time, as `v`, keeps its first binding for good: its teardown works
      for `v` only, and the next login of `u` on another server kicks a session that is listed no more. */
  lemma SecondLoginStaysBound(w: World, a: ServerName, u: Uid, v: Uid, x: SessionId, b: ServerName, y: SessionId)
    requires TablesOk(w) && NoneBound(w, u) && NoneBound(w, v) && u != v && u !in w.ip && v !in w.ip
    requires a in w.local && b in w.local && a != b && x in w.objs && y in w.objs && y != x && x in w.local[a].sessions
    ensures var w1 := LoginAll(w, a, u, x, true);
            var w2 := LoginAll(w1, a, v, x, true);
            var w3 := TeardownAll(w2, a, v, x);
            var w4 := LoginAll(w3, b, u, y, true);
            && w2.objs[x].uid == v && w3.objs[y] == w.objs[y] && w3.local[b] == w.local[b]
            && IsBound(w4, u, a, x) && IsBound(w4, u, b, y)
  {
    assert u in w.local[a].users ==> IsBound(w, u, a, w.local[a].users[u]);
    assert v in w.local[a].users ==> IsBound(w, v, a, w.local[a].users[v]);
    assert u in w.local[b].users ==> IsBound(w, u, b, w.local[b].users[u]);
    var w1 := LoginAll(w, a, u, x, true);
    var w2 := LoginAll(w1, a, v, x, true);
    assert w1 == Enter(w, a, u, x) && w2 == Enter(w1, a, v, x);
    SecondLoginTorn(w2, a, u, v, x, b, y);
  }

  lemma SecondLoginTorn(w: World, a: ServerName, u: Uid, v: Uid, x: SessionId, b: ServerName, y: SessionId)
    requires a in w.local && b in w.local && a != b && u != v && x in w.objs && w.objs[x].uid == v
    requires IsBound(w, u, a, x) && u in w.ip && w.ip[u] == a && u !in w.local[b].users
    requires v in w.sid && w.sid[v] == x && x in w.local[a].sessions
    ensures var w3 := TeardownAll(w, a, v, x);
            var w4 := LoginAll(w3, b, u, y, true);
            IsBound(w4, u, a, x) && IsBound(w4, u, b, y)
  {
    var w3 := TeardownAll(w, a, v, x);
    assert IsBound(w3, u, a, x) && x !in w3.local[a].sessions && w3.ip[u] == a;
    var k := Kick(w3, b, u, true);
    assert IsBound(k, u, a, x) && k.local[b] == w3.local[b];
    EnterBound(k, b, u, y, u, a, x);
    EnterBound(k, b, u, y, u, b, y);
  }
}
