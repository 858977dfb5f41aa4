/** The status server: it sends a client to the least loaded chat server, with a token that the chat
    server has confirmed when the client logs in there. */
module StatusServer {
  import opened Wrappers
  import opened Registry
  import Cluster
  import ClusterLoad

  /** Stands for the load of a server that has no entry in `logincount`. */
  const INT_MAX: int := 0x7fff_ffff

  datatype ChatServer = ChatServer(name: ServerName, host: string, port: string, conCount: int)

  datatype Reply = Success | TokenInvalid | UidInvalid

  function Load(count: map<ServerName, int>, s: ServerName): int {
    if s in count then count[s] else INT_MAX
  }

  /** `i` is the first position of a server with the smallest load. */
  ghost predicate IsFirstMinimum(count: map<ServerName, int>, servers: seq<ChatServer>, i: nat) {
    && i < |servers|
    && (forall j :: 0 <= j < |servers| ==> Load(count, servers[i].name) <= Load(count, servers[j].name))
    && (forall j :: 0 <= j < i ==> Load(count, servers[i].name) < Load(count, servers[j].name))
  }

  /** The loads of the first `n` servers but the very first have been noted. */
  ghost predicate Noted(count: map<ServerName, int>, was: seq<ChatServer>, now: seq<ChatServer>, n: nat) {
    && |now| == |was|
    && (forall j :: 0 <= j < |was| ==>
          now[j] == if 0 < j < n then was[j].(conCount := Load(count, was[j].name)) else was[j])
  }

  class StatusServer {
    var servers: seq<ChatServer>          // _chat_servers, in the order of iteration
    var tokens: map<Uid, string>          // uid_tokens

    ghost predicate Valid()
      reads this
    {
      forall i, j :: 0 <= i < j < |servers| ==> servers[i].name != servers[j].name
    }

    constructor (servers: seq<ChatServer>)
      requires forall i, j :: 0 <= i < j < |servers| ==> servers[i].name != servers[j].name
      ensures Valid() && this.servers == servers && tokens == map[]
    {
      this.servers, tokens := servers, map[];
    }

    /** `getChatServer`; `count` has, of each server, the entry of `logincount` as it was when that server was
        looked up, which happens once: the chat servers may change the entries in between. None for an empty
        table, where the source reads an element that is not there. The loads are noted in the table, that
        of the first server only in the copy. */
    method GetChatServer(count: map<ServerName, int>) returns (chosen: Option<ChatServer>, ghost at: nat)
      requires Valid()
      modifies this`servers
      ensures Valid() && (chosen.None? <==> old(servers) == [])
      ensures chosen.None? ==> servers == old(servers)
      ensures chosen.Some? && (exists c :: c in old(servers) && c.name in count && count[c.name] < INT_MAX) ==>
                && chosen.value.name in count && chosen.value.conCount == count[chosen.value.name]
                && forall c :: c in old(servers) && c.name in count ==> chosen.value.conCount <= count[c.name]
      ensures chosen.Some? ==>
                && IsFirstMinimum(count, old(servers), at)
                && chosen.value == old(servers)[at].(conCount := Load(count, old(servers)[at].name))
                && Noted(count, old(servers), servers, |servers|)
    {
      if servers == [] {
        return None, 0;
      }
      ghost var was := servers;
      var minserver := servers[0].(conCount := Load(count, servers[0].name));
      at := 0;
      for i := 0 to |servers|
        invariant at < |was| && (at == 0 || at < i) && Noted(count, was, servers, i)
        invariant minserver == was[at].(conCount := Load(count, was[at].name))
        invariant forall j :: 0 <= j < i ==> minserver.conCount <= Load(count, was[j].name)
        invariant forall j :: 0 <= j < at ==> minserver.conCount < Load(count, was[j].name)
      {
        if servers[i].name != minserver.name {
          servers := servers[i := servers[i].(conCount := Load(count, servers[i].name))];
          if servers[i].conCount < minserver.conCount {
            minserver := servers[i];
            at := i;
          }
        }
      }
      chosen := Some(minserver);
    }

    /** `insertToken`. */
    method InsertToken(uid: Uid, token: string)
      modifies this`tokens
      ensures tokens == old(tokens)[uid := token]
    {
      tokens := tokens[uid := token];
    }

    /** The check behind `Login`. */
    method Login(uid: Uid, token: string) returns (reply: Reply)
      ensures reply == Success <==> uid in tokens && tokens[uid] == token
      ensures reply == UidInvalid <==> uid !in tokens
    {
      if uid !in tokens {
        return UidInvalid;
      }
      if tokens[uid] != token {
        return TokenInvalid;
      }
      return Success;
    }
  }

  /** The tokens given out one after the other. */
  function Issue(tokens: map<Uid, string>, issued: seq<(Uid, string)>): map<Uid, string> {
    if issued == [] then tokens
    else
      var last := issued[|issued| - 1];
      Issue(tokens, issued[..|issued| - 1])[last.0 := last.1]
  }

  /** A token is good exactly if it is the last one given to its user. */
  lemma {:induction false} TokenIsLatestIff(issued: seq<(Uid, string)>, uid: Uid, token: string)
    ensures uid in Issue(map[], issued) && Issue(map[], issued)[uid] == token <==>
            exists k :: 0 <= k < |issued| && issued[k] == (uid, token) &&
                        forall j :: k < j < |issued| ==> issued[j].0 != uid
  {
    if issued == [] {
    } else {
      var n := |issued| - 1;
      TokenIsLatestIff(issued[..n], uid, token);
    }
  }

  /** The server a client is sent to: when its counter was looked up, in any reachable state of the cluster,
      the users bound there were no more than the load read for any chat server that could have been chosen
      instead, be it before or after. */
  lemma ChosenIsLeastLoaded(cluster: set<ServerName>, steps: seq<Cluster.Step>, count: map<ServerName, int>,
                            servers: seq<ChatServer>, at: nat, j: nat)
    requires Cluster.ValidRun(Cluster.Init(cluster), steps)
    requires forall k :: 0 <= k < |steps| ==> ClusterLoad.CountGuard(steps[k])
    requires IsFirstMinimum(count, servers, at) && j < |servers| && servers[at].name in cluster
    requires var st := Cluster.Run(Cluster.Init(cluster), steps);
             servers[at].name in st.count && servers[at].name in count &&
             count[servers[at].name] == st.count[servers[at].name]
    ensures var st := Cluster.Run(Cluster.Init(cluster), steps);
            |Cluster.Users(st.w, servers[at].name)| <= Load(count, servers[j].name)
  {
    ClusterLoad.LoadCounterBound(cluster, steps, servers[at].name);
  }
}
