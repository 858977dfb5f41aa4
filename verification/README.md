# A verified model of the chat cluster

The project models the parts of the chat system that hold state: exclusive login over a cluster of
chat servers, the framed transport between client and server, and the smaller machines both stand on
(the lease lock, the logic queue, the Redis pool, the chain of asynchronous call objects, the user
cache, the friend transaction, the URL codec of the gate server). `ChatServer` is the copy that is
modelled; `ChatServer2` and `ChatServer3` repeat it. `dafny verify dfyconfig.toml` checks everything.

Every component appears in up to three forms. A **transition system** (`State`, `Step`, `Enabled`,
`Apply`, `Run`) says what any interleaving of threads, servers and clients can do; its theorems speak
of every reachable state. **Classes** with fields that change in place follow the C++ members, and each
method is proved equal to a step, or to a function made of steps, of that system. **Independent
definitions** (`Parse` for the stream reader, `Canonical` for the encoder, `Select` for the cache) say
what the result means without saying how it is computed.

| files | what |
|---|---|
| LeaseLock.dfy | the lease lock, as a class and over all timed runs |
| Registry.dfy, Cluster.dfy | the tables of one server; the login protocol as a transition system |
| ClusterSafety.dfy, ClusterTheorems.dfy | its invariant, and what follows for logins, routing and old sessions |
| ClusterLoad.dfy, ClusterCounter.dfy | the load counter: its bound, and what it says exactly |
| ClusterSequential.dfy, ClusterRuns.dfy | uninterrupted logins and teardowns as functions, what they leave, and that they are runs of the transition system |
| ClusterOverlap.dfy, ClusterOvertake.dfy | two critical sections of a user at once, when a lease has lapsed: two logins, a login and a teardown, two teardowns, over every interleaving |
| ClusterCleared.dfy, ClusterLostKick.dfy | a session cleared during its own login, and a lost kick, over the sub-steps of the login |
| ClusterLimits.dfy | for each guard a run that breaks it alone and ends with two bindings; runs that break the counter's bound |
| ChatServer.dfy, Heartbeat.dfy | `Server`, `UserMgr`, `Session` and the Redis hashes as objects; which sessions the heartbeat checks end |
| Transport.dfy, Receiver.dfy, SessionReader.dfy, Sender.dfy, EndToEnd.dfy | frames, reader, sender, and the two together |
| LogicQueue.dfy | the bounded queue before the logic thread |
| UrlCodec.dfy, UrlRequests.dfy, UrlMeaning.dfy | percent-encoding and the query parser; which requests stop the server, and what the others mean |
| StatusServer.dfy | choice of the least loaded server, login tokens |
| RedisPool.dfy, CallChain.dfy, LockOrder.dfy | connection pool, call objects, absence of deadlock |
| CacheAside.dfy, Friends.dfy | user lookup through the cache; the friend transaction |

## What the login protocol needs from its surroundings

Module `Cluster` steps through a login one Redis access or one locked block at a time. Exclusive login
holds under the guards written in `Cluster.Guard`:

- a critical section ends within its lease (`WithinLease`);
- a kick RPC is delivered, or there is nothing to kick where it was sent (its result is ignored at
  ChatServer/src/LogicSystem.cpp:254);
- a login runs for a session that is still in `_sessions` and carries uid 0, for a uid other than 0,
  and that session is not torn down during its own login (`SetUidSession` does not overwrite, and
  `ClearSession` unbinds only sessions it still finds);
- session ids and lock uuids are fresh (`Enabled`).

Every pair of critical sections of one user, lapsed or not, is a login and a login, a login and a
teardown, or a teardown and a teardown; the three theorems below speak of any state of a guarded run in
which one of the two begins while the other is in its section (`OverlapBegins`, `LoginOvertakes`,
`TeardownOvertakes`, `TeardownsOvertake`). The teardowns of a heartbeat check are teardowns among these.
The count lock bears on nothing but the counter, and a check writes that with or without it.

For the load counter, in addition, a heartbeat check is one step and tears down every session it
found expired (`ClusterLoad.CountGuard`); it need not get the count lock. A run may contain any number
of accepts, logins, failed logins, lost kicks, teardowns with and without the lock, closes after an
oversize frame, whole and torn heartbeat checks, orderly and abrupt stops, and restarts.

Several guards are not kept by the code, and several properties fail without them. For each the exact
condition is proved, and a concrete failing run is given:

| what fails | exactly when it holds | run on which it fails |
|---|---|---|
| exclusive login, kick RPC lost | `ClusterLostKick.LostKickIff`, `LostKickExclusiveIff` | `LostKickBreaks` |
| exclusive login, lease lapsed | two logins: `OverlapExclusiveIff`; a login and a teardown: `OvertakenIff`; two teardowns: always, `TeardownsAgree` | `LapsedLeaseBreaks`, `OvertakenTeardownBreaks` |
| exclusive login, session not listed when its login begins | `LoginTablesIff`, `TeardownUndoesLoginIff`, `ClearedSessionStaysBound` | `UnlistedLoginBreaks` |
| exclusive login, session cleared while logging in | `ClusterCleared.ClearedDuringLoginIff` | `ClearedLoginBreaks` |
| exclusive login, session logging in twice | `LoginTablesIff`, `SecondLoginStaysBound` | `SecondLoginBreaks` |
| counter bound, check torn into snapshot and write | `TornCheckIff` | `TornTickLosesLogin` |
| counter bound, teardown given up | `GivenUpIff`, `TornCheckIff` | `GivenUpLosesUser` |
| a chain of call objects keeps its waiters | `SkipsCostWaiters`, `WaitersUntilShutdown` | `ChainCanEnd` |
| call objects are deleted after their answer | `QuietMeansAnswered`, `StrandedForGood` | `AnsweredCanStay` |
| cached password | `PasswordOfFirstLookup` | `StalePassword` |
| decoding a request | `UrlRequests.RequestFailsIff`, `DecodeFailsIff` | `BadRequest` |
| a written message is read back | `WriteReadIff` | every payload over 2048 bytes |

## Model

| member | source | states |
|---|---|---|
| LeaseLock.DistLock.AcquireLock | ChatServer/src/DistLock.cpp:3-32 | whatever other callers make of the keys between its attempts: succeeds exactly if the key is free at some attempt before the deadline, takes it at the first such attempt with its own uuid and the lease of 10 s, and otherwise leaves every key as it found it |
| LeaseLock.DistLock.ReleaseLock | ChatServer/src/DistLock.cpp:34-58 | deletes the key exactly if it is live and still carries the caller's uuid, and says so |
| LeaseLock.Times | ChatServer/include/Const.h:85-86 | attempts go on for 5 s, and a lease lasts 10 s |
| LeaseRuns.InvOverRun | ChatServer/src/DistLock.cpp:3-58 | over every timed run the live keys and the callers within their lease are in one-to-one agreement |
| LeaseRuns.MutualExclusion | ChatServer/src/DistLock.cpp:3-58 | two callers within their lease of one key are the same caller |
| LeaseRuns.OnlyOwnReleaseFrees | ChatServer/src/DistLock.cpp:34-58 | a caller within its lease loses the key to a release if and only if it is its own; a late release or one with the empty identifier never takes it |
| LeaseRuns.AcquireSucceedsIff | ChatServer/src/DistLock.cpp:19-32 | an attempt succeeds if and only if nobody within a lease holds the key |
| ClusterSafety.ClearFacts | ChatServer/src/Server.cpp:19-28 | clearing a session removes its own binding and no other, and keeps the tables in order |
| ClusterSafety.AcceptStep | ChatServer/src/Server.cpp:30-45 | a new connection keeps the invariant |
| ClusterSafety.LoginKicks | ChatServer/src/LogicSystem.cpp:236-250 | after the kick, here or on a peer, the user is bound nowhere, and no other login has lost its session |
| ClusterSafety.LoginWritesRedis | ChatServer/src/LogicSystem.cpp:284-290 | the two Redis writes disturb no other user and leave this one unbound but named |
| ClusterSafety.LoginSetsUid | ChatServer/src/LogicSystem.cpp:292-292 | giving the session its uid takes it from no other login |
| ClusterSafety.LoginBinds | ChatServer/src/LogicSystem.cpp:293-293 | the binding made is the only one and agrees with both Redis entries |
| ClusterSafety.LoginBeginStep | ChatServer/src/LogicSystem.cpp:219-229 | nobody else is in a critical section for the user when one begins |
| ClusterSafety.KickLostStep | ChatServer/src/LogicSystem.cpp:250-255 | an undelivered kick keeps the invariant where the peer had no binding |
| ClusterSafety.TeardownChecks | ChatServer/src/Session.cpp:289-305 | if Redis names the session torn down, no other session is bound to its user, so deleting the entries hurts nobody |
| ClusterSafety.TeardownClears | ChatServer/src/Session.cpp:262-270 | the final clear of a teardown leaves the user's remaining binding, if any, in agreement with Redis |
| ClusterSafety.LocalClearStep | ChatServer/src/Session.cpp:116-121 | clearing without the user lock, as after an oversize frame, keeps the invariant |
| ClusterSafety.TickStep | ChatServer/src/Server.cpp:80-140 | so does the heartbeat check, with or without the count lock, which deletes Redis entries only of users whose lock it had |
| ClusterSafety.StopStep | ChatServer/src/ChatServer.cpp:48-59 | so does losing a server with every login and teardown in progress on it |
| ClusterSafety.StepKeepsInv | ChatServer/src/LogicSystem.cpp:216-294 | every step the guards allow keeps the invariant |
| ClusterSafety.Reachable | ChatServer/src/LogicSystem.cpp:216-294 | the invariant holds in every reachable state of any cluster |
| ClusterTheorems.ExclusiveLogin | ChatServer/src/LogicSystem.cpp:216-294 | at every moment of every run at most one session in the whole cluster is bound to a user, whether or not its lock is free |
| ClusterTheorems.BindingUnique | ChatServer/src/UserMgr.cpp:6-35 | the invariant leaves a user at most one binding, also inside critical sections |
| ClusterTheorems.LoginLeavesExactlyItsSession | ChatServer/src/LogicSystem.cpp:284-294 | when a completed login gives the lock back, its session and no other is bound, Redis names it, and the lock is free |
| ClusterTheorems.FailedLoginLeavesNone | ChatServer/src/LogicSystem.cpp:259-277 | a login that fails at the counter leaves the user bound nowhere and gives the user lock back |
| ClusterTheorems.IndexAgreement | ChatServer/src/LogicSystem.cpp:718-751 | while no section for the user is in progress, the route over the Redis server name and that server's table finds a session if and only if it is bound, and its id is the one in Redis |
| ClusterTheorems.TeardownSparesOthers | ChatServer/src/Session.cpp:257-310 | no sub-step of a teardown touches the binding or the Redis entries of a user bound to another session |
| ClusterTheorems.OldSessionIsHarmless | ChatServer/src/Session.cpp:257-310 | in every reachable state teardown, clear or expiry of an old session leaves a newer login untouched |
| ClusterLoad.LoginAddsOne | ChatServer/src/LogicSystem.cpp:259-281 | writing back the value read, plus one, covers the login still to bind, even if a check without the lock has overwritten the counter since |
| ClusterLoad.LoginBindsOne | ChatServer/src/LogicSystem.cpp:291-293 | the binding uses up the one the counter was raised by, and no other login of the server is between read and write |
| ClusterLoad.TickRoom | ChatServer/src/Server.cpp:80-140 | the number of live sessions covers the users left and a login in progress, because users are bound to different listed sessions |
| ClusterLoad.StepKeepsCount | ChatServer/src/LogicSystem.cpp:257-282 | every step keeps the counter at least the bound users plus the login about to bind |
| ClusterLoad.LoadCounterBound | ChatServer/src/Server.cpp:119-132 | in every reachable state the counter is at least the number of users bound on the server, although no disconnect lowers it and checks may write it without the count lock |
| ClusterLoad.LiveCoversIff | ChatServer/src/Server.cpp:101-118 | a number of live sessions covers the bound users if and only if the users bound to other sessions are no more than the live sessions without a user |
| ClusterLoad.TornCheckIff | ChatServer/src/Server.cpp:101-132 | a check writes the number of the sessions it counted some steps ago: then, and at every later moment until the counter is written again, the bound holds if and only if the users bound to sessions it did not count are no more than the counted sessions without a user |
| ClusterLoad.TornCheckCovers | ChatServer/src/Server.cpp:101-132 | in particular as long as every session bound is one it counted |
| ClusterLoad.GivenUpIff | ChatServer/src/Server.cpp:126-137 | a check that does not get some user locks keeps the bound if and only if the users left bound to expired sessions are no more than the live sessions without a user |
| ClusterCounter.EntryIff | ChatServer/src/ChatServer.cpp:48-59 | over every run a server has a counter if and only if it was started or checked and has not stopped in good order since |
| ClusterCounter.NoIncrementLost | ChatServer/src/LogicSystem.cpp:257-282 | until a check, a stop or a start of the server writes its counter, it grows by exactly one for each login that writes it, whatever else goes on anywhere |
| ClusterCounter.CountsFromStart | ChatServer/src/ChatServer.cpp:48-59 | the counter of a server that has just been started is the number of logins that have written it |
| ClusterCounter.TornCheckWrites | ChatServer/src/Server.cpp:101-132 | a check writes the number of sessions it found listed and not expired, whatever has happened since it counted them |
| ClusterRuns.KickIsRun | ChatServer/src/LogicSystem.cpp:236-255 | the kick as a function is what its sub-steps do when nothing comes between |
| ClusterRuns.CountIsRun | ChatServer/src/LogicSystem.cpp:257-282 | lock, read, write and release of the counter add exactly one |
| ClusterRuns.EnterIsRun | ChatServer/src/LogicSystem.cpp:284-293 | the writes after the kick as a function are what their sub-steps do |
| ClusterRuns.MissingCountIsRun | ChatServer/src/LogicSystem.cpp:270-277 | without a counter entry the login fails, changes nothing and frees the count lock |
| ClusterRuns.TeardownOwnIsRun | ChatServer/src/Session.cpp:257-310 | the teardown of the session Redis names, as a function, is what its sub-steps do when nothing comes between |
| ClusterRuns.TeardownOldIsRun | ChatServer/src/Session.cpp:295-304 | so is the teardown of any other session, which leaves Redis alone |
| ClusterRuns.LoginIsRun | ChatServer/src/LogicSystem.cpp:216-294 | from any state where a login may begin and the count lock is free, its sub-steps in a row are a run under the guards, end in the login as one function with the counter one higher, free both locks and touch no other section |
| ClusterRuns.TeardownIsRun | ChatServer/src/Session.cpp:257-310 | from any state where the user lock is free and no login works for the session, the sub-steps of a teardown in a row are a run under the guards and end in the teardown as one function |
| ClusterSequential.KickUnbinds | ChatServer/src/LogicSystem.cpp:236-255 | a delivered kick leaves the user bound nowhere |
| ClusterSequential.KickBound | ChatServer/src/LogicSystem.cpp:236-255 | and takes nothing else: all other bindings stay, and on the server of the login all other sessions stay listed |
| ClusterSequential.LoginBinds | ChatServer/src/LogicSystem.cpp:216-294 | an uninterrupted login from an agreeing state binds exactly its session |
| ClusterSequential.TeardownEffect | ChatServer/src/Session.cpp:257-310 | a teardown unlists its session, removes its binding and no other, deletes the Redis entries exactly if they name it, and leaves agreement |
| ClusterSequential.TeardownUndoesLoginIff | ChatServer/src/Session.cpp:257-310 | login and then teardown of one session leave no Redis entry, and no binding if and only if the server listed the session at login and had not bound it to the user before |
| ClusterSequential.LostKickExclusiveIff | ChatServer/src/LogicSystem.cpp:250-255 | a login whose kick RPC got lost keeps the user exclusive if and only if Redis named no other server or that server had no binding |
| ClusterSequential.LoginTablesIff | ChatServer/src/UserMgr.cpp:6-10 | an uninterrupted login leaves the tables in order if and only if the uid is not 0 and the session is still listed and not bound already, to the same user included |
| ClusterOverlap.OverlapBegins | ChatServer/src/LogicSystem.cpp:219-229 | in any state of a guarded run, after any time, a login that begins while another of its user is in its section makes such a pair |
| ClusterOverlap.OverlapExclusiveIff | ChatServer/src/LogicSystem.cpp:216-294 | two logins of a user are in their critical sections at once, on two servers, whichever began first: over every interleaving to their ends at most one session is bound, and Redis names it, if and only if one of them failed or the last to look up whom to kick looked on the server of the other when that had bound its session |
| ClusterOvertake.LoginOvertakes | ChatServer/src/LogicSystem.cpp:219-229 | in any state of a guarded run, after any time, a login that begins while a teardown of its user is in its section makes such a pair |
| ClusterOvertake.TeardownOvertakes | ChatServer/src/Session.cpp:257-268 | so does a teardown that begins while a login of its user for another session is in its section |
| ClusterOvertake.OvertakenIff | ChatServer/src/Session.cpp:289-310 | a login and a teardown of one user are in their sections at once: over every interleaving to their ends Redis names whatever is bound, and the next login on any other server is exclusive, if and only if, at any moment after the login wrote both hashes, the teardown was not about to delete them and `uid_at_ip` was there |
| ClusterOvertake.FailedOvertakenLeavesNone | ChatServer/src/LogicSystem.cpp:259-277 | if the login fails, the user is bound nowhere in the end |
| ClusterOvertake.TeardownsOvertake | ChatServer/src/Session.cpp:257-268 | in any state of a guarded run, after any time, a teardown that begins while another of its user is in its section makes such a pair |
| ClusterOvertake.TeardownsAgree | ChatServer/src/Session.cpp:257-310 | two teardowns of one user, of one session or of two, leave Redis naming whatever is bound, over every interleaving |
| ClusterCleared.ClearedDuringLoginIff | ChatServer/src/Server.cpp:19-28 | in any state of a guarded run the session of a login is cleared, in whatever phase, by a close, a teardown or a heartbeat check, and the login goes on to its end: the tables are in order, and the next login elsewhere after the teardown is exclusive, if and only if the session was already bound at the clear |
| ClusterLostKick.LostKickIff | ChatServer/src/LogicSystem.cpp:250-255 | in any state of a guarded run a kick RPC gets lost and the login goes on to its end: at most one session is bound, and Redis names it, if and only if the peer had nothing bound for the user |
| ClusterSequential.ClearedSessionStaysBound | ChatServer/src/Server.cpp:19-28 | a session cleared before its login stays bound for good: its own teardown empties Redis but not the table, and the next login elsewhere makes a second binding |
| ClusterSequential.SecondLoginStaysBound | ChatServer/src/Session.cpp:15-18 | a session that logs in again as another user keeps its first binding for good: its teardown works for the second user only, and the kick of the first finds a session that is listed no more |
| ClusterLimits.BrokenIsPossible | ChatServer/src/LogicSystem.cpp:216-294 | a run with one broken guard is one run of the transition system |
| ClusterLimits.LostKickBreaks | ChatServer/src/LogicSystem.cpp:250-255 | for any two servers a run in which only the kick RPC is lost ends with two bindings |
| ClusterLimits.LapsedLeaseBreaks | ChatServer/src/LogicSystem.cpp:219-229 | so does one in which only a login outlives its lease |
| ClusterLimits.OvertakenTeardownBreaks | ChatServer/src/Session.cpp:298-307 | so does one in which only a teardown outlives its lease, between its check and its deletes |
| ClusterLimits.UnlistedLoginBreaks | ChatServer/src/UserMgr.cpp:6-10 | so does one in which only a login runs for a session already cleared |
| ClusterLimits.ClearedLoginBreaks | ChatServer/src/Server.cpp:19-28 | so does one in which only a session is cleared during its own login |
| ClusterLimits.SecondLoginBreaks | ChatServer/src/LogicSystem.cpp:292-293 | so does one in which only a session logs in a second time |
| ClusterLimits.TornTickLosesLogin | ChatServer/src/Server.cpp:101-132 | a run whose last step is the write of a check begun before a session was accepted and logged in, and which ends with one user bound and the counter at 0 |
| ClusterLimits.GivenUpLosesUser | ChatServer/src/Session.cpp:263-266 | a run whose last step is a check that does not get the lock of the one user bound, with the same end |
| ChatServer.UserMgr.SetUidSession | ChatServer/src/UserMgr.cpp:6-10 | an existing binding is kept, otherwise the new one is added and nothing else changes |
| ChatServer.UserMgr.GetUidSession | ChatServer/src/UserMgr.cpp:11-20 | null exactly if the uid is not bound |
| ChatServer.UserMgr.RmUidSession | ChatServer/src/UserMgr.cpp:21-35 | unbinds exactly if the bound session has the given id |
| ChatServer.Server.HandleAccept | ChatServer/src/Server.cpp:30-45 | lists the session and binds nobody |
| ChatServer.Server.CheckValid | ChatServer/src/Server.cpp:63-71 | true exactly for listed sessions |
| ChatServer.Server.ClearSession | ChatServer/src/Server.cpp:19-28 | equals the clear step of the transition system |
| ChatServer.Server.KickUser | ChatServer/src/CallData.cpp:230-236 | clears exactly the session the server has bound to the user, if any |
| ChatServer.Server.KickBeforeLogin | ChatServer/src/LogicSystem.cpp:236-255 | equals the kick function here and on the peer, delivered or not, whichever server Redis names |
| ChatServer.Server.BindSession | ChatServer/src/LogicSystem.cpp:291-293 | only this session changes its uid and only this uid its binding |
| ChatServer.Server.EnterLogin | ChatServer/src/LogicSystem.cpp:257-293 | without the count lock or the counter entry nothing at all changes, otherwise the counter of this server is one higher, every other counter as it was, and hashes, session and uid table are written |
| ChatServer.Server.LoginSection | ChatServer/src/LogicSystem.cpp:216-294 | equals the uninterrupted login of the transition system, or its kick alone if it fails, on this server and on the peer; a successful one raises the counter of this server by one and no other, a failed one none |
| ChatServer.LoginRaises | ChatServer/src/LogicSystem.cpp:257-282 | those are the counters of the sub-steps of the login in a row, from any state of the cluster with the counters there were |
| ChatServer.Server.DealExceptionSession | ChatServer/src/Session.cpp:257-310 | equals the uninterrupted teardown, or nothing without the lock |
| ChatServer.Server.EndSession | ChatServer/src/Session.cpp:100-120 | a reading callback that ends tears its session down, or, after an oversize frame, clears it and leaves Redis alone |
| ChatServer.Server.CheckHeartbeats | ChatServer/src/Server.cpp:101-118 | lists exactly the sessions without a message for more than 20 s and counts exactly the others |
| ChatServer.Server.TearDownExpired | ChatServer/src/Server.cpp:133-137 | tearing down, in any order, those whose user lock is obtained equals the teardowns of the check as one step |
| ChatServer.Server.OnTimer | ChatServer/src/Server.cpp:80-140 | a listed session stays if it was heard from within 20 s or its user lock is not obtained, and otherwise goes; the counter is the number of sessions heard from within 20 s; those that stay keep their bindings, and Redis entries that name no session torn down stay; all as the heartbeat step has it |
| ChatServer.CheckIsTick | ChatServer/src/Server.cpp:80-140 | the bindings and the counter it leaves are those of the heartbeat step of the cluster, which touches nothing else |
| ChatServer.TickSpares | ChatServer/src/Server.cpp:133-137 | the step spares the bindings of the sessions it does not tear down and the entries that name them |
| Heartbeat.ListedIff | ChatServer/src/Server.cpp:80-140 | over every run of messages and checks, with messages between the two loops of a check, a session is listed if and only if it was accepted and neither closed nor torn down with its lock since; and a check can tear it down if and only if, when it looked, the session was listed and had not been heard from for more than 20 s |
| Heartbeat.Survives | ChatServer/src/Session.cpp:312-325 | a session that no check finds more than 20 s after it was accepted or last heard from survives every check |
| Heartbeat.SilenceEnds | ChatServer/src/Session.cpp:312-325 | one found silent for longer is gone when the check is over, if it gets the lock when it comes to the session |
| Heartbeat.CheckCounts | ChatServer/src/Server.cpp:101-132 | in every reachable state a check writes the number of sessions listed and accepted or heard from within 20 s when it looks |
| ChatServer.TickIsTeardowns | ChatServer/src/Server.cpp:133-137 | the check for one more expired session is the check without it and then its teardown |
| Frames.SendNode | ChatServer/src/MsgNode.cpp:23-33 | the buffer holds the frame of the narrowed message and a closing zero |
| Frames.ParseAppend | ChatServer/src/Session.cpp:221-245 | later bytes extend the parse from where it stopped |
| Frames.ParseOversize | ChatServer/src/Session.cpp:116-121 | an oversize frame ends the stream's meaning for good |
| Frames.ParseFrame | ChatServer/src/MsgNode.cpp:23-33 | a frame of up to 2048 payload bytes parses to its message, whatever follows |
| Frames.ParseWire | ChatServer/src/MsgNode.cpp:23-33 | frames laid end to end parse to their messages |
| Frames.WirePrefix | ChatServer/src/Session.cpp:50-144 | every part of the wire means a prefix of the messages and no oversize frame; the whole wire means all |
| Frames.OversizeCuts | ChatServer/src/Session.cpp:116-121 | a declared length over 2048 cuts the stream after the messages before it |
| Frames.WriteReadIff | ChatServer/src/Session.cpp:197-216 | a written message is read back unchanged if and only if its payload is at most 2048 bytes |
| Receiver.BytesMean | ChatServer/src/Session.cpp:226-245 | one partial read takes the reader from the parse of the bytes before to the parse of the bytes after |
| Receiver.ChoppingIsIrrelevant | ChatServer/src/Session.cpp:50-144 | however the stream is chopped, the reader has posted the parsed messages, holds the unfinished frame, and has cleared its session exactly if a frame was oversize |
| Receiver.ClearedIsFinal | ChatServer/src/Session.cpp:56-62 | once a session is cleared no later callback posts a message for it |
| Receiver.ClosedIsFinal | ChatServer/src/Session.cpp:129-136 | once reading ended nothing is read or posted |
| Receiver.PostedIsPrefix | ChatServer/src/Session.cpp:50-144 | with kicks and errors anywhere, what is posted is a prefix of what the stream means |
| Receiver.OversizeEndsSession | ChatServer/src/Session.cpp:116-121 | a stream whose next frame after `ms` is oversize posts exactly `ms`, closes and clears the session, and calls nothing else on the server |
| Receiver.CallIff | ChatServer/src/Session.cpp:50-144 | over every run with kicks and errors anywhere the callbacks call the server once when reading ends and never before: `ClearSession` if and only if the bytes taken before any kick or error show an oversize frame, otherwise `DealExceptionSession` |
| Receiver.ClearedEndsInTeardown | ChatServer/src/Session.cpp:56-62 | a session cleared while it reads posts nothing more and is torn down once, when the part under way is complete |
| Receiver.FailEnds | ChatServer/src/Session.cpp:129-136 | an error ends reading; after one whose teardown got its lock, or a kick, the session is not listed |
| SessionReader.Reader.AsyncReadFull | ChatServer/src/Session.cpp:221-225 | the buffer is zeroed and a read of the given length is pending |
| SessionReader.Reader.HandleReadHead | ChatServer/src/Session.cpp:92-144 | equals the header step; it tears down exactly if the session is not listed, and clears exactly if it is and the header declares more than 2048 bytes |
| SessionReader.Reader.HandleReadData | ChatServer/src/Session.cpp:50-91 | equals the body step: posts the message copied out of the buffer, notes the time and turns to the next header, or tears down a session that is not listed |
| SessionReader.Reader.OnReadSome | ChatServer/src/Session.cpp:226-245 | the buffers after a partial read equal the reader of the transition system; it tears down if and only if the bytes complete the part and the session is not listed, clears if and only if they complete a header of a listed session that declares more than 2048 bytes, and notes the time if and only if a message is complete |
| Sender.InvOverRun | ChatServer/src/Session.cpp:146-219 | over every interleaving the queue is the accepted frames not yet sent, the wire their completed part plus what was transferred of the front, and accepted and dropped frames make up those written |
| Sender.SendDiscipline | ChatServer/src/Session.cpp:146-219 | the queue is bounded, a write is pending or under way exactly when it is not empty and never two, the wire is a prefix of the accepted frames and all of them when it is empty |
| Sender.DroppedIff | ChatServer/src/Session.cpp:203-213 | in every reachable state a written frame is dropped if and only if 1000 accepted frames have not gone out completely, and there are never more; otherwise it is accepted |
| Sender.AllAccepted | ChatServer/src/Session.cpp:203-216 | if every write finds fewer than 1000 frames unfinished, every written frame is accepted |
| Sender.FrontIsOldest | ChatServer/src/Session.cpp:159-165 | the frame being sent is the oldest unfinished one |
| Sender.FailedIsSilent | ChatServer/src/Session.cpp:170-176 | after a write error nothing more goes out |
| Sender.SendQueue.Enqueue | ChatServer/src/Session.cpp:197-216 | equals the enqueue step: the frame is queued if and only if fewer than 1000 are, and exactly the frame that found the queue empty must be issued |
| Sender.SendQueue.StartWrite | ChatServer/src/Session.cpp:217-219 | equals the issue step |
| Sender.SendQueue.HandleWrite | ChatServer/src/Session.cpp:146-184 | equals completion or failure: one frame leaves and the next starts, or writing ends and the session is torn down |
| EndToEnd.ConcatIsWire | ChatServer/src/MsgNode.cpp:23-33 | queued frames laid end to end are the wire of their messages |
| EndToEnd.PostsPrefix | ChatServer/src/Session.cpp:50-245 | for every interleaving at the sender and every chopping, kick and error at the receiver, the receiver posts a prefix of the accepted messages |
| EndToEnd.PostsAll | ChatServer/src/Session.cpp:50-245 | once the queue drained and all bytes are read, it has posted all of them and waits for a header |
| EndToEnd.AllWrittenArePosted | ChatServer/src/Session.cpp:50-245 | if fewer than 1000 frames were unfinished at every write and all have gone out without error and been read, everything written has been posted |
| EndToEnd.HandledInOrder | ChatServer/src/LogicSystem.cpp:4-77 | a session has posted the first of the messages its client sent; what the logic thread has taken of them, then what waits, and what the full queue dropped make up exactly these, each in its order |
| LogicQueue.Conservation | ChatServer/src/LogicSystem.cpp:4-77 | taken plus waiting is accepted, accepted and dropped make up what was offered, the bound holds, and the stop branch leaves nothing accepted behind |
| LogicQueue.SessionOrder | ChatServer/src/LogicSystem.cpp:4-77 | messages of one session are taken in the order they were posted, and with those dropped they are all it offered |
| LogicQueue.RoomIff | ChatServer/src/LogicSystem.cpp:7-23 | in every reachable state a message finds room if and only if fewer than 10000 accepted ones have not been taken, and there are never more |
| LogicQueue.CallsExactly | ChatServer/src/LogicSystem.cpp:63-76 | every message taken whose id has a callback is handled once, in the order taken, and no other |
| LogicQueue.LogicSystem.PostMsgToQue | ChatServer/src/LogicSystem.cpp:4-29 | whatever the logic thread takes and other sessions post during the waits: queues at the end if and only if there is room before a wait or after one up to the first timeout, at once if fewer than 10000 wait, and gives up only with 10000; what the others queued stands before it, and nothing queued is lost |
| LogicQueue.LogicSystem.DealOne | ChatServer/src/LogicSystem.cpp:63-76 | the front message is removed, and a callback is called exactly if its id is registered |
| LogicQueue.LogicSystem.DealAll | ChatServer/src/LogicSystem.cpp:45-61 | everything queued is handled, in order |
| UrlCodec.UrlEncode | GateServer/src/HttpConnection.cpp:182-206 | the loop computes the encoding, whose inverse and range are proved below |
| UrlCodec.UrlDecode | GateServer/src/HttpConnection.cpp:207-226 | the loop computes the decoding, whose inverse and failures are proved below |
| UrlCodec.DecodeFailsIff | GateServer/src/HttpConnection.cpp:173-224 | an assertion fires if and only if the scan meets a `%` that two letters or digits do not follow |
| UrlMeaning.DecodeIff | GateServer/src/HttpConnection.cpp:173-226 | a string decodes to `v` if and only if it is spelled by bytes that stand for themselves, `+` for a space, and `%` with two letters or digits for the byte they make, and these are `v` |
| UrlRequests.RequestFailsIff | GateServer/src/HttpConnection.cpp:43-76 | a request stops the server at an assertion if and only if one of the pairs between the `&` behind its first `?` has an `=` and a bad escape in its key or value |
| UrlMeaning.ParamsIff | GateServer/src/HttpConnection.cpp:43-76 | a request leaves a key with a value if and only if the last of the parts between the `&` that has this key gives it that value, or none has it and it had it before; a part without `=` gives nothing |
| UrlMeaning.NoQuery | GateServer/src/HttpConnection.cpp:43-50 | a request without `?` leaves the parameters as they were |
| UrlRequests.SplitOfJoin | GateServer/src/HttpConnection.cpp:57-76 | splitting a query at its `&` is the only way to take it apart into parts without one |
| UrlCodec.BadRequest | GateServer/src/HttpConnection.cpp:43-76 | the request `/?a=%` stops the server at an assertion |
| UrlCodec.HexRoundTrip | GateServer/src/HttpConnection.cpp:168-181 | both hex digits of a byte come back and combine to it |
| UrlCodec.RoundTrip | GateServer/src/HttpConnection.cpp:182-226 | decoding the encoding of any byte string gives it back and fires no assertion |
| UrlCodec.HexCaseIsIrrelevant | GateServer/src/HttpConnection.cpp:173-226 | upper and lower case escapes decode, and fail, alike (section 2.1 of RFC 3986) |
| UrlCodec.EncodeIsCanonical | GateServer/src/HttpConnection.cpp:182-206 | encoder output has only unreserved bytes, `+`, and `%` with two upper-case hex digits for a byte that needs them |
| UrlCodec.CanonicalIsEncoded | GateServer/src/HttpConnection.cpp:182-226 | on such strings the decoder inverts the encoder |
| UrlCodec.EncoderRange | GateServer/src/HttpConnection.cpp:182-206 | and they are exactly what the encoder produces |
| UrlCodec.HttpConnection.Store | GateServer/src/HttpConnection.cpp:58-64 | a pair without `=` changes nothing, otherwise the decoded value replaces that of the decoded key |
| UrlCodec.HttpConnection.PreParseGetParam | GateServer/src/HttpConnection.cpp:43-76 | the erase loop ends and leaves the path and the parameters of the whole query |
| UrlCodec.LastWins | GateServer/src/HttpConnection.cpp:57-66 | of equal keys the last value remains |
| UrlCodec.PairRoundTrip | GateServer/src/HttpConnection.cpp:58-64 | one encoded pair enters as that key and value |
| UrlCodec.PairsRoundTrip | GateServer/src/HttpConnection.cpp:57-75 | so does any list of pairs joined by `&`, in order |
| UrlCodec.QueryRoundTrip | GateServer/src/HttpConnection.cpp:43-76 | a path without `?` and any list of pairs, built into a request and parsed, come back |
| StatusServer.StatusServer.GetChatServer | StatusServer/src/Calldata.cpp:63-112 | nothing for an empty table, otherwise the first server of smallest load as read, each counter at its own moment; a server without an entry is not chosen while one has a counter below INT_MAX; the loads of all but the first are noted in the table |
| StatusServer.ChosenIsLeastLoaded | StatusServer/src/Calldata.cpp:63-112 | in whatever reachable state of the cluster the counter of the chosen server was read, the users bound there were no more than the load read for any server that could have been chosen |
| StatusServer.StatusServer.InsertToken | StatusServer/src/Calldata.cpp:113-119 | replaces the token of this user only |
| StatusServer.StatusServer.Login | StatusServer/src/Calldata.cpp:139-163 | succeeds exactly for the stored token, and tells an unknown user from a wrong token |
| StatusServer.TokenIsLatestIff | StatusServer/src/Calldata.cpp:113-163 | a token is good if and only if it is the last one given to its user |
| RedisPool.StepKeepsInv | ChatServer/src/RedisMgr.cpp:38-131 | borrowing, returning, checking and reconnecting each keep the count of slots and the handle sets apart |
| RedisPool.Conservation | ChatServer/src/RedisMgr.cpp:2-131 | in every reachable state idle, borrowed, inspected and failed slots add up to the size, no handle is in two places, and no deleted one is handed out |
| RedisPool.CheckedIff | ChatServer/src/RedisMgr.cpp:45-85 | over every interleaving a connection that fails its ping is never in any place of the pool again, and one that answers is back at once |
| RedisPool.CheckLooksAtAll | ChatServer/src/RedisMgr.cpp:38-85 | a check that nobody interferes with leaves exactly the idle connections that answer, in their order, and deletes the others |
| RedisPool.RedisConPool.constructor | ChatServer/src/RedisMgr.cpp:2-37 | the failed slots are exactly the attempts that failed |
| RedisPool.RedisConPool.GetRedisCon | ChatServer/src/RedisMgr.cpp:107-131 | lends the connection at the front, as the borrow step, and waits exactly if nothing is idle |
| RedisPool.RedisConPool.ReturnCon | ChatServer/src/RedisMgr.cpp:118-127 | puts the connection at the end, as the return step |
| RedisPool.RedisConPool.Ping | ChatServer/src/RedisMgr.cpp:45-85 | exactly the healthy connections remain and the others are deleted |
| RedisPool.RedisConPool.Reconnect | ChatServer/src/RedisMgr.cpp:86-105 | ends, keeps the pool whole and the connections it has, and adds one for every failed slot until an attempt fails |
| RedisPool.RedisConPool.CheckConnectionTask | ChatServer/src/RedisMgr.cpp:38-106 | exactly the unhealthy connections are deleted, and new ones are made until nothing is missing or an attempt fails |
| CallChain.ChainKeeps | ChatServer/src/ChatGrpcServerImpl.cpp:36-61 | whatever events are skipped: each RPC kind has as many waiters, with the stranded ones, as worker threads, every other live object exactly one outstanding operation, and no object gets two requests, answers twice or is deleted twice |
| CallChain.QuietMeansAnswered | ChatServer/src/CallData.cpp:208-250 | with nothing under way every request has been answered, and its object deleted unless the event of its response was skipped |
| CallChain.StrandedForGood | ChatServer/src/ChatGrpcServerImpl.cpp:55-58 | the object of a skipped event is never answered nor deleted by any later step of any run |
| CallChain.SkipsCostWaiters | ChatServer/src/ChatGrpcServerImpl.cpp:55-58 | over every run the waiters of a kind and the skipped events that hit an unsucceeded object of it add up to the worker threads, so a kind has all its waiters if and only if there was no such event |
| CallChain.WaitersUntilShutdown | ChatServer/src/ChatGrpcServerImpl.cpp:36-61 | until the server is shut down every kind has a waiter for every worker thread, whatever responses fail, and only answered objects are left behind |
| CallChain.ChainCanEnd | ChatServer/src/ChatGrpcServerImpl.cpp:55-58 | a run in which a registration comes back from the shutdown, after which no friend request is taken any more |
| CallChain.AnsweredCanStay | ChatServer/src/ChatGrpcServerImpl.cpp:55-58 | a run without shutdown in which a response does not go out and its object is left behind |
| CallChain.Calldata.constructor | ChatServer/src/CallData.cpp:202-207 | a new object is registered at once |
| CallChain.Calldata.Proceed | ChatServer/src/CallData.cpp:208-250 | registers; or creates one registered successor of its kind and answers; or deletes the object |
| Decimal.AtoiToString | ChatServer/src/LogicSystem.cpp:325-339 | a number written with `to_string` and read with `atoi` is itself, for every integer |
| Decimal.AnotherDigit | ChatServer/src/LogicSystem.cpp:325-339 | `to_string` writes in base ten |
| CacheAside.HashRoundTrip | ChatServer/src/LogicSystem.cpp:323-346 | a row written to a hash and read back is the same row, and the hash is not empty |
| CacheAside.CacheRefinesTable | ChatServer/src/LogicSystem.cpp:299-350 | over all runs a lookup, by uid or by name, finds a user exactly when the table has one and returns its row in every field but possibly the password |
| CacheAside.CachedForGood | ChatServer/src/LogicSystem.cpp:425-476 | a cached hash never changes |
| CacheAside.PwdAfterIff | GateServer/src/MysqlMgr.cpp:190-200 | the password of a user is that of the last update for it, if there was one |
| CacheAside.PasswordOfFirstLookup | GateServer/src/MysqlMgr.cpp:190-200 | a lookup answers for good with the row as it was at the first lookup of that key, which is the table's row if and only if the last password update of that user since, if any, set the same password |
| CacheAside.StalePassword | ChatServer/src/LogicSystem.cpp:323-334 | register, look up, update, look up: the old password is returned |
| CacheAside.UserInfoStore.ReadFields | ChatServer/src/LogicSystem.cpp:312-322 | the loop collects exactly the listed fields that are there |
| CacheAside.UserInfoStore.GetUserInfo | ChatServer/src/ChatGrpcServerImpl.cpp:74-122 | equals the lookup step and its answer |
| Friends.BefriendFriends | ChatServer/src/MysqlMgr.cpp:463-484 | the transaction makes exactly these two users friends of each other |
| Friends.FriendshipIsSymmetric | ChatServer/src/MysqlMgr.cpp:390-485 | whatever statement fails, and whatever becomes of a transaction left open by a failed COMMIT, friendship is symmetric, and an accepted application has made both users friends |
| Friends.FriendsIff | ChatServer/src/MysqlMgr.cpp:390-485 | over all runs the rows of the friend table are exactly those of the transactions that went through, with their remarks, be it long after their COMMIT was reported as failed |
| Friends.ApplicationIff | ChatServer/src/MysqlMgr.cpp:399-471 | over all runs an application is in the table if and only if it was written and the transaction left open on its connection, if any, went through; it has the users it was written for, and is accepted if and only if a transaction that saw it, started by its receiver for its sender, went through |
| Friends.MysqlMgr.AddFriendApply | ChatServer/src/MysqlMgr.cpp:183-216 | adds one open application or nothing; on a connection whose last COMMIT failed it belongs to the transaction left open there |
| Friends.MysqlMgr.AuthAddFriend | ChatServer/src/MysqlMgr.cpp:390-485 | all three statements take effect or none; after a failed COMMIT they may still do so together |
| LockOrder.ProgramDisciplined | ChatServer/src/LogicSystem.cpp:219-293 | posting, login with each of its ends, the stop branch with any number of logins, kick handler, teardown, close, heartbeat check and server choice each ask only for locks above all they hold, and end holding none |
| LockOrder.ProgramTexts | ChatServer/src/Session.cpp:257-310 | the locks of posting, close, teardown and server choice, one by one |
| LockOrder.KickText | ChatServer/src/CallData.cpp:208-250 | and of the kick handler |
| LockOrder.LoginText | ChatServer/src/LogicSystem.cpp:219-294 | and of a login that kicks nobody |
| LockOrder.TimerText | ChatServer/src/Server.cpp:80-140 | and of a check that ends one session |
| LockOrder.NoCircularWait | ChatServer/src/Server.cpp:106-137 | in every reachable state of any number of threads no thread waits for itself through others |
| LockOrder.NoDeadlock | StatusServer/src/Calldata.cpp:63-112 | while a thread is unfinished, some thread can take its next step, or a server can take up a call somebody waits for |

## Where the code needs a word

- The header buffer is created with `HEAD_DATA_LEN`, 2 bytes, and receives `HEAD_TOTAL_LEN`, 4
  (ChatServer/src/Session.cpp:9 and 107); the model gives it 4.
- `Session::Write` takes a 16-bit length and the callers pass a `size_t`: the model narrows as the
  conversion does, and `WriteReadIff` states the effect.
- `AuthAddFriend` returns without `ROLLBACK` when `COMMIT` fails; in the model the transaction is then
  either lost or still open on its connection, to be committed by the next one there or lost with it.
- `uid_at_ip` is read, and `NotifyKickUser` sent, inside the user lock; the peer looks up and clears in
  two steps, and so does the server itself when it is the one named.
- `Next` reports a registration as not ok only if the server was shut down before a request came, and a
  response as not ok if its call is dead; the source skips both alike
  (ChatServer/src/ChatGrpcServerImpl.cpp:55-58).
- The clock of `AcquireLock` is taken not to go back, and a pass of its loop to last at least its sleep
  of 10 ms.
- `on_timer` writes the counter even if `acquireLock` returned nothing (ChatServer/src/Server.cpp:126-131),
  and before the teardowns; the model does both.

## Left out

- Exclusive login when two guards are broken in one run, or with three or more critical sections of one user at once: the conditions are for one broken guard and for pairs, with nothing else that touches the user between the sub-steps of the sections concerned.
- ChatServer2 and ChatServer3: the same logic with older variants of the heartbeat check and the pools.
- Generated protobuf and gRPC code, Boost.Asio, Beast, the MySQL C API and redis++: abstract steps (bytes delivered, RPC delivered, atomic `SET NX EX`, atomic compare-and-delete, begin, commit, rollback).
- `MysqlPool.hpp`: its reconnect loop counts below zero on a counter that is never initialised, so its connections are not conserved.
- JSON, logging, INI files, the HTTP handlers of the gate server, VarifyServer: plumbing.
- Token checks inside the chat server's login and everything of the login before its user lock.
- Liveness of condition variables, closing of sockets, data races on maps read without their mutex: every callback or locked block is one step.
- Convergence of Redis after an oversize close: that path clears local state only, stale entries stay until the next login or teardown of the user.
- Redis connections as something to wait for: a login holds one while it acquires the count lock, so that a pool of one connection could block; LockOrder has locks only.
- The pool after `Close`: connections returned then are deleted at once.
- Columns longer than the 256-byte result buffers and strings with zero bytes in MySQL and in `c_str()`: strings are kept whole.
- ClusterLoad.LoadCounterBound: not for runs with a torn check or a given-up teardown, where it fails; TornCheckIff and GivenUpIff say exactly when.
- The offline notice written to a session before it is kicked, and the closing of its socket.
- ChatServer.Server.LoginSection: no interference within the section; interleavings are the subject of Cluster.
- RedisPool.RedisConPool.CheckConnectionTask: on a pool nobody borrows from meanwhile; interleavings are the subject of Conservation.
- CallChain.Calldata.Proceed: one object at a time; worker threads in parallel are the subject of ChainKeeps.
- LockOrder.ProgramDisciplined: callbacks other than the login, which take one mutex at a time.
- CacheAside.CacheRefinesTable: the eight field reads and the one write of a lookup are one step each; the hash field names are an enumeration.
