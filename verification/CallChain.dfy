/** The chain of call objects behind the asynchronous RPC server of a chat server: every object takes
    one request, creates its successor, answers, and deletes itself. */
module CallChain {

  datatype Kind = AddFriend | AuthFriend | TextChat | KickUser

  /** `CREATE` is left inside the constructor. */
  datatype Status = Process | Finish

  datatype Obj = Obj(kind: Kind, status: Status)

  /** A worker thread inside `Proceed`: before and after it has created the successor. */
  datatype Work = Entered | Spawned

  type Id = nat

  /** A completed operation of an object. For a registration, `ok` says that a request was matched; it is
      false if the server was shut down before. For a response, `ok` says that it goes out; it is false
      if the call is dead. */
  datatype Event = Event(id: Id, ok: bool)

  /** `registered`: objects waiting for a request. `finishing`: objects whose response is being sent.
      `cq`: completed events not fetched yet. `working`: events a worker thread has fetched. `down`: the
      server is shutting down. `requested`, `responded`, `deleted`: which objects ever got a request,
      answered, died. `cancelled`: objects whose registration came back without a request. `stranded`:
      objects whose event was skipped. */
  datatype State = State(
    workers: nat,
    objs: map<Id, Obj>,
    registered: set<Id>,
    finishing: set<Id>,
    cq: seq<Event>,
    working: map<Id, Work>,
    down: bool,
    requested: set<Id>,
    responded: set<Id>,
    deleted: set<Id>,
    cancelled: set<Id>,
    stranded: set<Id>,
    next: Id)

  datatype Step =
    | StartWorker
    | Shutdown             // the server is shut down
    | Request(id: Id)      // a request is matched with a waiting object
    | Cancel(id: Id)       // the shutdown reaches a waiting object
    | Sent(id: Id, ok: bool)  // a response has left, or its call is dead
    | Fetch                // Next() hands the first event to a worker thread, which skips it if not ok
    | Spawn(id: Id)        // PROCESS: new Calldata
    | Respond(id: Id)      // PROCESS: Finish()
    | Delete(id: Id)       // FINISH: delete this

  const INIT := State(0, map[], {}, {}, [], map[], false, {}, {}, {}, {}, {}, 0)

  predicate Enabled(st: State, step: Step) {
    match step
    case StartWorker => true
    case Shutdown => true
    case Request(id) => id in st.registered && !st.down
    case Cancel(id) => id in st.registered && st.down
    case Sent(id, ok) => id in st.finishing
    case Fetch => st.cq != []
    case Spawn(id) => id in st.working && st.working[id] == Entered && id in st.objs && st.objs[id].status == Process
    case Respond(id) => id in st.working && st.working[id] == Spawned && id in st.objs
    case Delete(id) => id in st.working && st.working[id] == Entered && id in st.objs && st.objs[id].status == Finish
  }

  /** A new object registers itself at once. */
  function Create(st: State, kind: Kind): State {
    st.(objs := st.objs[st.next := Obj(kind, Process)], registered := st.registered + {st.next}, next := st.next + 1)
  }

  function Apply(st: State, step: Step): State
    requires Enabled(st, step)
  {
    match step
    case StartWorker =>
      Create(Create(Create(Create(st.(workers := st.workers + 1), AddFriend), AuthFriend), TextChat), KickUser)
    case Shutdown => st.(down := true)
    case Request(id) =>
      st.(registered := st.registered - {id}, cq := st.cq + [Event(id, true)], requested := st.requested + {id})
    case Cancel(id) =>
      st.(registered := st.registered - {id}, cq := st.cq + [Event(id, false)], cancelled := st.cancelled + {id})
    case Sent(id, ok) => st.(finishing := st.finishing - {id}, cq := st.cq + [Event(id, ok)])
    case Fetch =>
      if st.cq[0].ok then st.(cq := st.cq[1..], working := st.working[st.cq[0].id := Entered])
      else st.(cq := st.cq[1..], stranded := st.stranded + {st.cq[0].id})
    case Spawn(id) => Create(st.(working := st.working[id := Spawned]), st.objs[id].kind)
    case Respond(id) =>
      st.(objs := st.objs[id := st.objs[id].(status := Finish)], finishing := st.finishing + {id},
          working := st.working - {id}, responded := st.responded + {id})
    case Delete(id) =>
      st.(objs := st.objs - {id}, working := st.working - {id}, deleted := st.deleted + {id})
  }

  predicate ValidRun(st: State, steps: seq<Step>)
    decreases |steps|
  {
    steps == [] || (Enabled(st, steps[0]) && ValidRun(Apply(st, steps[0]), steps[1..]))
  }

  function Run(st: State, steps: seq<Step>): State
    requires ValidRun(st, steps)
    decreases |steps|
  {
    if steps == [] then st else Run(Apply(st, steps[0]), steps[1..])
  }

  // ------------------------------------------------------------------------------------------
  // The invariant
  // ------------------------------------------------------------------------------------------

  /** The objects of a kind that have not been succeeded yet. */
  function Unsucceeded(st: State, kind: Kind): set<Id> {
    set id | id in st.objs && st.objs[id].kind == kind && st.objs[id].status == Process
             && !(id in st.working && st.working[id] == Spawned)
  }

  /** Those that still can be: they wait for a request, or their request waits for a worker. */
  function Waiters(st: State, kind: Kind): set<Id> {
    Unsucceeded(st, kind) - st.stranded
  }

  function InQueue(cq: seq<Event>, id: Id): nat {
    if cq == [] then 0 else (if cq[0].id == id then 1 else 0) + InQueue(cq[1..], id)
  }

  /** In how many places an object's outstanding operation is. */
  function Places(st: State, id: Id): nat {
    (if id in st.registered then 1 else 0) + (if id in st.finishing then 1 else 0) +
    InQueue(st.cq, id) + (if id in st.working then 1 else 0)
  }

  ghost predicate ObjOk(st: State, id: Id) {
    && (id in st.objs <==> id < st.next && id !in st.deleted)
    && Places(st, id) == (if id in st.objs && id !in st.stranded then 1 else 0)
    && (id in st.stranded ==> id in st.objs)
    && (id in st.registered ==> id in st.objs && st.objs[id].status == Process)
    && (id in st.finishing ==> id in st.objs && st.objs[id].status == Finish)
    && (id in st.working && st.working[id] == Spawned ==> id in st.objs && st.objs[id].status == Process)
    && (id in st.requested <==> (id in st.objs && id !in st.registered && id !in st.cancelled) || id in st.deleted)
    && (id in st.responded <==> (id in st.objs && st.objs[id].status == Finish) || id in st.deleted)
    && (id in st.deleted ==> id < st.next)
    && (id in st.cancelled ==>
          id in st.objs && st.objs[id].status == Process && id !in st.registered && id !in st.working && st.down)
    && (id in st.stranded && st.objs[id].status == Process ==> id in st.cancelled)
  }

  /** The event of an object without a successor is ok unless it was cancelled. */
  predicate EventOk(st: State, e: Event) {
    e.id in st.objs && (st.objs[e.id].status == Process ==> (e.ok <==> e.id !in st.cancelled))
  }

  ghost predicate EventsOk(st: State) {
    forall i :: 0 <= i < |st.cq| ==> EventOk(st, st.cq[i])
  }

  ghost predicate Inv(st: State) {
    && (forall id :: ObjOk(st, id)) && EventsOk(st)
    && (forall kind :: |Unsucceeded(st, kind)| == st.workers)
  }

  lemma {:induction false} InQueuePlus(cq: seq<Event>, x: Event, id: Id)
    ensures InQueue(cq + [x], id) == InQueue(cq, id) + (if x.id == id then 1 else 0)
  {
    if cq == [] {
      assert cq + [x] == [x];
    } else {
      InQueuePlus(cq[1..], x, id);
      assert (cq + [x])[1..] == cq[1..] + [x];
    }
  }

  lemma {:induction false} InQueueHas(cq: seq<Event>, i: nat)
    requires i < |cq|
    ensures InQueue(cq, cq[i].id) > 0
  {
    if i > 0 {
      InQueueHas(cq[1..], i - 1);
    }
  }

  /** The events of other objects. */
  lemma OtherEvents(st: State, id: Id)
    requires Inv(st) && InQueue(st.cq, id) == 0
    ensures forall i :: 0 <= i < |st.cq| ==> EventOk(st, st.cq[i]) && st.cq[i].id != id
  {
    forall i | 0 <= i < |st.cq|
      ensures st.cq[i].id != id
    {
      InQueueHas(st.cq, i);
    }
  }

  lemma CreateOk(st: State, kind: Kind, id: Id)
    requires ObjOk(st, id) && ObjOk(st, st.next)
    ensures ObjOk(Create(st, kind), id)
  {
  }

  lemma CreateUnsucceeded(st: State, kind: Kind, k: Kind)
    requires st.next !in st.objs && (st.next in st.working ==> st.working[st.next] != Spawned)
    ensures Unsucceeded(Create(st, kind), k) == Unsucceeded(st, k) + (if k == kind then {st.next} else {})
  {
  }

  lemma CreateWaits(st: State, kind: Kind, k: Kind)
    requires st.next !in st.objs && (st.next in st.working ==> st.working[st.next] != Spawned)
    ensures |Unsucceeded(Create(st, kind), k)| == |Unsucceeded(st, k)| + (if k == kind then 1 else 0)
  {
    CreateUnsucceeded(st, kind, k);
    assert st.next !in Unsucceeded(st, k);
  }

  /** Creating an object adds one waiter of its kind. */
  lemma CreateFacts(st: State, kind: Kind)
    requires forall id :: ObjOk(st, id)
    ensures forall id :: ObjOk(Create(st, kind), id)
    ensures forall k :: |Unsucceeded(Create(st, kind), k)| == |Unsucceeded(st, k)| + (if k == kind then 1 else 0)
    ensures Create(st, kind).workers == st.workers && (EventsOk(st) ==> EventsOk(Create(st, kind)))
  {
    forall id
      ensures ObjOk(Create(st, kind), id)
    {
      CreateOk(st, kind, id);
    }
    assert ObjOk(st, st.next);
    forall k
      ensures |Unsucceeded(Create(st, kind), k)| == |Unsucceeded(st, k)| + (if k == kind then 1 else 0)
    {
      CreateWaits(st, kind, k);
    }
  }

  lemma FourCreated(s0: State)
    requires (forall id :: ObjOk(s0, id)) && EventsOk(s0)
    ensures var s4 := Create(Create(Create(Create(s0, AddFriend), AuthFriend), TextChat), KickUser);
            && (forall id :: ObjOk(s4, id)) && EventsOk(s4) && s4.workers == s0.workers
            && (forall k :: |Unsucceeded(s4, k)| == |Unsucceeded(s0, k)| + 1)
  {
    CreateFacts(s0, AddFriend);
    var s1 := Create(s0, AddFriend);
    CreateFacts(s1, AuthFriend);
    var s2 := Create(s1, AuthFriend);
    CreateFacts(s2, TextChat);
    var s3 := Create(s2, TextChat);
    CreateFacts(s3, KickUser);
  }

  lemma StartKeepsInv(st: State)
    requires Inv(st)
    ensures Inv(Apply(st, StartWorker))
  {
    var s0 := st.(workers := st.workers + 1);
    forall id
      ensures ObjOk(s0, id)
    {
      assert ObjOk(st, id);
    }
    forall k
      ensures |Unsucceeded(s0, k)| == st.workers
    {
      assert Unsucceeded(s0, k) == Unsucceeded(st, k);
    }
    FourCreated(s0);
  }

  /** An event is added for an object that was registered or finishing. */
  lemma EventKeepsInv(st: State, step: Step)
    requires Inv(st) && Enabled(st, step) && (step.Request? || step.Cancel? || step.Sent?)
    ensures Inv(Apply(st, step))
  {
    var st' := Apply(st, step);
    forall id
      ensures ObjOk(st', id)
    {
      assert ObjOk(st, id);
      InQueuePlus(st.cq, st'.cq[|st.cq|], id);
    }
    assert ObjOk(st, step.id);
    OtherEvents(st, step.id);
    forall kind
      ensures Unsucceeded(st', kind) == Unsucceeded(st, kind)
    {
    }
  }

  lemma FetchKeepsInv(st: State)
    requires Inv(st) && Enabled(st, Fetch)
    ensures Inv(Apply(st, Fetch))
  {
    var st' := Apply(st, Fetch);
    assert ObjOk(st, st.cq[0].id) && EventOk(st, st.cq[0]);
    forall id
      ensures ObjOk(st', id)
    {
      assert ObjOk(st, id);
    }
    forall i | 0 <= i < |st'.cq|
      ensures EventOk(st', st'.cq[i])
    {
      assert EventOk(st, st.cq[i + 1]);
    }
    forall kind
      ensures Unsucceeded(st', kind) == Unsucceeded(st, kind)
    {
    }
  }

  lemma ShutdownKeepsInv(st: State)
    requires Inv(st)
    ensures Inv(Apply(st, Shutdown))
  {
    forall id
      ensures ObjOk(Apply(st, Shutdown), id)
    {
      assert ObjOk(st, id);
    }
    assert forall kind :: Unsucceeded(Apply(st, Shutdown), kind) == Unsucceeded(st, kind);
  }

  lemma SpawnKeepsInv(st: State, id: Id)
    requires Inv(st) && Enabled(st, Spawn(id))
    ensures Inv(Apply(st, Spawn(id)))
  {
    var mid := st.(working := st.working[id := Spawned]);
    forall x
      ensures ObjOk(mid, x)
    {
      assert ObjOk(st, x);
    }
    forall kind
      ensures Unsucceeded(mid, kind) ==
              if kind == st.objs[id].kind then Unsucceeded(st, kind) - {id} else Unsucceeded(st, kind)
    {
    }
    assert id in Unsucceeded(st, st.objs[id].kind);
    assert ObjOk(st, id) && ObjOk(st, st.next);
    CreateFacts(mid, st.objs[id].kind);
  }

  lemma RespondKeepsInv(st: State, id: Id)
    requires Inv(st) && Enabled(st, Respond(id))
    ensures Inv(Apply(st, Respond(id)))
  {
    var st' := Apply(st, Respond(id));
    assert ObjOk(st, id);
    OtherEvents(st, id);
    forall x
      ensures ObjOk(st', x)
    {
      assert ObjOk(st, x);
    }
    forall kind
      ensures Unsucceeded(st', kind) == Unsucceeded(st, kind)
    {
    }
  }

  lemma DeleteKeepsInv(st: State, id: Id)
    requires Inv(st) && Enabled(st, Delete(id))
    ensures Inv(Apply(st, Delete(id)))
  {
    var st' := Apply(st, Delete(id));
    assert ObjOk(st, id);
    OtherEvents(st, id);
    forall x
      ensures ObjOk(st', x)
    {
      assert ObjOk(st, x);
    }
    forall kind
      ensures Unsucceeded(st', kind) == Unsucceeded(st, kind)
    {
    }
  }

  lemma StepKeepsInv(st: State, step: Step)
    requires Inv(st) && Enabled(st, step)
    ensures Inv(Apply(st, step))
  {
    match step
    case StartWorker => StartKeepsInv(st);
    case Shutdown => ShutdownKeepsInv(st);
    case Request(id) => EventKeepsInv(st, step);
    case Cancel(id) => EventKeepsInv(st, step);
    case Sent(id, ok) => EventKeepsInv(st, step);
    case Fetch => FetchKeepsInv(st);
    case Spawn(id) => SpawnKeepsInv(st, id);
    case Respond(id) => RespondKeepsInv(st, id);
    case Delete(id) => DeleteKeepsInv(st, id);
  }

  lemma {:induction false} InvOverRun(st: State, steps: seq<Step>)
    requires Inv(st) && ValidRun(st, steps)
    ensures Inv(Run(st, steps))
    decreases |steps|
  {
    if steps == [] {
    } else {
      StepKeepsInv(st, steps[0]);
      InvOverRun(Apply(st, steps[0]), steps[1..]);
    }
  }

  lemma Reachable(steps: seq<Step>)
    requires ValidRun(INIT, steps)
    ensures Inv(Run(INIT, steps))
  {
    assert forall k :: Unsucceeded(INIT, k) == {};
    InvOverRun(INIT, steps);
  }

  lemma Parts(whole: set<Id>, part: set<Id>)
    ensures |whole| == |whole - part| + |whole * part|
  {
    assert whole == (whole - part) + (whole * part);
  }

  /** In every reachable state, whatever events were skipped: each kind has as many waiters, together
      with those that are stranded, as there are worker threads; every live object that is not stranded
      has exactly one outstanding operation and no other object has any; an object has been deleted only
      after its request got its response; and no object is ever given a second request, answers twice or
      is deleted twice. */
  lemma ChainKeeps(steps: seq<Step>, kind: Kind, id: Id)
    requires ValidRun(INIT, steps)
    ensures var st := Run(INIT, steps);
            && |Waiters(st, kind)| + |Lost(st, kind)| == st.workers
            && Places(st, id) == (if id in st.objs && id !in st.stranded then 1 else 0)
            && (id in st.deleted ==> id !in st.objs && id in st.responded && id in st.requested)
            && (id in st.responded ==> id in st.requested)
            && (Enabled(st, Request(id)) ==> id !in st.requested)
            && (Enabled(st, Respond(id)) ==> id !in st.responded)
            && (Enabled(st, Delete(id)) ==> id !in st.deleted)
  {
    Reachable(steps);
    var st := Run(INIT, steps);
    OnceEach(st, id);
    Parts(Unsucceeded(st, kind), st.stranded);
  }

  lemma OnceEach(st: State, id: Id)
    requires ObjOk(st, id)
    ensures Places(st, id) == (if id in st.objs && id !in st.stranded then 1 else 0)
    ensures id in st.deleted ==> id !in st.objs && id in st.responded && id in st.requested
    ensures id in st.responded ==> id in st.requested
    ensures Enabled(st, Request(id)) ==> id !in st.requested
    ensures Enabled(st, Respond(id)) ==> id !in st.responded
    ensures Enabled(st, Delete(id)) ==> id !in st.deleted
  {
  }

  /** When nothing is under way every request has been answered; its object is gone, or the event of its
      response was skipped. */
  lemma QuietMeansAnswered(steps: seq<Step>, id: Id)
    requires ValidRun(INIT, steps)
    requires var st := Run(INIT, steps); st.cq == [] && st.working == map[] && st.finishing == {}
    ensures var st := Run(INIT, steps);
            && (id in st.requested <==> id in st.responded)
            && (id in st.requested <==>
                id in st.deleted || (id in st.stranded && id in st.objs && st.objs[id].status == Finish))
  {
    Reachable(steps);
    assert ObjOk(Run(INIT, steps), id);
  }

  // ------------------------------------------------------------------------------------------
  // Skipped events
  // ------------------------------------------------------------------------------------------

  /** The step skips an event of an object of `kind` that has no successor yet. */
  predicate SkipsWaiter(st: State, step: Step, kind: Kind) {
    && step.Fetch? && st.cq != [] && !st.cq[0].ok
    && st.cq[0].id in st.objs && st.objs[st.cq[0].id] == Obj(kind, Process)
  }

  /** How many steps of the run do. */
  function Skipped(st: State, steps: seq<Step>, kind: Kind): nat
    requires ValidRun(st, steps)
    decreases |steps|
  {
    if steps == [] then 0
    else (if SkipsWaiter(st, steps[0], kind) then 1 else 0) + Skipped(Apply(st, steps[0]), steps[1..], kind)
  }

  /** No step touches a stranded object. */
  lemma StrandedStays(st: State, step: Step, id: Id)
    requires Inv(st) && Enabled(st, step) && id in st.stranded
    ensures var st' := Apply(st, step);
            && id in st'.stranded && id in st.objs && id in st'.objs && st'.objs[id] == st.objs[id]
            && (id in st'.working <==> id in st.working)
            && (id in st'.responded <==> id in st.responded) && id !in st'.deleted
            && step !in {Respond(id), Delete(id), Spawn(id), Sent(id, true), Sent(id, false), Request(id), Cancel(id)}
  {
    assert ObjOk(st, id);
  }

  /** A stranded object stays as it is for good: it is neither answered nor deleted by any later step. */
  lemma {:induction false} StrandedForGood(st: State, steps: seq<Step>, id: Id)
    requires Inv(st) && ValidRun(st, steps) && id in st.stranded && id in st.objs
    ensures var st' := Run(st, steps);
            && id in st'.stranded && id in st'.objs && st'.objs[id] == st.objs[id] && Places(st', id) == 0
            && (id in st'.responded <==> id in st.responded) && id !in st'.deleted
    ensures Respond(id) !in steps && Delete(id) !in steps
    decreases |steps|
  {
    assert ObjOk(st, id);
    if steps == [] {
    } else {
      StrandedStays(st, steps[0], id);
      StepKeepsInv(st, steps[0]);
      StrandedForGood(Apply(st, steps[0]), steps[1..], id);
      assert steps == [steps[0]] + steps[1..];
    }
  }

  /** The objects of a kind that are stranded before they were succeeded. */
  function Lost(st: State, kind: Kind): set<Id> {
    Unsucceeded(st, kind) * st.stranded
  }

  /** A skip changes neither the objects nor who works on them. */
  lemma LostBySkip(st: State, kind: Kind, id: Id)
    requires ObjOk(st, id) && st.cq != [] && !st.cq[0].ok
    ensures id in Lost(Apply(st, Fetch), kind) <==>
            id in Lost(st, kind) || (SkipsWaiter(st, Fetch, kind) && id == st.cq[0].id)
  {
  }

  /** Any other step strands nobody. */
  lemma LostOtherwise(st: State, step: Step, kind: Kind, id: Id)
    requires Inv(st) && Enabled(st, step) && (step.Fetch? ==> st.cq[0].ok)
    ensures id in Lost(Apply(st, step), kind) <==> id in Lost(st, kind)
  {
    if id in st.stranded {
      assert ObjOk(st, id);
      StrandedStays(st, step, id);
    }
  }

  lemma LostAfter(st: State, step: Step, kind: Kind, id: Id)
    requires Inv(st) && Enabled(st, step)
    ensures id in Lost(Apply(st, step), kind) <==>
            id in Lost(st, kind) || (SkipsWaiter(st, step, kind) && id == st.cq[0].id)
  {
    if step.Fetch? && !st.cq[0].ok {
      assert ObjOk(st, id);
      LostBySkip(st, kind, id);
    } else {
      LostOtherwise(st, step, kind, id);
    }
  }

  lemma SkipStrands(st: State, step: Step, kind: Kind)
    requires Inv(st) && Enabled(st, step)
    ensures |Lost(Apply(st, step), kind)| == |Lost(st, kind)| + (if SkipsWaiter(st, step, kind) then 1 else 0)
  {
    var was, now := Lost(st, kind), Lost(Apply(st, step), kind);
    forall id
      ensures id in now <==> id in was || (SkipsWaiter(st, step, kind) && id == st.cq[0].id)
    {
      LostAfter(st, step, kind, id);
    }
    if SkipsWaiter(st, step, kind) {
      assert ObjOk(st, st.cq[0].id);
      assert now == was + {st.cq[0].id};
    } else {
      assert now == was;
    }
  }

  lemma {:induction false} SkippedCounts(st: State, steps: seq<Step>, kind: Kind)
    requires Inv(st) && ValidRun(st, steps)
    ensures var st' := Run(st, steps);
            |Lost(st', kind)| == |Lost(st, kind)| + Skipped(st, steps, kind)
    decreases |steps|
  {
    if steps == [] {
    } else {
      SkipStrands(st, steps[0], kind);
      StepKeepsInv(st, steps[0]);
      SkippedCounts(Apply(st, steps[0]), steps[1..], kind);
    }
  }

  /** Every skipped event of an object that was to be succeeded costs its chain one waiter, for good; so
      a kind has a waiter for every worker thread if and only if no such event of it was skipped. */
  lemma SkipsCostWaiters(steps: seq<Step>, kind: Kind)
    requires ValidRun(INIT, steps)
    ensures var st := Run(INIT, steps);
            && |Waiters(st, kind)| + Skipped(INIT, steps, kind) == st.workers
            && (|Waiters(st, kind)| == st.workers <==> Skipped(INIT, steps, kind) == 0)
  {
    assert forall k :: Unsucceeded(INIT, k) == {};
    Reachable(steps);
    SkippedCounts(INIT, steps, kind);
    Parts(Unsucceeded(Run(INIT, steps), kind), Run(INIT, steps).stranded);
  }

  /** It takes a shutdown: until then each kind has a waiter for every worker thread, and an object whose
      event was skipped has been answered. */
  lemma WaitersUntilShutdown(steps: seq<Step>, kind: Kind, id: Id)
    requires ValidRun(INIT, steps) && !Run(INIT, steps).down
    ensures var st := Run(INIT, steps);
            |Waiters(st, kind)| == st.workers && (id in st.stranded ==> id in st.responded)
  {
    Reachable(steps);
    var st := Run(INIT, steps);
    forall x
      ensures x in st.stranded ==> x in st.objs && st.objs[x].status == Finish
    {
      assert ObjOk(st, x);
    }
    assert ObjOk(st, id);
    assert Waiters(st, kind) == Unsucceeded(st, kind);
  }

  lemma RunOn(st: State, step: Step, steps: seq<Step>, end: State)
    requires Enabled(st, step) && ValidRun(Apply(st, step), steps) && Run(Apply(st, step), steps) == end
    ensures ValidRun(st, [step] + steps) && Run(st, [step] + steps) == end
  {
    assert ([step] + steps)[1..] == steps;
  }

  /** One worker thread, a shutdown, the registration of the object for friend requests comes back not ok:
      no friend request will be taken any more. */
  lemma ChainCanEnd()
    ensures var steps := [StartWorker] + ([Shutdown] + ([Cancel(0)] + ([Fetch] + [])));
            && ValidRun(INIT, steps) && Run(INIT, steps).workers == 1 && Waiters(Run(INIT, steps), AddFriend) == {}
            && 0 in Run(INIT, steps).stranded
  {
    var s1 := Apply(INIT, StartWorker);
    var s2 := Apply(s1, Shutdown);
    var s3 := Apply(s2, Cancel(0));
    var s4 := Apply(s3, Fetch);
    RunOn(s3, Fetch, [], s4);
    RunOn(s2, Cancel(0), [Fetch] + [], s4);
    RunOn(s1, Shutdown, [Cancel(0)] + ([Fetch] + []), s4);
    RunOn(INIT, StartWorker, [Shutdown] + ([Cancel(0)] + ([Fetch] + [])), s4);
    assert forall id :: id in s4.objs && s4.objs[id].kind == AddFriend ==> id == 0;
    assert forall id :: id !in Waiters(s4, AddFriend);
  }

  lemma LoseResponse(st: State, id: Id) returns (steps: seq<Step>, end: State)
    requires id in st.finishing && id in st.responded && id in st.objs && st.cq == [] && !st.down
    ensures ValidRun(st, steps) && Run(st, steps) == end && Stays(end, id)
  {
    var s1 := Apply(st, Sent(id, false));
    end := Apply(s1, Fetch);
    RunOn(s1, Fetch, [], end);
    steps := [Sent(id, false)] + ([Fetch] + []);
    RunOn(st, Sent(id, false), [Fetch] + [], end);
  }

  /** The object has answered, and the event of its response was skipped without a shutdown. */
  predicate Stays(st: State, id: Id) {
    !st.down && id in st.responded && id in st.stranded && id in st.objs
  }

  lemma AnswerAndLose(st: State, id: Id) returns (steps: seq<Step>, end: State)
    requires id in st.objs && st.objs[id].status == Process && id in st.working && st.working[id] == Entered
    requires st.cq == [] && !st.down && id < st.next
    ensures ValidRun(st, steps) && Run(st, steps) == end && Stays(end, id)
  {
    var s1 := Apply(st, Spawn(id));
    var lose: seq<Step>;
    lose, end := LoseResponse(Apply(s1, Respond(id)), id);
    RunOn(s1, Respond(id), lose, end);
    steps := [Spawn(id)] + ([Respond(id)] + lose);
    RunOn(st, Spawn(id), [Respond(id)] + lose, end);
  }

  /** One worker thread, one friend request; its response does not go out because the call is dead: the
      object has answered and is never deleted. */
  lemma AnsweredCanStay()
    ensures exists steps :: ValidRun(INIT, steps) && Stays(Run(INIT, steps), 0)
  {
    var s1 := Apply(INIT, StartWorker);
    var s2 := Apply(s1, Request(0));
    var rest, end := AnswerAndLose(Apply(s2, Fetch), 0);
    RunOn(s2, Fetch, rest, end);
    RunOn(s1, Request(0), [Fetch] + rest, end);
    RunOn(INIT, StartWorker, [Request(0)] + ([Fetch] + rest), end);
  }

  // ------------------------------------------------------------------------------------------
  // One object
  // ------------------------------------------------------------------------------------------

  datatype CallStatus = CREATE | PROCESS | FINISH

  /** The completion queue's side: who waits for a request, who has a response on the way, who lives. */
  class Service {
    var registered: set<Calldata>
    var finishing: set<Calldata>
    var live: set<Calldata>

    constructor ()
      ensures registered == {} && finishing == {} && live == {}
    {
      registered, finishing, live := {}, {}, {};
    }
  }

  class Calldata {
    const service: Service
    const kind: Kind
    var status: CallStatus

    constructor (service: Service, kind: Kind)
      modifies service
      ensures this.service == service && this.kind == kind && status == PROCESS
      ensures service.registered == old(service.registered) + {this}
      ensures service.live == old(service.live) + {this} && service.finishing == old(service.finishing)
      decreases 1
    {
      this.service, this.kind, status := service, kind, CREATE;
      new;
      service.live := service.live + {this};
      Proceed();
    }

    /** `Proceed`: register; or create the successor and answer; or delete the object. */
    method Proceed()
      modifies this, service
      ensures old(status) == CREATE ==>
                status == PROCESS && service.registered == old(service.registered) + {this} &&
                service.live == old(service.live) && service.finishing == old(service.finishing)
      ensures old(status) == PROCESS ==>
                status == FINISH && service.finishing == old(service.finishing) + {this} &&
                exists next: Calldata :: fresh(next) && next.kind == kind && next.service == service &&
                  next.status == PROCESS && service.registered == old(service.registered) + {next} &&
                  service.live == old(service.live) + {next}
      ensures old(status) == FINISH ==>
                status == FINISH && service.live == old(service.live) - {this} &&
                service.registered == old(service.registered) && service.finishing == old(service.finishing)
      decreases if status == PROCESS then 2 else 0
    {
      if status == CREATE {
        status := PROCESS;
        service.registered := service.registered + {this};
      } else if status == PROCESS {
        var next := new Calldata(service, kind);
        status := FINISH;
        service.finishing := service.finishing + {this};
      } else {
        service.live := service.live - {this};
      }
    }
  }
}
