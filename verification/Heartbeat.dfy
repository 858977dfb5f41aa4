/** Which sessions of a server its heartbeat checks end, over every run of messages and checks. */
module Heartbeat {
  import opened Wrappers
  import opened Registry

  /** `last` is `_last_heartbeat` of every session object, `listed` the session table, `found` what the
      check under way has found expired and not dealt with yet, `count` what the last check has written
      to `logincount`. */
  datatype State = State(
    now: nat, last: map<SessionId, nat>, listed: set<SessionId>, found: set<SessionId>, count: Option<nat>)

  datatype Step =
    | Wait(d: nat)
    | Accept(x: SessionId)
    | Read(x: SessionId)               // HandleReadData: a message has arrived completely
    | Close(x: SessionId)              // ClearSession by a kick, an error or an oversize frame
    | Look                             // on_timer: the first loop and the write of the counter
    | TearDown(x: SessionId, locked: bool)  // one turn of the second; whether it gets the user lock

  const INIT := State(0, map[], {}, {}, None)

  predicate Enabled(st: State, step: Step) {
    match step
    case Accept(x) => x !in st.last
    case Read(x) => x in st.last
    case Close(x) => x in st.last
    case Look => st.found == {}
    case TearDown(x, _) => x in st.found
    case _ => true
  }

  /** `IsHeartbeatExpired`. */
  predicate Expired(st: State, x: SessionId) {
    x in st.last && st.now - st.last[x] > 20
  }

  function Silent(st: State): set<SessionId> {
    set x | x in st.listed && Expired(st, x)
  }

  function Apply(st: State, step: Step): State
    requires Enabled(st, step)
  {
    match step
    case Wait(d) => st.(now := st.now + d)
    case Accept(x) => st.(last := st.last[x := st.now], listed := st.listed + {x})
    case Read(x) => if x in st.listed then st.(last := st.last[x := st.now]) else st
    case Close(x) => st.(listed := st.listed - {x})
    case Look => st.(found := Silent(st), count := Some(|st.listed - Silent(st)|))
    case TearDown(x, locked) => st.(found := st.found - {x}, listed := if locked then st.listed - {x} else st.listed)
  }

  predicate ValidRun(steps: seq<Step>)
    decreases |steps|, 0
  {
    steps == [] || (ValidRun(Front(steps)) && Enabled(Run(Front(steps)), Last(steps)))
  }

  function Run(steps: seq<Step>): State
    requires ValidRun(steps)
    decreases |steps|, 1
  {
    if steps == [] then INIT else Apply(Run(Front(steps)), Last(steps))
  }

  function Front(steps: seq<Step>): (front: seq<Step>)
    requires steps != []
    ensures |front| == |steps| - 1
  {
    steps[..|steps| - 1]
  }

  function Last(steps: seq<Step>): Step
    requires steps != []
  {
    steps[|steps| - 1]
  }

  // ------------------------------------------------------------------------------------------
  // What the steps say by themselves
  // ------------------------------------------------------------------------------------------

  function Clock(steps: seq<Step>): nat
    decreases |steps|
  {
    if steps == [] then 0 else Clock(Front(steps)) + (if Last(steps).Wait? then Last(steps).d else 0)
  }

  /** When the session was accepted or last heard from. */
  function Heard(steps: seq<Step>, x: SessionId): Option<nat>
    decreases |steps|
  {
    if steps == [] then None
    else if Last(steps) == Accept(x) || Last(steps) == Read(x) then Some(Clock(steps))
    else Heard(Front(steps), x)
  }

  /** A check that looks after these steps finds the session listed and not heard from for more than 20 s. */
  predicate FindsSilent(steps: seq<Step>, x: SessionId) {
    Listed(steps, x) && Heard(steps, x).Some? && Clock(steps) - Heard(steps, x).value > 20
  }

  /** The session was accepted, and neither closed nor torn down since. */
  predicate Listed(steps: seq<Step>, x: SessionId)
    decreases |steps|
  {
    steps != [] &&
    (Last(steps) == Accept(x) ||
     (Listed(Front(steps), x) && Last(steps) != Close(x) && Last(steps) != TearDown(x, true)))
  }

  /** The last check that looked found the session silent, and has not come to it yet. */
  predicate Found(steps: seq<Step>, x: SessionId)
    decreases |steps|
  {
    steps != [] &&
    if Last(steps).Look? then FindsSilent(Front(steps), x)
    else Found(Front(steps), x) && !(Last(steps).TearDown? && Last(steps).x == x)
  }

  /** What the state remembers of `x` is what the steps say. */
  ghost predicate Remembers(steps: seq<Step>, st: State, x: SessionId) {
    && (x in st.listed <==> Listed(steps, x)) && (x in st.found <==> Found(steps, x))
    && (x in st.listed ==> x in st.last && Heard(steps, x) == Some(st.last[x]))
    && (x in st.last <==> Heard(steps, x).Some?)
  }

  lemma HeardStep(steps: seq<Step>, x: SessionId)
    requires steps != [] && ValidRun(steps) && Run(Front(steps)).now == Clock(Front(steps))
    requires Remembers(Front(steps), Run(Front(steps)), x)
    ensures var st := Run(steps);
            && (x in st.last <==> Heard(steps, x).Some?)
            && (x in st.listed ==> x in st.last && Heard(steps, x) == Some(st.last[x]))
  {
  }

  lemma ListedStep(steps: seq<Step>, x: SessionId)
    requires steps != [] && ValidRun(steps) && Remembers(Front(steps), Run(Front(steps)), x)
    ensures x in Run(steps).listed <==> Listed(steps, x)
  {
  }

  lemma FoundStep(steps: seq<Step>, x: SessionId)
    requires steps != [] && ValidRun(steps) && Run(Front(steps)).now == Clock(Front(steps))
    requires Remembers(Front(steps), Run(Front(steps)), x)
    ensures x in Run(steps).found <==> Found(steps, x)
  {
  }

  lemma {:induction false} Remembered(steps: seq<Step>, x: SessionId)
    requires ValidRun(steps)
    ensures Remembers(steps, Run(steps), x) && Run(steps).now == Clock(steps)
    decreases |steps|
  {
    if steps == [] {
    } else {
      Remembered(Front(steps), x);
      HeardStep(steps, x);
      ListedStep(steps, x);
      FoundStep(steps, x);
    }
  }

  /** Over every run a session is listed if and only if it was accepted and has been neither closed nor torn
      down with its lock since; and a check can tear it down if and only if, when the check looked, the
      session was listed and had not been heard from for more than 20 s, and the check has not come to it
      yet. */
  lemma ListedIff(steps: seq<Step>, x: SessionId, locked: bool)
    requires ValidRun(steps)
    ensures x in Run(steps).listed <==> Listed(steps, x)
    ensures Enabled(Run(steps), TearDown(x, locked)) <==> Found(steps, x)
  {
    Remembered(steps, x);
  }

  /** No check of the run looked more than 20 s after the session was accepted or last heard from. */
  predicate NeverSilent(steps: seq<Step>, x: SessionId)
    decreases |steps|
  {
    steps == [] || (NeverSilent(Front(steps), x) && (Last(steps).Look? ==> !FindsSilent(Front(steps), x)))
  }

  lemma {:induction false} NeverFound(steps: seq<Step>, x: SessionId)
    requires ValidRun(steps) && NeverSilent(steps, x)
    ensures !Found(steps, x) && TearDown(x, true) !in steps
    decreases |steps|
  {
    if steps == [] {
    } else {
      NeverFound(Front(steps), x);
      Remembered(Front(steps), x);
      assert steps == Front(steps) + [Last(steps)];
    }
  }

  lemma {:induction false} StaysListed(steps: seq<Step>, x: SessionId)
    requires ValidRun(steps) && Accept(x) in steps && Close(x) !in steps && TearDown(x, true) !in steps
    ensures Listed(steps, x)
    decreases |steps|
  {
    assert steps == Front(steps) + [Last(steps)];
    if Last(steps) != Accept(x) {
      StaysListed(Front(steps), x);
    }
  }

  /** A session that sends a message at least every 20 s survives every check. */
  lemma Survives(steps: seq<Step>, x: SessionId)
    requires ValidRun(steps) && Accept(x) in steps && Close(x) !in steps && NeverSilent(steps, x)
    ensures x in Run(steps).listed
  {
    NeverFound(steps, x);
    StaysListed(steps, x);
    Remembered(steps, x);
  }

  /** Listed no more, or found and still to be torn down, if no teardown of `x` goes without its lock. */
  lemma {:induction false} GoesOn(steps: seq<Step>, n: nat, x: SessionId)
    requires n < |steps| && ValidRun(steps) && steps[n] == Look && FindsSilent(steps[..n], x)
    requires TearDown(x, false) !in steps[n..]
    ensures Found(steps, x) || !Listed(steps, x)
    decreases |steps|
  {
    var front := Front(steps);
    assert steps[n..] == steps[n..|steps| - 1] + [Last(steps)];
    if n == |steps| - 1 {
      assert steps[..n] == front;
    } else {
      assert front[n..] == steps[n..|steps| - 1] && front[..n] == steps[..n];
      GoesOn(front, n, x);
      Remembered(front, x);
      HeardBefore(front, n, x);
    }
  }

  /** Accepted once, never again. */
  lemma {:induction false} HeardBefore(steps: seq<Step>, n: nat, x: SessionId)
    requires n <= |steps| && ValidRun(steps) && Heard(steps[..n], x).Some?
    ensures Heard(steps, x).Some?
    decreases |steps|
  {
    if n < |steps| {
      assert Front(steps)[..n] == steps[..n];
      HeardBefore(Front(steps), n, x);
    } else {
      assert steps[..n] == steps;
    }
  }

  /** A longer silence ends it: if a check finds the session silent and gets its lock when it comes to it, the
      session is gone when the check is over. */
  lemma SilenceEnds(steps: seq<Step>, n: nat, x: SessionId)
    requires n < |steps| && ValidRun(steps) && steps[n] == Look && FindsSilent(steps[..n], x)
    requires TearDown(x, false) !in steps[n..] && Run(steps).found == {}
    ensures x !in Run(steps).listed
  {
    GoesOn(steps, n, x);
    Remembered(steps, x);
  }

  /** A check writes the number of the listed sessions heard from within 20 s when it looks. */
  lemma CheckCounts(steps: seq<Step>, recent: set<SessionId>)
    requires ValidRun(steps) && Enabled(Run(steps), Look)
    requires forall x :: x in recent <==>
               Listed(steps, x) && Heard(steps, x).Some? && Clock(steps) - Heard(steps, x).value <= 20
    ensures Apply(Run(steps), Look).count == Some(|recent|)
  {
    var st := Run(steps);
    forall x
      ensures x in recent <==> x in st.listed - Silent(st)
    {
      Remembered(steps, x);
    }
    assert recent == st.listed - Silent(st);
  }
}
