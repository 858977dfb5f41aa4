/** What the counter of a server says exactly: when it is there, that no login's increment is lost, and
    what a check that takes its time writes. */
module ClusterCounter {
  import opened Registry
  import opened Cluster
  import opened ClusterSafety

  // ------------------------------------------------------------------------------------------
  // When there is an entry
  // ------------------------------------------------------------------------------------------

  /** Whether `s` has an entry after the steps, if it had one before: it is made by the start of the server
      and by its checks, and taken away by an orderly stop. */
  predicate EntryAfter(steps: seq<Step>, s: ServerName, before: bool)
    decreases |steps|
  {
    if steps == [] then before
    else
      var now := match steps[0]
                 case Boot(s') => before || s' == s
                 case Tick(s', _, _) => before || s' == s
                 case TickWrite(s') => before || s' == s
                 case Stop(s', graceful) => before && !(s' == s && graceful)
                 case _ => before;
      EntryAfter(steps[1..], s, now)
  }

  /** A login that has read its counter has an entry to write to. */
  ghost predicate ReadHasEntry(st: State) {
    forall t :: t in st.procs && st.procs[t].Login? && st.procs[t].ph.CountRead? ==> st.procs[t].s in st.count
  }

  lemma EntryStep(st: State, step: Step, s: ServerName)
    requires ReadHasEntry(st) && Enabled(st, step)
    ensures ReadHasEntry(Apply(st, step))
    ensures s in Apply(st, step).count <==> EntryAfter([step], s, s in st.count)
  {
    assert [step][1..] == [];
  }

  /** In every run a server has an entry if and only if it was started or checked and has not stopped in good
      order since. */
  lemma {:induction false} EntryIff(st: State, steps: seq<Step>, s: ServerName)
    requires ReadHasEntry(st) && Possible(st, steps)
    ensures s in Run(st, steps).count <==> EntryAfter(steps, s, s in st.count)
    decreases |steps|
  {
    if steps == [] {
    } else {
      EntryStep(st, steps[0], s);
      assert [steps[0]][1..] == [];
      EntryIff(Apply(st, steps[0]), steps[1..], s);
    }
  }

  // ------------------------------------------------------------------------------------------
  // Increments
  // ------------------------------------------------------------------------------------------

  /** The step writes the counter of `s` other than for a login. */
  predicate Resets(step: Step, s: ServerName) {
    match step
    case Tick(s', _, _) => s' == s
    case TickWrite(s') => s' == s
    case Stop(s', _) => s' == s
    case Boot(s') => s' == s
    case _ => false
  }

  /** The step is the write of a login on `s`. */
  predicate Raises(st: State, step: Step, s: ServerName) {
    step.LoginNext? && IsLogin(st, step.tok) && st.procs[step.tok].s == s && st.procs[step.tok].ph.CountRead?
  }

  function Logins(st: State, steps: seq<Step>, s: ServerName): nat
    requires Possible(st, steps)
    decreases |steps|
  {
    if steps == [] then 0
    else (if Raises(st, steps[0], s) then 1 else 0) + Logins(Apply(st, steps[0]), steps[1..], s)
  }

  /** Nobody on `s` holds a value that is out of date. */
  ghost predicate ReadIsCount(st: State, s: ServerName) {
    s in st.count &&
    forall t :: t in st.procs && st.procs[t].Login? && st.procs[t].s == s && st.procs[t].ph.CountRead? ==>
      st.procs[t].ph.v == st.count[s]
  }

  lemma RaiseStep(st: State, tok: string, s: ServerName)
    requires LocksOk(st) && ReadIsCount(st, s) && Raises(st, LoginNext(tok), s)
    ensures var st' := LoginApply(st, tok); ReadIsCount(st', s) && st'.count[s] == st.count[s] + 1
  {
    var st' := LoginApply(st, tok);
    forall t | t in st'.procs && st'.procs[t].Login? && st'.procs[t].s == s
      ensures t == tok
    {
      assert SameLogic(st.procs[t], st.procs[tok]);
    }
  }

  lemma OtherLoginStep(st: State, tok: string, s: ServerName)
    requires ReadIsCount(st, s) && IsLogin(st, tok) && !Raises(st, LoginNext(tok), s)
    ensures var st' := LoginApply(st, tok); ReadIsCount(st', s) && st'.count[s] == st.count[s]
  {
  }

  lemma LeavesCounter(st: State, step: Step, s: ServerName)
    requires ReadIsCount(st, s) && Enabled(st, step) && !Resets(step, s) && !step.LoginNext?
    ensures ReadIsCount(Apply(st, step), s) && Apply(st, step).count[s] == st.count[s]
  {
  }

  lemma CounterStep(st: State, step: Step, s: ServerName)
    requires LocksOk(st) && ReadIsCount(st, s) && Enabled(st, step) && !Resets(step, s)
    ensures var st' := Apply(st, step);
            ReadIsCount(st', s) && st'.count[s] == st.count[s] + (if Raises(st, step, s) then 1 else 0)
  {
    if step.LoginNext? {
      if Raises(st, step, s) {
        RaiseStep(st, step.tok, s);
      } else {
        OtherLoginStep(st, step.tok, s);
      }
    } else {
      LeavesCounter(st, step, s);
    }
  }

  /** No increment is lost: from any state in which no login of `s` is between its read and its write, until a
      check, a stop or a start of `s` writes the counter, it grows by exactly one for each login that
      writes it, whatever else goes on. */
  lemma {:induction false} NoIncrementLost(st: State, steps: seq<Step>, s: ServerName)
    requires Inv(st) && ReadIsCount(st, s) && ValidRun(st, steps)
    requires forall step :: step in steps ==> !Resets(step, s)
    ensures s in Run(st, steps).count && Run(st, steps).count[s] == st.count[s] + Logins(st, steps, s)
    decreases |steps|
  {
    if steps == [] {
    } else {
      CounterStep(st, steps[0], s);
      StepKeepsInv(st, steps[0]);
      NoIncrementLost(Apply(st, steps[0]), steps[1..], s);
    }
  }

  /** The counter of a server that has just been started is the number of the logins that have written it. */
  lemma CountsFromStart(st: State, steps: seq<Step>, s: ServerName)
    requires Inv(st) && Enabled(st, Boot(s)) && ValidRun(Apply(st, Boot(s)), steps)
    requires forall step :: step in steps ==> !Resets(step, s)
    ensures var st' := Run(Apply(st, Boot(s)), steps);
            s in st'.count && st'.count[s] == Logins(Apply(st, Boot(s)), steps, s)
  {
    StepKeepsInv(st, Boot(s));
    NoIncrementLost(Apply(st, Boot(s)), steps, s);
  }

  // ------------------------------------------------------------------------------------------
  // A check that takes its time
  // ------------------------------------------------------------------------------------------

  /** The step begins or ends a check of `s`, or stops it. */
  predicate TouchesCheck(step: Step, s: ServerName) {
    match step
    case TickSnapshot(s', _) => s' == s
    case TickWrite(s') => s' == s
    case Stop(s', _) => s' == s
    case _ => false
  }

  lemma CheckStep(st: State, step: Step, s: ServerName)
    requires Enabled(st, step) && s in st.checks && !TouchesCheck(step, s)
    ensures s in Apply(st, step).checks && Apply(st, step).checks[s] == st.checks[s]
  {
  }

  lemma {:induction false} CheckKept(st: State, steps: seq<Step>, s: ServerName)
    requires Possible(st, steps) && s in st.checks && forall step :: step in steps ==> !TouchesCheck(step, s)
    ensures s in Run(st, steps).checks && Run(st, steps).checks[s] == st.checks[s]
    decreases |steps|
  {
    if steps == [] {
    } else {
      CheckStep(st, steps[0], s);
      CheckKept(Apply(st, steps[0]), steps[1..], s);
    }
  }

  /** A check writes the number of the sessions it found listed and not expired, whatever has happened since. */
  lemma TornCheckWrites(st: State, s: ServerName, expired: set<SessionId>, steps: seq<Step>)
    requires Enabled(st, TickSnapshot(s, expired)) && Possible(Apply(st, TickSnapshot(s, expired)), steps)
    requires forall step :: step in steps ==> !TouchesCheck(step, s)
    requires Enabled(Run(Apply(st, TickSnapshot(s, expired)), steps), TickWrite(s))
    ensures var st' := Apply(Run(Apply(st, TickSnapshot(s, expired)), steps), TickWrite(s));
            s in st'.count && st'.count[s] == |st.w.local[s].sessions - expired|
  {
    CheckKept(Apply(st, TickSnapshot(s, expired)), steps, s);
  }
}
