/** The lease lock of `DistLock`: keys `lock:*` in Redis, taken with `SET key uuid NX EX ttl`
    and given back by a script that compares the stored uuid before it deletes.
    Times are milliseconds. */
module LeaseLock {

  datatype Lease = Lease(token: string, expires: nat)

  const LOCK_TIMEOUT: nat := 10_000
  const ACQUIRE_TIME: nat := 5_000
  const RETRY_DELAY: nat := 10

  /** The key exists in Redis at time `now`: it was set and its expiry has not passed. */
  predicate Held<K(==)>(table: map<K, Lease>, key: K, now: nat) {
    key in table && now < table[key].expires
  }

  /** `SET key token NX EX ttl`, on a key that does not exist. */
  function SetNx<K(==)>(table: map<K, Lease>, key: K, token: string, now: nat, ttl: nat): map<K, Lease>
    requires !Held(table, key, now)
  {
    table[key := Lease(token, now + ttl)]
  }

  /** The release script: `if GET key == token then DEL key`. */
  function CompareDelete<K(==)>(table: map<K, Lease>, key: K, token: string, now: nat): map<K, Lease> {
    if Held(table, key, now) && table[key].token == token then table - {key} else table
  }

  /** The readings of the clock in one acquisition: before the loop, at its tests, and when the i-th
      `SET` reaches Redis. */
  datatype Clock = Clock(start: nat, test: nat -> nat, write: nat -> nat)

  /** The `lock:*` keys as the two operations of `DistLock` change them. */
  class DistLock {
    var table: map<string, Lease>

    /** `others(i)` are the keys as the i-th attempt finds them, whatever other callers did. */
    method AcquireLock(key: string, uuid: string, clock: Clock, others: nat -> map<string, Lease>)
      returns (identifier: string, ghost tries: nat)
      requires uuid != "" && ClockRuns(clock)
      modifies this
      ensures identifier == uuid || identifier == ""
      ensures identifier == uuid <==> exists i: nat :: Attempted(clock, i) && !Taken(others, key, clock, i)
      ensures forall i: nat :: i < tries ==> Attempted(clock, i)
      ensures identifier == "" ==>
                !Attempted(clock, tries) && table == if tries == 0 then old(table) else others(tries - 1)
      ensures identifier == uuid ==>
                && tries > 0 && FirstFree(others, key, clock, tries - 1)
                && table == SetNx(others(tries - 1), key, uuid, clock.write(tries - 1), LOCK_TIMEOUT)
    {
      var endTime := clock.start + ACQUIRE_TIME;
      var i: nat := 0;
      while clock.test(i) < endTime
        invariant table == if i == 0 then old(table) else others(i - 1)
        invariant forall j: nat :: j < i ==> Attempted(clock, j) && Taken(others, key, clock, j)
        decreases if clock.test(i) < endTime then endTime - clock.test(i) else 0
      {
        assert Attempted(clock, i);
        table := others(i);
        if !Held(table, key, clock.write(i)) {
          table := SetNx(table, key, uuid, clock.write(i), LOCK_TIMEOUT);
          return uuid, i + 1;
        }
        assert Taken(others, key, clock, i);
        i := i + 1;
      }
      AttemptsEnd(clock, i);
      return "", i;
    }

    method ReleaseLock(key: string, uuid: string, now: nat) returns (released: bool)
      modifies this
      ensures table == CompareDelete(old(table), key, uuid, now)
      ensures table == if released then old(table) - {key} else old(table)
      ensures released <==> Held(old(table), key, now) && old(table)[key].token == uuid
    {
      released := Held(table, key, now) && table[key].token == uuid;
      if released {
        table := table - {key};
      }
    }
  }

  /** The i-th pass of the retry loop is entered. */
  predicate Attempted(clock: Clock, i: nat) {
    clock.test(i) < clock.start + ACQUIRE_TIME
  }

  /** Attempts go on for 5 s, and a lease lasts 10 s. */
  lemma Times<K>(clock: Clock, i: nat, table: map<K, Lease>, key: K, token: string, now: nat)
    requires !Held(table, key, now)
    ensures Attempted(clock, i) <==> clock.test(i) < clock.start + 5_000
    ensures SetNx(table, key, token, now, LOCK_TIMEOUT) == table[key := Lease(token, now + 10_000)]
  {
  }

  /** The i-th attempt finds the key taken. */
  predicate Taken(others: nat -> map<string, Lease>, key: string, clock: Clock, i: nat) {
    Held(others(i), key, clock.write(i))
  }

  /** The i-th attempt is the first that finds the key free. */
  ghost predicate FirstFree(others: nat -> map<string, Lease>, key: string, clock: Clock, i: nat) {
    !Taken(others, key, clock, i) && forall j: nat :: j < i ==> Taken(others, key, clock, j)
  }

  /** The clock does not go back, and every pass of the loop that finds the key taken sleeps. */
  ghost predicate ClockRuns(clock: Clock) {
    forall i: nat :: clock.test(i) <= clock.write(i) && clock.write(i) + RETRY_DELAY <= clock.test(i + 1)
  }

  /** Once the deadline has passed there is no further attempt. */
  lemma AttemptsEnd(clock: Clock, i: nat)
    requires ClockRuns(clock) && !Attempted(clock, i)
    ensures forall j: nat :: Attempted(clock, j) ==> j < i
  {
    forall j: nat | Attempted(clock, j)
      ensures j < i
    {
      if i <= j {
        TestsRise(clock, i, j);
      }
    }
  }

  lemma {:induction false} TestsRise(clock: Clock, a: nat, b: nat)
    requires ClockRuns(clock) && a <= b
    ensures clock.test(a) <= clock.test(b)
    decreases b - a
  {
    if a == b {
    } else {
      TestsRise(clock, a, b - 1);
      assert clock.write(b - 1) + RETRY_DELAY <= clock.test(b - 1 + 1);
    }
  }
}

/** All timed runs of any number of callers of the lease lock. */
module LeaseRuns {
  import opened LeaseLock

  /** A caller that was told it holds `key`; its lease ends at `until`. */
  datatype Claim = Claim(key: string, until: nat)

  /** `claims` holds the callers that acquired and have not released, by their uuid;
      `used` the uuids ever drawn. */
  datatype State = State(now: nat, table: map<string, Lease>, claims: map<string, Claim>, used: set<string>)

  datatype Step =
    | Pass(d: nat)
    | Acquire(key: string, token: string, ttl: nat)
    | Release(key: string, token: string)

  const INIT := State(0, map[], map[], {})

  predicate Enabled(st: State, step: Step) {
    step.Acquire? ==> step.token != "" && step.token !in st.used
  }

  function Apply(st: State, step: Step): State {
    match step
    case Pass(d) => st.(now := st.now + d)
    case Acquire(key, token, ttl) =>
      if Held(st.table, key, st.now) then st.(used := st.used + {token})
      else st.(table := SetNx(st.table, key, token, st.now, ttl),
               claims := st.claims[token := Claim(key, st.now + ttl)],
               used := st.used + {token})
    case Release(key, token) =>
      st.(table := CompareDelete(st.table, key, token, st.now),
          claims := if token in st.claims && st.claims[token].key == key then st.claims - {token} else st.claims)
  }

  predicate ValidRun(st: State, steps: seq<Step>)
    decreases |steps|
  {
    steps == [] || (Enabled(st, steps[0]) && ValidRun(Apply(st, steps[0]), steps[1..]))
  }

  function Run(st: State, steps: seq<Step>): State
    decreases |steps|
  {
    if steps == [] then st else Run(Apply(st, steps[0]), steps[1..])
  }

  ghost predicate Inv(st: State) {
    && (forall k :: k in st.table ==> st.table[k].token in st.used)
    && "" !in st.used
    && (forall t :: t in st.claims ==> t in st.used)
    && (forall t :: t in st.claims && st.now < st.claims[t].until ==>
          var c := st.claims[t]; c.key in st.table && st.table[c.key] == Lease(t, c.until))
    && (forall k :: Held(st.table, k, st.now) ==>
          var l := st.table[k]; l.token in st.claims && st.claims[l.token] == Claim(k, l.expires))
  }

  lemma StepKeepsInv(st: State, step: Step)
    requires Inv(st) && Enabled(st, step)
    ensures Inv(Apply(st, step))
  {
  }

  lemma {:induction false} InvOverRun(st: State, steps: seq<Step>)
    requires Inv(st) && ValidRun(st, steps)
    ensures Inv(Run(st, steps))
    decreases |steps|
  {
    if steps == [] {
    } else {
      StepKeepsInv(st, steps[0]);
      InvOverRun(Apply(st, steps[0]), steps[1..]);
    }
  }

  /** Mutual exclusion: in every reachable state, two callers that acquired the same key, have not
      released it and are within their lease are one caller. */
  lemma MutualExclusion(steps: seq<Step>, t1: string, t2: string)
    requires ValidRun(INIT, steps)
    requires var st := Run(INIT, steps);
             && t1 in st.claims && t2 in st.claims && st.claims[t1].key == st.claims[t2].key
             && st.now < st.claims[t1].until && st.now < st.claims[t2].until
    ensures t1 == t2
  {
    InvOverRun(INIT, steps);
  }

  /** A caller within its lease loses its key to a release exactly when that release is its own:
      a release that comes after the lease lapsed, or with the empty identifier of a failed
      acquisition, never takes the key from another caller. */
  lemma OnlyOwnReleaseFrees(steps: seq<Step>, key: string, token: string, other: string)
    requires ValidRun(INIT, steps)
    requires var st := Run(INIT, steps); other in st.claims && st.now < st.claims[other].until
    ensures var st := Run(INIT, steps);
            var held := st.claims[other];
            var st' := Apply(st, Release(key, token));
            (held.key in st'.table && st'.table[held.key] == Lease(other, held.until) && other in st'.claims)
            <==> !(token == other && key == held.key)
  {
    InvOverRun(INIT, steps);
  }

  /** An acquisition succeeds exactly when no caller within its lease holds the key. */
  lemma AcquireSucceedsIff(steps: seq<Step>, key: string, token: string, ttl: nat)
    requires ValidRun(INIT, steps) && Enabled(Run(INIT, steps), Acquire(key, token, ttl))
    ensures var st := Run(INIT, steps);
            token in Apply(st, Acquire(key, token, ttl)).claims
            <==> forall t :: t in st.claims && st.claims[t].key == key ==> st.claims[t].until <= st.now
  {
    InvOverRun(INIT, steps);
  }
}
