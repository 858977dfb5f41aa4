/** `std::to_string` and `atoi` on integers. */
module Decimal {
  /** `std::to_string` for a non-negative number. */
  function Digits(n: nat): string
    decreases n
  {
    if n < 10 then [DigitChar(n)] else Digits(n / 10) + [DigitChar(n % 10)]
  }

  function DigitChar(d: nat): char
    requires d < 10
  {
    '0' + d as char
  }

  function ToString(n: int): string {
    if n < 0 then ['-'] + Digits(-n) else Digits(n)
  }

  predicate IsDigit(c: char) { '0' <= c <= '9' }

  predicate IsSpace(c: char) { c == ' ' || '\t' <= c <= '\r' }

  /** The digits at the front of `s`, appended to the number `acc`. */
  function Number(s: string, acc: nat): nat
    decreases |s|
  {
    if s == [] || !IsDigit(s[0]) then acc else Number(s[1..], acc * 10 + (s[0] as nat - '0' as nat))
  }

  /** `atoi`: skips white space, takes a sign, reads digits until something else. */
  function Atoi(s: string): int
    decreases |s|
  {
    if s == [] then 0
    else if IsSpace(s[0]) then Atoi(s[1..])
    else if s[0] == '-' then -(Number(s[1..], 0) as int)
    else if s[0] == '+' then Number(s[1..], 0)
    else Number(s, 0)
  }

  lemma {:induction false} NumberLast(s: string, c: char, acc: nat)
    requires (forall i :: 0 <= i < |s| ==> IsDigit(s[i])) && IsDigit(c)
    ensures Number(s + [c], acc) == Number(s, acc) * 10 + (c as nat - '0' as nat)
    decreases |s|
  {
    if s == [] {
      assert s + [c] == [c] && [c][1..] == [];
    } else {
      assert (s + [c])[1..] == s[1..] + [c];
      NumberLast(s[1..], c, acc * 10 + (s[0] as nat - '0' as nat));
    }
  }

  lemma {:induction false} DigitsRead(n: nat)
    ensures Digits(n) != [] && (forall i :: 0 <= i < |Digits(n)| ==> IsDigit(Digits(n)[i]))
    ensures Number(Digits(n), 0) == n
    decreases n
  {
    if n < 10 {
      assert Digits(n)[1..] == [];
    } else {
      DigitsRead(n / 10);
      NumberLast(Digits(n / 10), DigitChar(n % 10), 0);
    }
  }

  /** `to_string` writes in base ten: a further digit at the end is ten times the number and the digit. */
  lemma AnotherDigit(n: nat, d: nat)
    requires n > 0 && d < 10
    ensures ToString(10 * n + d) == ToString(n) + [DigitChar(d)]
    ensures ToString(d) == ["0123456789"[d]]
  {
  }

  /** `atoi(to_string(n))` is `n`. */
  lemma AtoiToString(n: int)
    ensures Atoi(ToString(n)) == n
  {
    DigitsRead(if n < 0 then -n else n);
    if n < 0 {
      assert ToString(n)[1..] == Digits(-n);
    }
  }
}

/** Looking up users through a Redis cache that is filled on a miss and never invalidated. */
module CacheAside {
  import opened Wrappers
  import opened Decimal

  /** A row of the `user` table. */
  datatype Row = Row(
    uid: int, name: string, email: string, nick: string, pwd: string, desc: string, icon: string, sex: int)

  /** The Redis hashes `ubaseinfo_<uid>` and `user_name_<name>`. */
  datatype Key = ByUid(uid: int) | ByName(name: string)

  /** The fields of such a hash. */
  datatype Field = UidField | NameField | EmailField | NickField | PwdField | DescField | IconField | SexField

  type Hash = map<Field, string>

  const FIELDS: seq<Field> :=
    [UidField, NameField, EmailField, NickField, PwdField, DescField, IconField, SexField]

  /** What `hmset` stores. */
  function ToHash(r: Row): Hash {
    map[UidField := ToString(r.uid), NameField := r.name, NickField := r.nick, PwdField := r.pwd,
        DescField := r.desc, IconField := r.icon, SexField := ToString(r.sex), EmailField := r.email]
  }

  /** `redis_ret[field]` on an `unordered_map`: the empty string if it is missing. */
  function Get(h: Hash, f: Field): string {
    if f in h then h[f] else ""
  }

  function FromHash(h: Hash): Row {
    Row(Atoi(Get(h, UidField)), Get(h, NameField), Get(h, EmailField), Get(h, NickField), Get(h, PwdField),
        Get(h, DescField), Get(h, IconField), Atoi(Get(h, SexField)))
  }

  lemma HashRoundTrip(r: Row)
    ensures FromHash(ToHash(r)) == r && ToHash(r) != map[]
  {
    AtoiToString(r.uid);
    AtoiToString(r.sex);
    assert UidField in ToHash(r);
  }

  /** `rows` is the `user` table; `cache` the hashes that are not empty. */
  datatype State = State(rows: seq<Row>, cache: map<Key, Hash>)

  datatype Step =
    | Lookup(key: Key)
    | Register(row: Row)
    | UpdatePwd(name: string, pwd: string)

  const INIT := State([], map[])

  predicate Matches(r: Row, key: Key) {
    match key
    case ByUid(uid) => r.uid == uid
    case ByName(name) => r.name == name
  }

  /** `select * from user where ...`: the fetch loop keeps the last row. */
  function Select(rows: seq<Row>, key: Key): Option<Row> {
    if rows == [] then None
    else if Matches(rows[|rows| - 1], key) then Some(rows[|rows| - 1])
    else Select(rows[..|rows| - 1], key)
  }

  /** `update user set password = ? where name = ?` */
  function WithPwd(rows: seq<Row>, name: string, pwd: string): (out: seq<Row>)
    ensures |out| == |rows|
    ensures forall i :: 0 <= i < |rows| ==> out[i] == if rows[i].name == name then rows[i].(pwd := pwd) else rows[i]
  {
    seq(|rows|, i requires 0 <= i < |rows| => if rows[i].name == name then rows[i].(pwd := pwd) else rows[i])
  }

  /** The table keeps uids and names unique. */
  predicate Enabled(st: State, step: Step) {
    step.Register? ==>
      forall i :: 0 <= i < |st.rows| ==> st.rows[i].uid != step.row.uid && st.rows[i].name != step.row.name
  }

  /** What a lookup answers. */
  function Answer(st: State, key: Key): Option<Row> {
    if key in st.cache then Some(FromHash(st.cache[key])) else Select(st.rows, key)
  }

  function Apply(st: State, step: Step): State {
    match step
    case Lookup(key) =>
      if key !in st.cache && Select(st.rows, key).Some?
      then st.(cache := st.cache[key := ToHash(Select(st.rows, key).value)])
      else st
    case Register(row) => st.(rows := st.rows + [row])
    case UpdatePwd(name, pwd) => st.(rows := WithPwd(st.rows, name, pwd))
  }

  predicate ValidRun(st: State, steps: seq<Step>)
    decreases |steps|
  {
    steps == [] || (Enabled(st, steps[0]) && ValidRun(Apply(st, steps[0]), steps[1..]))
  }

  function Run(st: State, steps: seq<Step>): State
    decreases |steps|
  {
    if steps == [] then st else Run(Apply(st, steps[0]), steps[1..])
  }

  // ------------------------------------------------------------------------------------------
  // Refinement of the table
  // ------------------------------------------------------------------------------------------

  /** Equal in every field except the password. */
  predicate SameButPwd(a: Row, b: Row) {
    a.(pwd := b.pwd) == b
  }

  ghost predicate TableOk(rows: seq<Row>) {
    forall i, j :: 0 <= i < j < |rows| ==> rows[i].uid != rows[j].uid && rows[i].name != rows[j].name
  }

  ghost predicate Inv(st: State) {
    && TableOk(st.rows)
    && forall key :: key in st.cache ==>
         exists i, pwd ::
           0 <= i < |st.rows| && Matches(st.rows[i], key) && st.cache[key] == ToHash(st.rows[i].(pwd := pwd))
  }

  lemma {:induction false} SelectIs(rows: seq<Row>, key: Key, i: nat)
    requires TableOk(rows) && i < |rows| && Matches(rows[i], key)
    ensures Select(rows, key) == Some(rows[i])
  {
    if i < |rows| - 1 {
      assert !Matches(rows[|rows| - 1], key);
      SelectIs(rows[..|rows| - 1], key, i);
    }
  }

  lemma {:induction false} SelectFinds(rows: seq<Row>, key: Key)
    ensures Select(rows, key).None? <==> forall i :: 0 <= i < |rows| ==> !Matches(rows[i], key)
    ensures Select(rows, key).Some? ==>
              exists i :: 0 <= i < |rows| && rows[i] == Select(rows, key).value && Matches(rows[i], key)
  {
    if rows == [] {
    } else {
      SelectFinds(rows[..|rows| - 1], key);
    }
  }

  lemma LookupKeepsInv(st: State, key: Key)
    requires Inv(st)
    ensures Inv(Apply(st, Lookup(key)))
  {
    SelectFinds(st.rows, key);
    var found := Select(st.rows, key);
    if found.Some? {
      var i :| 0 <= i < |st.rows| && st.rows[i] == found.value && Matches(st.rows[i], key);
      assert st.rows[i].(pwd := st.rows[i].pwd) == found.value;
    }
  }

  lemma StepKeepsInv(st: State, step: Step)
    requires Inv(st) && Enabled(st, step)
    ensures Inv(Apply(st, step))
  {
    if step.Lookup? {
      LookupKeepsInv(st, step.key);
    } else {
      var st' := Apply(st, step);
      forall key | key in st'.cache
        ensures exists i, pwd :: 0 <= i < |st'.rows| && Matches(st'.rows[i], key) &&
                  st'.cache[key] == ToHash(st'.rows[i].(pwd := pwd))
      {
        var i, pwd :|
          0 <= i < |st.rows| && Matches(st.rows[i], key) && st.cache[key] == ToHash(st.rows[i].(pwd := pwd));
        assert st'.rows[i].(pwd := pwd) == st.rows[i].(pwd := pwd);
      }
    }
  }

  lemma {:induction false} InvOverRun(st: State, steps: seq<Step>)
    requires Inv(st) && ValidRun(st, steps)
    ensures Inv(Run(st, steps))
    decreases |steps|
  {
    if steps == [] {
    } else {
      StepKeepsInv(st, steps[0]);
      InvOverRun(Apply(st, steps[0]), steps[1..]);
    }
  }

  lemma AnswerMatches(st: State, key: Key)
    requires Inv(st)
    ensures Answer(st, key).Some? <==> Select(st.rows, key).Some?
    ensures Answer(st, key).Some? ==> SameButPwd(Answer(st, key).value, Select(st.rows, key).value)
  {
    if key in st.cache {
      var i, pwd :| 0 <= i < |st.rows| && Matches(st.rows[i], key) && st.cache[key] == ToHash(st.rows[i].(pwd := pwd));
      HashRoundTrip(st.rows[i].(pwd := pwd));
      SelectIs(st.rows, key, i);
    }
  }

  /** In every reachable state a lookup, by uid or by name, finds a user exactly when the table has
      one, and returns its row in every field except possibly the password. */
  lemma CacheRefinesTable(steps: seq<Step>, key: Key)
    requires ValidRun(INIT, steps)
    ensures var st := Run(INIT, steps);
            && (Answer(st, key).Some? <==> Select(st.rows, key).Some?)
            && (Answer(st, key).Some? ==> SameButPwd(Answer(st, key).value, Select(st.rows, key).value))
  {
    InvOverRun(INIT, steps);
    AnswerMatches(Run(INIT, steps), key);
  }

  lemma {:induction false} CachedForGood(st: State, steps: seq<Step>, key: Key)
    requires ValidRun(st, steps) && key in st.cache
    ensures key in Run(st, steps).cache && Run(st, steps).cache[key] == st.cache[key]
    decreases |steps|
  {
    if steps == [] {
    } else {
      CachedForGood(Apply(st, steps[0]), steps[1..], key);
    }
  }

  /** The step sets the password of the user `name`. */
  predicate SetsPwd(step: Step, name: string) {
    step.UpdatePwd? && step.name == name
  }

  /** The password after the steps: that of the last update of this user, if there is one. */
  function PwdAfter(steps: seq<Step>, name: string, pwd: string): string {
    if steps == [] then pwd
    else
      var last := steps[|steps| - 1];
      if SetsPwd(last, name) then last.pwd else PwdAfter(steps[..|steps| - 1], name, pwd)
  }

  lemma {:induction false} PwdAfterIff(steps: seq<Step>, name: string, pwd: string, p: string)
    ensures PwdAfter(steps, name, pwd) == p <==>
            if exists k :: 0 <= k < |steps| && SetsPwd(steps[k], name)
            then exists k :: 0 <= k < |steps| && SetsPwd(steps[k], name) && steps[k].pwd == p &&
                             forall j :: k < j < |steps| ==> !SetsPwd(steps[j], name)
            else pwd == p
  {
    if steps == [] {
    } else {
      PwdAfterIff(steps[..|steps| - 1], name, pwd, p);
      assert forall k :: 0 <= k < |steps| - 1 ==> steps[..|steps| - 1][k] == steps[k];
    }
  }

  lemma RunLast(st: State, steps: seq<Step>)
    requires steps != [] && ValidRun(st, steps)
    ensures var n := |steps| - 1;
            && ValidRun(st, steps[..n]) && Enabled(Run(st, steps[..n]), steps[n])
            && Run(st, steps) == Apply(Run(st, steps[..n]), steps[n])
    decreases |steps|
  {
    var n := |steps| - 1;
    if n == 0 {
      assert steps[1..] == [] && steps[..0] == [];
    } else {
      RunLast(Apply(st, steps[0]), steps[1..]);
      assert steps[1..][..n - 1] == steps[..n][1..] && steps[1..][n - 1] == steps[n];
    }
  }

  /** A row of the table stays where it is, and only password updates of its user change it. */
  lemma {:induction false} RowAfter(st: State, steps: seq<Step>, i: nat)
    requires ValidRun(st, steps) && i < |st.rows|
    ensures var rows := Run(st, steps).rows;
            i < |rows| && rows[i] == st.rows[i].(pwd := PwdAfter(steps, st.rows[i].name, st.rows[i].pwd))
  {
    if steps == [] {
    } else {
      RunLast(st, steps);
      RowAfter(st, steps[..|steps| - 1], i);
    }
  }

  /** What a lookup returns is for good the row as it was at the first lookup of that key. It is the row
      of the table if and only if the last password update of that user since, if there was one, set the
      password of the first lookup. */
  lemma PasswordOfFirstLookup(steps: seq<Step>, later: seq<Step>, key: Key)
    requires ValidRun(INIT, steps)
    requires var st := Run(INIT, steps);
             key !in st.cache && Select(st.rows, key).Some? && ValidRun(Apply(st, Lookup(key)), later)
    ensures var st := Run(INIT, steps);
            var row := Select(st.rows, key).value;
            var st' := Run(Apply(st, Lookup(key)), later);
            && Answer(st', key) == Some(row)
            && Select(st'.rows, key) == Some(row.(pwd := PwdAfter(later, row.name, row.pwd)))
            && (Answer(st', key) == Select(st'.rows, key) <==> PwdAfter(later, row.name, row.pwd) == row.pwd)
  {
    var st := Run(INIT, steps);
    var st1 := Apply(st, Lookup(key));
    var st' := Run(st1, later);
    var row := Select(st.rows, key).value;
    InvOverRun(INIT, steps);
    LookupKeepsInv(st, key);
    InvOverRun(st1, later);
    CachedForGood(st1, later, key);
    HashRoundTrip(row);
    SelectFinds(st.rows, key);
    var i :| 0 <= i < |st.rows| && st.rows[i] == row && Matches(st.rows[i], key);
    RowAfter(st1, later, i);
    SelectIs(st'.rows, key, i);
  }

  /** A user looked up before the change of its password is answered with the password of before. */
  lemma StalePassword(row: Row, pwd: string)
    requires pwd != row.pwd
    ensures var steps := [Register(row), Lookup(ByUid(row.uid)), UpdatePwd(row.name, pwd)];
            && ValidRun(INIT, steps)
            && Answer(Run(INIT, steps), ByUid(row.uid)) == Some(row)
            && Select(Run(INIT, steps).rows, ByUid(row.uid)) == Some(row.(pwd := pwd))
  {
    var key := ByUid(row.uid);
    var steps := [Register(row), Lookup(key), UpdatePwd(row.name, pwd)];
    var s1 := Apply(INIT, Register(row));
    var s2 := Apply(s1, Lookup(key));
    var s3 := Apply(s2, UpdatePwd(row.name, pwd));
    assert steps[1..] == [Lookup(key), UpdatePwd(row.name, pwd)] && steps[1..][1..] == [UpdatePwd(row.name, pwd)];
    assert ValidRun(s2, [UpdatePwd(row.name, pwd)]) && Run(s2, [UpdatePwd(row.name, pwd)]) == s3;
    assert ValidRun(s1, steps[1..]) && Run(s1, steps[1..]) == s3;
    assert s1.rows == [row] && s3.rows == [row.(pwd := pwd)];
    HashRoundTrip(row);
  }

  // ------------------------------------------------------------------------------------------
  // The lookup as it runs
  // ------------------------------------------------------------------------------------------

  class UserInfoStore {
    var rows: seq<Row>
    var cache: map<Key, Hash>

    constructor ()
      ensures View() == INIT
    {
      rows, cache := [], map[];
    }

    ghost function View(): State
      reads this
    {
      State(rows, cache)
    }

    /** The loop of `hget` over the fields. A hash that is there has at least one of them. */
    method ReadFields(key: Key) returns (found: Hash)
      ensures found == if key in cache then map f | f in cache[key] && f in FIELDS :: cache[key][f] else map[]
    {
      found := map[];
      for i := 0 to |FIELDS|
        invariant found == if key in cache then map f | f in cache[key] && f in FIELDS[..i] :: cache[key][f] else map[]
      {
        if key in cache && FIELDS[i] in cache[key] {
          found := found[FIELDS[i] := cache[key][FIELDS[i]]];
        }
        assert FIELDS[..i + 1] == FIELDS[..i] + [FIELDS[i]];
      }
      assert FIELDS[..|FIELDS|] == FIELDS;
    }

    /** `GetUserInfo` and `SearchInfoByName`, with `key` saying which. */
    method GetUserInfo(key: Key) returns (user: Option<Row>)
      requires Inv(View())
      modifies this`cache
      ensures Inv(View()) && View() == Apply(old(View()), Lookup(key))
      ensures user == Answer(old(View()), key)
    {
      var found := ReadFields(key);
      LookupKeepsInv(View(), key);
      if key in cache {
        CachedHash(View(), key);
        FieldsCover(cache[key]);
      }
      if found != map[] {
        return Some(FromHash(found));
      }
      user := Select(rows, key);
      if user.Some? {
        cache := cache[key := ToHash(user.value)];
      }
    }
  }

  lemma EveryField(f: Field)
    ensures f in FIELDS
  {
  }

  /** Reading all eight fields reads all of a hash. */
  lemma FieldsCover(h: Hash)
    ensures (map f | f in h && f in FIELDS :: h[f]) == h
  {
    forall f | f in h
      ensures f in FIELDS
    {
      EveryField(f);
    }
  }

  /** A cached hash is not empty, so that it is told from a missing one. */
  lemma CachedHash(st: State, key: Key)
    requires Inv(st) && key in st.cache
    ensures st.cache[key] != map[]
  {
    var i, pwd :| 0 <= i < |st.rows| && Matches(st.rows[i], key) && st.cache[key] == ToHash(st.rows[i].(pwd := pwd));
    HashRoundTrip(st.rows[i].(pwd := pwd));
  }
}
