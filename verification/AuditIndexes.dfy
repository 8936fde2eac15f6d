/** Keyed call counters, and why the groups of a log add up to the log. */
module AuditIndexes {
  import opened Common

  /** Text that the scan only compares: roles, commits, fingerprints, days and so on. */
  datatype Name = Name(id: int)

  /** One SQL call, filed under a key. */
  datatype Call = Call(key: Name, duration: real)

  datatype Stat = Stat(calls: nat, ms: real)

  const NOTHING: Stat := Stat(0, 0.0)

  function Plus(a: Stat, b: Stat): Stat {
    Stat(a.calls + b.calls, a.ms + b.ms)
  }

  // ---- Plain definitions -----------------------------------------------------------------------

  /** The number of calls and their total duration. */
  function StatOf(calls: seq<Call>): Stat {
    if calls == [] then NOTHING else Plus(StatOf(Init(calls)), Stat(1, Last(calls).duration))
  }

  /** The number and the total duration of the calls under one key. */
  function Group(calls: seq<Call>, key: Name): Stat {
    if calls == [] then NOTHING
    else if Last(calls).key == key then Plus(Group(Init(calls), key), Stat(1, Last(calls).duration))
    else Group(Init(calls), key)
  }

  function Keys(calls: seq<Call>): set<Name> {
    if calls == [] then {} else Keys(Init(calls)) + {Last(calls).key}
  }

  lemma {:induction false} NoGroup(calls: seq<Call>, key: Name)
    ensures key in Keys(calls) <==> Group(calls, key).calls > 0
    ensures key !in Keys(calls) ==> Group(calls, key) == NOTHING
  {
    if calls != [] {
      NoGroup(Init(calls), key);
    }
  }

  // ---- Sums over groups ------------------------------------------------------------------------

  ghost function SumOver(keys: set<Name>, f: Name -> Stat): Stat
    decreases |keys|
  {
    if keys == {} then NOTHING else
      var k :| k in keys;
      Plus(f(k), SumOver(keys - {k}, f))
  }

  lemma {:induction false} SumWithout(keys: set<Name>, f: Name -> Stat, k: Name)
    requires k in keys
    ensures SumOver(keys, f) == Plus(f(k), SumOver(keys - {k}, f))
    decreases |keys|
  {
    var picked :| picked in keys && SumOver(keys, f) == Plus(f(picked), SumOver(keys - {picked}, f));
    if picked != k {
      SumWithout(keys - {picked}, f, k);
      SumWithout(keys - {k}, f, picked);
      var rest := keys - {picked} - {k};
      assert keys - {k} - {picked} == rest;
      assert SumOver(keys, f) == Plus(f(picked), Plus(f(k), SumOver(rest, f)));
      assert SumOver(keys - {k}, f) == Plus(f(picked), SumOver(rest, f));
    }
  }

  lemma {:induction false} SumSame(keys: set<Name>, f: Name -> Stat, g: Name -> Stat)
    requires forall k | k in keys :: f(k) == g(k)
    ensures SumOver(keys, f) == SumOver(keys, g)
    decreases |keys|
  {
    if keys != {} {
      var k :| k in keys;
      SumWithout(keys, f, k);
      SumWithout(keys, g, k);
      SumSame(keys - {k}, f, g);
    }
  }

  /** Adding `more` to one group adds it to the sum. */
  lemma {:induction false} SumGrows(keys: set<Name>, f: Name -> Stat, g: Name -> Stat, key: Name, more: Stat)
    requires forall k | k in keys && k != key :: g(k) == f(k)
    requires g(key) == Plus(f(key), more)
    requires key !in keys ==> f(key) == NOTHING
    ensures SumOver(keys + {key}, g) == Plus(SumOver(keys, f), more)
  {
    var others := keys - {key};
    SumWithout(keys + {key}, g, key);
    assert keys + {key} - {key} == others;
    SumSame(others, f, g);
    if key in keys {
      SumWithout(keys, f, key);
    } else {
      assert others == keys;
    }
  }

  /** Every call is in exactly one group: the groups add up to the whole. */
  lemma {:induction false} GroupsPartition(calls: seq<Call>)
    ensures SumOver(Keys(calls), k => Group(calls, k)) == StatOf(calls)
  {
    if calls != [] {
      var front, c := Init(calls), Last(calls);
      GroupsPartition(front);
      NoGroup(front, c.key);
      SumGrows(Keys(front), k => Group(front, k), k => Group(calls, k), c.key, Stat(1, c.duration));
    }
  }

  // ---- A counting index --------------------------------------------------------------------------

  type Index = map<Name, Stat>

  /** One more call in the entry of `key`. */
  function Put(m: Index, key: Name, duration: real): Index {
    m[key := Plus(if key in m then m[key] else NOTHING, Stat(1, duration))]
  }

  /** The index holds exactly the groups of the calls, each with its count and its time. */
  ghost predicate Indexes(m: Index, calls: seq<Call>) {
    m.Keys == Keys(calls) && forall k | k in m :: m[k] == Group(calls, k)
  }

  ghost function Total(m: Index): Stat {
    SumOver(m.Keys, k => if k in m then m[k] else NOTHING)
  }

  lemma {:induction false} PutIndexes(m: Index, calls: seq<Call>, c: Call)
    requires Indexes(m, calls)
    ensures Indexes(Put(m, c.key, c.duration), calls + [c])
  {
    assert Init(calls + [c]) == calls;
    NoGroup(calls, c.key);
  }

  /** The total of any index is the total of the calls. */
  lemma {:induction false} IndexTotal(m: Index, calls: seq<Call>)
    requires Indexes(m, calls)
    ensures Total(m) == StatOf(calls)
  {
    SumSame(m.Keys, k => if k in m then m[k] else NOTHING, k => Group(calls, k));
    GroupsPartition(calls);
  }
}
