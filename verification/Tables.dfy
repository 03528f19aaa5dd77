/** Walking a std::map in key order: rewriting every entry in place, and finding the first that matches. */
module Tables {
  import opened Words
  import opened Entities

  /** The first i entries of the walk are rewritten by f, the others are as they were. */
  ghost predicate RewrittenTo<V>(ks: seq<u64>, i: nat, was: map<u64, V>, now: map<u64, V>, f: V -> V) {
    && was.Keys == now.Keys
    && forall j :: 0 <= j < |ks| ==> ks[j] in was && now[ks[j]] == if j < i then f(was[ks[j]]) else was[ks[j]]
  }

  lemma RewriteStarts<V>(ks: seq<u64>, was: map<u64, V>, f: V -> V)
    requires Lists(ks, was.Keys)
    ensures RewrittenTo(ks, 0, was, was, f)
  {
    forall j | 0 <= j < |ks|
      ensures ks[j] in was
    {
      assert ks[j] in ks;
    }
  }

  lemma RewriteStep<V>(ks: seq<u64>, i: nat, was: map<u64, V>, now: map<u64, V>, f: V -> V)
    requires i < |ks| && Ascending(ks) && RewrittenTo(ks, i, was, now, f)
    ensures ks[i] in now && now[ks[i]] == was[ks[i]]
    ensures RewrittenTo(ks, i + 1, was, now[ks[i] := f(was[ks[i]])], f)
  {
    var next := now[ks[i] := f(was[ks[i]])];
    forall j | 0 <= j < |ks|
      ensures next[ks[j]] == if j < i + 1 then f(was[ks[j]]) else was[ks[j]]
    {
      assert j < i ==> ks[j] < ks[i];
      assert i < j ==> ks[i] < ks[j];
    }
  }

  lemma RewriteEnds<V>(ks: seq<u64>, was: map<u64, V>, now: map<u64, V>, f: V -> V)
    requires Lists(ks, was.Keys) && RewrittenTo(ks, |ks|, was, now, f)
    ensures now == map k | k in was :: f(was[k])
  {
    forall k | k in was
      ensures now[k] == f(was[k])
    {
      assert k in ks;
    }
  }

  lemma ListedIsKey(ks: seq<u64>, all: set<u64>, i: nat)
    requires Lists(ks, all) && i < |ks|
    ensures ks[i] in all
  {
    assert ks[i] in ks;
  }

  /** The first key of the walk that matches is the least that does. */
  lemma FirstIsLeast(ks: seq<u64>, all: set<u64>, matching: set<u64>, i: nat)
    requires Ascending(ks) && Lists(ks, all) && matching <= all
    requires i < |ks| && ks[i] in matching
    requires forall j :: 0 <= j < i ==> ks[j] !in matching
    ensures matching != {} && Least(matching) == ks[i]
  {
    var k := Least(matching);
    assert k in ks;
    var j :| 0 <= j < |ks| && ks[j] == k;
  }

  lemma NoneMatches(ks: seq<u64>, all: set<u64>, matching: set<u64>)
    requires Lists(ks, all) && matching <= all
    requires forall j :: 0 <= j < |ks| ==> ks[j] !in matching
    ensures matching == {}
  {
    forall k | k in all
      ensures k !in matching
    {
      assert k in ks;
    }
  }
}
