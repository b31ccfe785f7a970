/** Finite sets of numbers and the pigeonhole principle for sequences over a finite set. */
module Counting {

  /** More entries than values: some value occurs twice. */
  lemma {:induction false} Pigeonhole<T>(p: seq<T>, s: set<T>) returns (i: nat, j: nat)
    requires forall x :: x in p ==> x in s
    requires |p| > |s|
    ensures i < j < |p| && p[i] == p[j]
  {
    var x := p[0];
    if k :| 1 <= k < |p| && p[k] == x {
      return 0, k;
    }
    forall y | y in p[1..] ensures y in s - {x} {
    }
    var i', j' := Pigeonhole(p[1..], s - {x});
    return i' + 1, j' + 1;
  }

  /** The natural numbers below `n`. */
  ghost function Below(n: nat): (s: set<nat>)
    ensures |s| == n && forall k: nat :: k in s <==> k < n
  {
    if n == 0 then {}
    else
      var s := Below(n - 1);
      assert n - 1 !in s;
      s + {n - 1}
  }

  /** `idx` lists the members of `chosen` in increasing order. */
  ghost predicate Enumerates(idx: seq<int>, chosen: set<int>) {
    && (forall i, k :: 0 <= i < k < |idx| ==> idx[i] < idx[k])
    && (forall x :: x in idx <==> x in chosen)
  }

  lemma EnumeratesMore(idx: seq<int>, chosen: set<int>, n: int)
    requires Enumerates(idx, chosen) && forall x :: x in chosen ==> x < n
    ensures Enumerates(idx + [n], chosen + {n})
  {
    forall k | 0 <= k < |idx| ensures idx[k] < n {
      assert idx[k] in idx;
    }
  }

  lemma EnumeratesLess(idx: seq<int>, chosen: set<int>, n: int)
    requires Enumerates(idx, chosen + {n}) && forall x :: x in chosen ==> x < n
    ensures idx != [] && idx[|idx| - 1] == n && Enumerates(idx[..|idx| - 1], chosen)
  {
    assert n in chosen + {n};
    var k :| 0 <= k < |idx| && idx[k] == n;
    assert idx[|idx| - 1] in idx;
    var short := idx[..|idx| - 1];
    assert idx == short + [n];
    forall x | x in chosen ensures x in short {
      assert x in chosen + {n};
    }
  }

  lemma EmptyEnumeration(idx: seq<int>, chosen: set<int>)
    requires Enumerates(idx, chosen) && chosen == {}
    ensures idx == []
  {
    if idx != [] {
      var x := SomeMember(idx);
      assert false;
    }
  }

  lemma SomeMember(idx: seq<int>) returns (x: int)
    requires idx != []
    ensures x in idx
  {
    x := idx[0];
  }

  lemma MembersBelow(idx: seq<int>, chosen: set<int>, n: int)
    requires Enumerates(idx, chosen) && forall x :: x in chosen ==> 0 <= x < n
    ensures forall k :: 0 <= k < |idx| ==> 0 <= idx[k] < n
  {
    forall k | 0 <= k < |idx| ensures 0 <= idx[k] < n {
      assert idx[k] in idx;
    }
  }
}
