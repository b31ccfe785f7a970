/** What the sources take from std::string: positions, `find` and `rfind`. */
module Strings {

  /** `t` stands in `s` at position `i`. */
  predicate At(s: string, i: int, t: string) {
    0 <= i && i + |t| <= |s| && s[i..i + |t|] == t
  }

  const NPOS := -1

  /** `s.find(t, from)`: the first position at or after `from` where `t` stands. */
  function Find(s: string, t: string, from: nat): (r: int)
    ensures r == NPOS || (from <= r && At(s, r, t))
    ensures forall i :: from <= i < (if r == NPOS then |s| + 1 else r) ==> !At(s, i, t)
    decreases |s| + 1 - from
  {
    if from > |s| then NPOS
    else if At(s, from, t) then from
    else Find(s, t, from + 1)
  }

  /** `s.rfind(t, upto)`: the last position at or before `upto` where `t` stands. */
  function RFind(s: string, t: string, upto: int): (r: int)
    ensures r == NPOS || (0 <= r <= upto && At(s, r, t))
    ensures forall i :: r < i <= upto ==> !At(s, i, t)
    decreases upto + 1
  {
    if upto < 0 then NPOS
    else if At(s, upto, t) then upto
    else RFind(s, t, upto - 1)
  }

  lemma AtSplit(s: string, i: nat, a: string, b: string)
    ensures At(s, i, a + b) <==> At(s, i, a) && At(s, i + |a|, b)
  {
    if At(s, i, a + b) {
      assert s[i..i + |a|] == s[i..i + |a + b|][..|a|] == a;
      assert s[i + |a|..i + |a| + |b|] == s[i..i + |a + b|][|a|..] == b;
    }
    if At(s, i, a) && At(s, i + |a|, b) {
      assert s[i..i + |a + b|] == s[i..i + |a|] + s[i + |a|..i + |a| + |b|];
    }
  }

  lemma AtChar(s: string, i: nat, t: string, k: nat)
    requires At(s, i, t) && k < |t|
    ensures i + k < |s| && s[i + k] == t[k]
  {
    assert s[i..i + |t|][k] == s[i + k];
  }

  lemma Regroup(a: string, b: string, c: string)
    ensures a + (b + c) == (a + b) + c
  {
  }

  lemma AtHere(pre: string, t: string, suf: string)
    ensures At(pre + t + suf, |pre|, t)
  {
  }
}
