/** Sums of weights over sequences and over the clients. */
module Sums {
  import opened Sequences
  import opened Events

  function Total<T>(f: T -> nat, s: seq<T>): nat { if s == [] then 0 else f(s[0]) + Total(f, s[1..]) }

  lemma {:induction false} TotalOfSum<T>(f: T -> nat, a: seq<T>, b: seq<T>)
    ensures Total(f, a + b) == Total(f, a) + Total(f, b)
  {
    if a == [] {
      NothingAdded(b);
    } else {
      SumHead(a, b);
      TotalOfSum(f, a[1..], b);
    }
  }

  lemma TotalOfOne<T>(f: T -> nat, x: T)
    ensures Total(f, [x]) == f(x)
  {
    assert [x][1..] == [];
  }

  lemma {:induction false} TotalAtMost<T>(f: T -> nat, s: seq<T>, each: nat)
    requires |s| <= 2 && forall i | 0 <= i < |s| :: f(s[i]) <= each
    ensures Total(f, s) <= if s == [] then 0 else 2 * each
  {
    if s != [] {
      var rest := s[1..];
      if rest != [] { assert rest == [s[1]] && Total(f, rest) == f(s[1]) + Total(f, rest[1..]); }
    }
  }

  ghost function Sum(ps: set<PeerId>, f: PeerId -> nat): nat
    decreases |ps|
  { if ps == {} then 0 else var p :| p in ps; f(p) + Sum(ps - {p}, f) }

  lemma {:induction false} SumSplit(ps: set<PeerId>, p: PeerId, f: PeerId -> nat)
    requires p in ps
    ensures Sum(ps, f) == f(p) + Sum(ps - {p}, f)
    decreases |ps|
  {
    var q :| q in ps && Sum(ps, f) == f(q) + Sum(ps - {q}, f);
    if q != p {
      SumSplit(ps - {q}, p, f);
      SumSplit(ps - {p}, q, f);
      assert ps - {q} - {p} == ps - {p} - {q};
    }
  }

  lemma {:induction false} SumAtMost(ps: set<PeerId>, f: PeerId -> nat, g: PeerId -> nat, h: PeerId -> nat)
    requires forall p | p in ps :: f(p) <= g(p) + h(p)
    ensures Sum(ps, f) <= Sum(ps, g) + Sum(ps, h)
    decreases |ps|
  {
    if ps != {} {
      var p :| p in ps;
      SumSplit(ps, p, f);
      SumSplit(ps, p, g);
      SumSplit(ps, p, h);
      SumAtMost(ps - {p}, f, g, h);
    }
  }

  function Always(k: nat): PeerId -> nat { p => k }

  lemma {:induction false} SumOfNothing(ps: set<PeerId>)
    ensures Sum(ps, Always(0)) == 0
    decreases |ps|
  {
    if ps != {} {
      var p :| p in ps;
      SumSplit(ps, p, Always(0));
      SumOfNothing(ps - {p});
    }
  }

  lemma {:induction false} SumOfOnes(ps: set<PeerId>)
    ensures Sum(ps, Always(1)) == |ps|
    decreases |ps|
  {
    if ps != {} {
      var p :| p in ps;
      SumSplit(ps, p, Always(1));
      SumOfOnes(ps - {p});
    }
  }

  lemma SumKept(ps: set<PeerId>, f: PeerId -> nat, g: PeerId -> nat)
    requires forall p | p in ps :: f(p) <= g(p)
    ensures Sum(ps, f) <= Sum(ps, g)
  {
    SumAtMost(ps, f, g, Always(0));
    SumOfNothing(ps);
  }

  /** One summand got smaller, the others did not grow. */
  lemma SumDrops(ps: set<PeerId>, p: PeerId, f: PeerId -> nat, g: PeerId -> nat, drop: nat)
    requires p in ps && f(p) + drop <= g(p) && forall q | q in ps && q != p :: f(q) <= g(q)
    ensures Sum(ps, f) + drop <= Sum(ps, g)
  {
    SumSplit(ps, p, f);
    SumSplit(ps, p, g);
    SumKept(ps - {p}, f, g);
  }

  function Times5(f: PeerId -> nat): PeerId -> nat { p => 5 * f(p) }

  lemma {:induction false} SumTimes5(ps: set<PeerId>, f: PeerId -> nat)
    ensures Sum(ps, Times5(f)) == 5 * Sum(ps, f)
    decreases |ps|
  {
    if ps != {} {
      var p :| p in ps;
      SumSplit(ps, p, f);
      SumSplit(ps, p, Times5(f));
      SumTimes5(ps - {p}, f);
    }
  }
}
