/** Iteration order of a QMap keyed by strings: ascending, every key once. */
module OrderedKeys {
  /** Lexicographic order on strings, the order QMap keeps its QString keys in. */
  predicate Le(a: string, b: string) {
    a == [] || (b != [] && (a[0] < b[0] || (a[0] == b[0] && Le(a[1..], b[1..]))))
  }

  lemma {:induction false} LeTotal(a: string, b: string)
    ensures Le(a, b) || Le(b, a)
  {
    if a != [] && b != [] && a[0] == b[0] { LeTotal(a[1..], b[1..]); }
  }

  lemma {:induction false} LeAntisymmetric(a: string, b: string)
    requires Le(a, b) && Le(b, a)
    ensures a == b
  {
    if a != [] {
      LeAntisymmetric(a[1..], b[1..]);
      assert a == [a[0]] + a[1..] && b == [b[0]] + b[1..];
    }
  }

  lemma {:induction false} LeTransitive(a: string, b: string, c: string)
    requires Le(a, b) && Le(b, c)
    ensures Le(a, c)
  {
    if a != [] && a[0] == b[0] && b[0] == c[0] { LeTransitive(a[1..], b[1..], c[1..]); }
  }

  predicate IsLeast(k: string, s: set<string>) {
    k in s && forall x | x in s :: Le(k, x)
  }

  lemma {:induction false} LeastExists(s: set<string>)
    requires s != {}
    ensures exists k :: IsLeast(k, s)
    decreases |s|
  {
    var x :| x in s;
    if s == {x} {
      LeTotal(x, x);
      assert IsLeast(x, s);
    } else {
      LeastExists(s - {x});
      var k :| IsLeast(k, s - {x});
      LeTotal(k, x);
      LeTotal(x, x);
      if Le(x, k) {
        forall y | y in s ensures Le(x, y) {
          if y != x { LeTransitive(x, k, y); }
        }
        assert IsLeast(x, s);
      } else {
        assert IsLeast(k, s);
      }
    }
  }

  lemma LeastUnique(s: set<string>)
    ensures forall a, b | IsLeast(a, s) && IsLeast(b, s) :: a == b
  {
    forall a, b | IsLeast(a, s) && IsLeast(b, s) ensures a == b { LeAntisymmetric(a, b); }
  }

  /** The first key of a non-empty QMap. */
  function Least(s: set<string>): (k: string)
    requires s != {}
    ensures k in s
  {
    LeastExists(s);
    LeastUnique(s);
    var k :| IsLeast(k, s);
    k
  }

  /** All keys in iteration order. */
  function Keys(s: set<string>): (ks: seq<string>)
    ensures forall k :: k in ks <==> k in s
    ensures |ks| == |s|
    ensures forall i, j | 0 <= i < j < |ks| :: ks[i] != ks[j]
    decreases |s|
  {
    if s == {} then [] else
      var k := Least(s);
      [k] + Keys(s - {k})
  }

  lemma LeastIsLeast(s: set<string>)
    requires s != {}
    ensures IsLeast(Least(s), s)
  {
    LeastExists(s);
    LeastUnique(s);
  }

  /** Keys come in ascending order. */
  lemma {:induction false} KeysAscend(s: set<string>)
    ensures forall i, j | 0 <= i < j < |Keys(s)| :: Le(Keys(s)[i], Keys(s)[j])
    decreases |s|
  {
    if s != {} {
      var k := Least(s);
      LeastIsLeast(s);
      KeysAscend(s - {k});
      var rest := Keys(s - {k});
      forall j | 0 <= j < |rest| ensures Le(k, rest[j]) { assert rest[j] in s - {k}; }
    }
  }
}
