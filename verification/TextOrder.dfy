// Text in code-point order, as sorted() orders strings.
module TextOrder {
  import opened Common

  predicate Leq(a: string, b: string) {
    LexLeq(Codes(a), Codes(b))
  }

  predicate IsLeast(s: set<string>, a: string) {
    a in s && forall b :: b in s ==> Leq(a, b)
  }

  lemma {:induction false} LeastExists(s: set<string>) returns (a: string)
    requires s != {}
    ensures IsLeast(s, a)
    decreases |s|
  {
    var x :| x in s;
    LexLeqTotal(Codes(x), Codes(x));
    if s == {x} {
      a := x;
    } else {
      var y := LeastExists(s - {x});
      LexLeqTotal(Codes(x), Codes(y));
      a := if Leq(x, y) then x else y;
      forall b | b in s ensures Leq(a, b) {
        if b != x && Leq(x, y) {
          assert b in s - {x};
          LexLeqTransitive(Codes(x), Codes(y), Codes(b));
        }
      }
    }
  }

  lemma LeastUnique(s: set<string>, a: string, b: string)
    requires IsLeast(s, a) && IsLeast(s, b)
    ensures a == b
  {
    LexLeqAntisymmetric(Codes(a), Codes(b));
    CodesInjective(a, b);
  }

  function Least(s: set<string>): (a: string)
    requires s != {}
    ensures IsLeast(s, a)
  {
    assert exists a :: IsLeast(s, a) by {
      var least := LeastExists(s);
    }
    assert forall a, b :: IsLeast(s, a) && IsLeast(s, b) ==> a == b by {
      forall a, b | IsLeast(s, a) && IsLeast(s, b) ensures a == b {
        LeastUnique(s, a, b);
      }
    }
    var a :| IsLeast(s, a);
    a
  }

  // The elements of s in ascending order.
  function Sorted(s: set<string>): (r: seq<string>)
    ensures forall a :: a in r <==> a in s
    decreases |s|
  {
    if s == {} then [] else [Least(s)] + Sorted(s - {Least(s)})
  }

  lemma {:induction false} SortedAscends(s: set<string>)
    ensures Distinct(Sorted(s)) && forall i, j :: 0 <= i < j < |Sorted(s)| ==> Leq(Sorted(s)[i], Sorted(s)[j])
    decreases |s|
  {
    if s != {} {
      var rest := Sorted(s - {Least(s)});
      SortedAscends(s - {Least(s)});
      assert forall k :: 0 <= k < |rest| ==> rest[k] in rest;
    }
  }
}
