/** Small definitions shared by every component. */
module Common {

  datatype Option<+T> = None | Some(value: T)

  function Max(a: int, b: int): int {
    if a < b then b else a
  }

  function Min(a: int, b: int): int {
    if a < b then a else b
  }

  predicate IsLeast(s: set<int>, k: int) {
    k in s && forall j | j in s :: k <= j
  }

  lemma Inhabited(s: set<int>)
    requires s != {}
    ensures exists x :: x in s
  {
    if forall x :: x !in s {
      assert false;
    }
  }

  lemma {:induction false} LeastExists(s: set<int>) returns (k: int)
    requires s != {}
    ensures IsLeast(s, k)
    decreases |s|
  {
    Inhabited(s);
    var x :| x in s;
    var rest := s - {x};
    assert s == rest + {x};
    if rest == {} {
      k := x;
    } else {
      k := LeastExists(rest);
      if x < k {
        k := x;
      }
    }
  }

  lemma HasLeast(s: set<int>)
    requires s != {}
    ensures exists k :: IsLeast(s, k)
  {
    var k := LeastExists(s);
  }

  function Least(s: set<int>): (k: int)
    requires s != {}
    ensures IsLeast(s, k)
  {
    HasLeast(s);
    var k :| IsLeast(s, k);
    k
  }
}
