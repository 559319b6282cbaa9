/** Shared vocabulary: optional values, and how a finite set is walked. */
module Options {

  /** A missing row, an absent header, a response that never arrived. */
  datatype Option<+T> = None | Some(value: T)

  /** A set that is not empty has a member to pick. */
  lemma Inhabited<T>(s: set<T>)
    ensures s != {} ==> exists x :: x in s
  {
    if !exists x :: x in s {
      assert s == {};
    }
  }

  ghost function AnyOf<T>(s: set<T>): (x: T)
    requires s != {}
    ensures x in s
  {
    Inhabited(s);
    var x :| x in s; x
  }

  /** A finite set of integers that is not empty has a least member. */
  lemma {:induction false} HasLeast(s: set<int>)
    requires s != {}
    ensures exists x :: x in s && forall y :: y in s ==> x <= y
  {
    var x := AnyOf(s);
    var rest := s - {x};
    if rest == {} {
      assert s == {x};
    } else {
      HasLeast(rest);
      var m :| m in rest && forall y :: y in rest ==> m <= y;
      var least := if x <= m then x else m;
      forall y | y in s ensures least <= y {
        assert y == x || y in rest;
      }
    }
  }

  /** Every finite set can be listed without repetition or omission. */
  lemma {:induction false} Enumerate<T>(s: set<T>) returns (list: seq<T>)
    ensures forall x :: x in list <==> x in s
  {
    list := [];
    var left := s;
    while left != {}
      invariant left <= s
      invariant forall x :: x in list <==> x in s - left
      decreases |left|
    {
      var x := AnyOf(left);
      left := left - {x};
      list := list + [x];
    }
  }
}
