// Definitions shared by the models of kezio's components.
module Common {

  datatype Option<+T> = None | Some(value: T)

  // ----- finite sets -----

  // A subset is no larger than its superset.
  lemma {:induction false} SubsetSize<T>(a: set<T>, b: set<T>)
    requires a <= b
    ensures |a| <= |b|
    ensures |a| == |b| ==> a == b
    decreases a
  {
    if a == {} {
      if b != {} { var x :| x in b; }
    } else {
      var x :| x in a;
      SubsetSize(a - {x}, b - {x});
    }
  }

  // An injective function does not shrink a set.
  lemma {:induction false} InjectiveImageSize<S, T>(a: set<S>, f: S -> T, image: set<T>)
    requires forall x, y :: x in a && y in a && f(x) == f(y) ==> x == y
    requires image == set x | x in a :: f(x)
    ensures |image| == |a|
    decreases a
  {
    if a == {} {
      assert image == {};
    } else {
      var x :| x in a;
      var rest := a - {x};
      var restImage := set y | y in rest :: f(y);
      InjectiveImageSize(rest, f, restImage);
      assert image == restImage + {f(x)};
      assert f(x) !in restImage;
    }
  }

  // The set {0, ..., n - 1}.
  function Upto(n: nat): (s: set<nat>)
    ensures |s| == n
    ensures forall i :: i in s <==> 0 <= i < n
  {
    if n == 0 then {} else Upto(n - 1) + {n - 1}
  }
}
