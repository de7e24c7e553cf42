/** Small datatypes and facts shared by the components. */
module Basics {

  /** One octet on the wire or in a packet buffer. */
  newtype byte = x: int | 0 <= x < 256

  datatype Option<+T> = None | Some(value: T)

  datatype Result<+T, +E> = Ok(value: T) | Err(error: E)

  function Min(a: int, b: int): int {
    if a <= b then a else b
  }

  lemma {:induction false} SubsetSize<T>(a: set<T>, b: set<T>)
    requires a <= b
    ensures |a| <= |b|
  {
    if x :| x in a {
      SubsetSize(a - {x}, b - {x});
    }
  }

  /** A number that is not taken. */
  method FreshKey(taken: set<nat>) returns (k: nat)
    ensures k !in taken
  {
    k := 0;
    var todo := taken;
    while todo != {}
      invariant todo <= taken && forall x :: x in taken && x !in todo ==> x < k
      decreases |todo|
    {
      var x :| x in todo;
      if k <= x {
        k := x + 1;
      }
      todo := todo - {x};
    }
  }
}
