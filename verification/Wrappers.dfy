/** The optional value used wherever the program returns std::optional or a nullable column. */
module Wrappers {
  datatype Option<+T> = None | Some(value: T)

  /** The values that are there, in order. */
  function Somes<T>(xs: seq<Option<T>>): seq<T> {
    if xs == [] then []
    else (if xs[0].Some? then [xs[0].value] else []) + Somes(xs[1..])
  }

  lemma {:induction false} SomesConcat<T>(a: seq<Option<T>>, b: seq<Option<T>>)
    ensures Somes(a + b) == Somes(a) + Somes(b)
  {
    var ab := a + b;
    if a == [] {
      assert ab == b;
    } else {
      var rest := a[1..];
      assert ab[0] == a[0] && ab[1..] == rest + b;
      SomesConcat(rest, b);
    }
  }

  lemma SomesOfOne<T>(x: Option<T>)
    ensures Somes([x]) == if x.Some? then [x.value] else []
  {
    assert [x][1..] == [];
  }
}
