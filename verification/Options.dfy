/** A value that may be missing; also the outcome of an operation that may refuse its arguments. */
module Options {
  datatype Option<T> = None | Some(value: T) {
    function GetOr(default: T): T {
      if Some? then value else default
    }
  }

  /** Two lists one after the other, when both are there. */
  function Join<T>(first: Option<seq<T>>, second: Option<seq<T>>): Option<seq<T>> {
    if first.Some? && second.Some? then Some(first.value + second.value) else None
  }

  lemma JoinAssociative<T>(a: Option<seq<T>>, b: Option<seq<T>>, c: Option<seq<T>>)
    ensures Join(Join(a, b), c) == Join(a, Join(b, c))
  {
    if a.Some? && b.Some? && c.Some? {
      assert (a.value + b.value) + c.value == a.value + (b.value + c.value);
    }
  }

  lemma JoinEmpty<T>(a: Option<seq<T>>)
    ensures Join(Some([]), a) == a == Join(a, Some([]))
  {
    if a.Some? {
      assert [] + a.value == a.value == a.value + [];
    }
  }
}
