/** Option, and facts about sequences, shared by the modules of the model. */
module Wrappers {
  datatype Option<+T> = None | Some(value: T)

  lemma ConcatAssociates<T>(a: seq<T>, b: seq<T>, c: seq<T>)
    ensures a + b + c == a + (b + c)
  {
  }

  /** `c` is `a` and `b` put together in some order that keeps the order of each. */
  ghost predicate Merge<T>(a: seq<T>, b: seq<T>, c: seq<T>) {
    if c == [] then a == [] && b == []
    else
      var n, rest := c[|c| - 1], c[..|c| - 1];
      || (a != [] && a[|a| - 1] == n && Merge(a[..|a| - 1], b, rest))
      || (b != [] && b[|b| - 1] == n && Merge(a, b[..|b| - 1], rest))
  }

  lemma MergeOne<T>(a: seq<T>, b: seq<T>, c: seq<T>, n: T)
    requires Merge(a, b, c)
    ensures Merge(a + [n], b, c + [n]) && Merge(a, b + [n], c + [n])
  {
    assert (c + [n])[..|c|] == c && (a + [n])[..|a|] == a && (b + [n])[..|b|] == b;
  }
}
