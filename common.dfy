/** Failure-carrying result types shared by every module of the model. */
module Common {

  datatype Option<+T> = None | Some(value: T)

  /** A value, or the error the source would raise instead of returning one. */
  datatype Result<+T, +E> = Ok(value: T) | Err(error: E)

  /** A step that either completes or raises. */
  datatype Outcome<+E> = Pass | Fail(error: E)

  lemma AppendAssoc<T>(a: seq<T>, b: seq<T>, c: seq<T>)
    ensures a + b + c == a + (b + c)
  {
  }

  lemma AppendThree<T>(s: seq<T>, a: T, b: T, c: T)
    ensures s + [a] + [b] + [c] == s + [a, b, c]
  {
    AppendAssoc(s, [a], [b]);
    assert [a] + [b] == [a, b];
    AppendAssoc(s, [a, b], [c]);
  }
}
