/** Option and Result, the wrappers used by every module of the model. */
module Results {

  datatype Option<+T> = None | Some(value: T)

  /** The outcome of an operation that the Python program either completes or aborts by raising. */
  datatype Result<+T, +E> = Success(value: T) | Failure(error: E)

  /** Runs two edge-producing computations one after the other, as `yield from a; yield from b`
      does: the first failure wins, otherwise the outputs are concatenated in order. */
  function Concat<T, E>(a: Result<seq<T>, E>, b: Result<seq<T>, E>): Result<seq<T>, E> {
    if a.Failure? then a
    else if b.Failure? then b
    else Success(a.value + b.value)
  }

  /** An empty successful second step changes nothing. */
  lemma ConcatEmpty<T, E>(a: Result<seq<T>, E>)
    ensures Concat(a, Success([])) == a
  {
    if a.Success? {
      assert a.value + [] == a.value;
    }
  }

  /** An empty successful first step changes nothing. */
  lemma EmptyConcat<T, E>(b: Result<seq<T>, E>)
    ensures Concat(Success([]), b) == b
  {
    if b.Success? {
      assert [] + b.value == b.value;
    }
  }

  lemma ConcatAssoc<T, E>(a: Result<seq<T>, E>, b: Result<seq<T>, E>, c: Result<seq<T>, E>)
    ensures Concat(Concat(a, b), c) == Concat(a, Concat(b, c))
  {
    if a.Success? && b.Success? && c.Success? {
      assert (a.value + b.value) + c.value == a.value + (b.value + c.value);
    }
  }
}
