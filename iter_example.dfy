/** The iterator from the documentation of `PyIterProtocol`: a class with
    a `count` field whose `__next__` yields the integers 1 to 5 and then
    raises `StopIteration("Ended")`. */
module IterExample {
  import opened PyRuntime
  import opened IterProtocol

  /** The value the example returns once it is exhausted. */
  const ENDED: string := "Ended"

  /** What one `__next__` call does to a counter: the outcome, and the
      counter afterwards. */
  function Advance(count: Usize): (IterNextOutput<Usize, string>, Usize)
  {
    if count < 5 then (Yield(count + 1), count + 1) else (Return(ENDED), count)
  }

  /** The `#[pyclass] struct Iter { count: usize }` of the example. */
  class Iter {
    var count: Usize

    constructor (count: Usize)
      ensures this.count == count
    {
      this.count := count;
    }

    /** `__next__`: below 5, count one up and yield the new count;
        otherwise end the iteration with `"Ended"`. */
    method Next() returns (out: IterNextOutput<Usize, string>)
      modifies this
      ensures (out, count) == Advance(old(count))
    {
      if count < 5 {
        count := count + 1;
        out := Yield(count);
      } else {
        out := Return(ENDED);
      }
    }
  }

  /** A counter that starts within range stays within range. */
  lemma AdvanceStaysBounded(count: Usize)
    requires count <= 5
    ensures Advance(count).1 <= 5
  {
  }

  /** Each item is the new counter, one more than the old. */
  lemma AdvanceYieldsNewCount(count: Usize)
    ensures Advance(count).0.Yield? <==> count < 5
    ensures Advance(count).0.Yield? ==> Advance(count).0.yielded == Advance(count).1 == count + 1
  {
  }

  /** Once exhausted, the iterator stays exhausted: every further call
      ends the iteration again with `"Ended"` and leaves the counter alone. */
  lemma ExhaustionIsStable(count: Usize)
    requires Advance(count).0.Return?
    ensures Advance(count) == (Return(ENDED), count)
    ensures Advance(Advance(count).1) == Advance(count)
  {
  }

  /** What the interpreter receives from the `k`-th `next()` on a fresh
      iterator (counting from 0), as the documentation promises: the
      integers 1 to 5, then `StopIteration("Ended")` for good. */
  function DocumentedResult(k: nat): PyResult<Ptr>
  {
    if k < 5 then Ok(Owned(PyInt(k + 1))) else Err(StopIteration([PyStr(ENDED)]))
  }

  /** `Py::new(py, Iter { count: 0 })` followed by `n` calls of `next()`
      through the `tp_iternext` slot, each outcome converted as the
      adapter converts it. */
  method Session(n: nat) returns (results: seq<PyResult<Ptr>>)
    ensures |results| == n
    ensures forall k :: 0 <= k < n ==> results[k] == DocumentedResult(k)
  {
    var it := new Iter(0);
    results := [];
    var i := 0;
    while i < n
      invariant 0 <= i <= n
      invariant it.count as int == if i < 5 then i else 5
      invariant |results| == i
      invariant forall k :: 0 <= k < i ==> results[k] == DocumentedResult(k)
    {
      var out := it.Next();
      results := results + [ThenRaw(ToObjects(out, UsizeIntoPy, StrIntoPy))];
      i := i + 1;
    }
  }
}
