/** Python's iterator protocol as PyO3 adapts it: the outcome of a
    `__next__` call, the conversions that carry it down to the raw
    result of the `tp_iternext` slot, and the slots a class registers. */
module IterProtocol {
  import opened PyRuntime

  // ---------------------------------------------------------------
  // Outcome of one `__next__` call
  // ---------------------------------------------------------------

  /** `IterNextOutput<T, U>`: either the next item, or the end of the
      iteration with a value to raise `StopIteration` with. */
  datatype IterNextOutput<T, U> = Yield(yielded: T) | Return(returned: U)

  /** `PyIterNextOutput`: the outcome with both payloads already Python objects. */
  type PyIterNextOutput = IterNextOutput<PyObject, PyObject>

  /** `IntoPyCallbackOutput<*mut ffi::PyObject>` for `PyIterNextOutput`:
      an item becomes the returned pointer; the end of the iteration
      becomes a `StopIteration` whose argument tuple holds exactly the
      returned object, so a tuple payload is never spread into several
      arguments. */
  function RawResult(out: PyIterNextOutput): (r: PyResult<Ptr>)
    ensures r.Ok? <==> out.Yield?
    ensures r.Ok? ==> r.value.referent == out.yielded
    ensures r.Err? ==> r.error.StopIteration? && r.error.args == [out.returned]
  {
    match out
    case Yield(o) => Ok(IntoPtr(o))
    case Return(opt) => Err(StopIteration([opt]))
  }

  /** How the interpreter reads what `tp_iternext` handed back: a pointer
      is the next item; a pending `StopIteration` ends the iteration, and
      its `value` is what a generator-style caller receives. */
  function HostReading(r: PyResult<Ptr>): PyIterNextOutput
  {
    match r
    case Ok(p) => Yield(p.referent)
    case Err(e) => Return(StopIterationValue(e))
  }

  /** The raw result loses nothing: the interpreter recovers the very
      outcome it was built from, although the raw form carries no tag. */
  lemma RawResultRoundTrip(out: PyIterNextOutput)
    ensures HostReading(RawResult(out)) == out
  {
  }

  /** Distinct outcomes give distinct raw results, and in particular an
      item is never mistaken for the end of the iteration. */
  lemma RawResultInjective(a: PyIterNextOutput, b: PyIterNextOutput)
    ensures RawResult(a) == RawResult(b) <==> a == b
  {
  }

  /** `IntoPyCallbackOutput<PyIterNextOutput>` for `IterNextOutput<T, U>`:
      converts whichever payload is present with its `into_py` and keeps
      the variant. It cannot fail. */
  function ToObjects<T, U>(out: IterNextOutput<T, U>, intoT: T -> PyObject, intoU: U -> PyObject)
    : (r: PyResult<PyIterNextOutput>)
    ensures r.Ok?
    ensures r.value.Yield? <==> out.Yield?
    ensures out.Yield? ==> r.value.yielded == intoT(out.yielded)
    ensures out.Return? ==> r.value.returned == intoU(out.returned)
  {
    match out
    case Yield(o) => Ok(Yield(intoT(o)))
    case Return(o) => Ok(Return(intoU(o)))
  }

  /** An outcome whose payloads are already objects passes through unchanged. */
  lemma ObjectOutputUnchanged(out: PyIterNextOutput)
    ensures ToObjects(out, ObjectIntoPy, ObjectIntoPy) == Ok(out)
  {
  }

  /** `IntoPyCallbackOutput<PyIterNextOutput>` for `Option<T>`: `Some`
      is the next item, `None` ends the iteration with Python's `None`.
      It cannot fail. */
  function OptionToObjects<T>(opt: Option<T>, intoT: T -> PyObject): (r: PyResult<PyIterNextOutput>)
    ensures r.Ok?
    ensures r.value.Yield? <==> opt.Some?
    ensures opt.Some? ==> r.value.yielded == intoT(opt.value)
    ensures opt.None? ==> r.value.returned == PyNone
  {
    match opt
    case Some(o) => Ok(Yield(intoT(o)))
    case None => Ok(Return(PyNone))
  }

  /** The explicit outcome an `Option` stands for: `Some(v)` is
      `Yield(v)` and `None` is `Return(())`. */
  function OptionAsOutput<T>(opt: Option<T>): IterNextOutput<T, ()>
  {
    match opt
    case Some(v) => Yield(v)
    case None => Return(())
  }

  /** Returning an `Option` from `__next__` is the same as returning the
      explicit outcome it stands for, with `()` converted to `None`. */
  lemma OptionMatchesExplicitOutput<T>(opt: Option<T>, intoT: T -> PyObject)
    ensures OptionToObjects(opt, intoT) == ToObjects(OptionAsOutput(opt), intoT, UnitIntoPy)
  {
  }

  /** The two conversions in sequence, as the callback machinery applies
      them: an error from the first is passed on, a converted outcome
      goes on to the raw result. */
  function ThenRaw(r: PyResult<PyIterNextOutput>): PyResult<Ptr>
  {
    match r
    case Ok(out) => RawResult(out)
    case Err(e) => Err(e)
  }

  /** End to end, a typed outcome becomes the pointer to its converted
      item, or a `StopIteration` carrying its converted return value, and
      the interpreter reads back the object-level outcome. */
  lemma OutputToRaw<T, U>(out: IterNextOutput<T, U>, intoT: T -> PyObject, intoU: U -> PyObject)
    ensures out.Yield? ==> ThenRaw(ToObjects(out, intoT, intoU)) == Ok(Owned(intoT(out.yielded)))
    ensures out.Return? ==> ThenRaw(ToObjects(out, intoT, intoU)) == Err(StopIteration([intoU(out.returned)]))
    ensures HostReading(ThenRaw(ToObjects(out, intoT, intoU))) == ToObjects(out, intoT, intoU).value
  {
  }

  /** End to end, `Some(v)` becomes the pointer to `v`'s object, and
      `None` raises `StopIteration(None)` exactly as an explicit
      `Return(None)` does. */
  lemma OptionToRaw<T>(opt: Option<T>, intoT: T -> PyObject)
    ensures opt.Some? ==> ThenRaw(OptionToObjects(opt, intoT)) == Ok(Owned(intoT(opt.value)))
    ensures opt.None? ==> ThenRaw(OptionToObjects(opt, intoT)) == Err(StopIteration([PyNone]))
    ensures opt.None? ==> ThenRaw(OptionToObjects(opt, intoT)) == RawResult(Return(PyNone))
  {
  }

  // ---------------------------------------------------------------
  // Type slots
  // ---------------------------------------------------------------

  /** The two protocol methods a class may define. */
  datatype IterMethod = DunderIter | DunderNext

  /** Which sub-protocols a class implements: `PyIterIterProtocol`
      (it defines `__iter__`) and `PyIterNextProtocol` (`__next__`). */
  datatype Implements = Implements(iterProtocol: bool, nextProtocol: bool)

  /** CPython's slot ids, from `typeslots.h`. */
  const PY_TP_ITER: int := 62
  const PY_TP_ITERNEXT: int := 63

  /** `ffi::PyType_Slot`: a slot id and the trampoline generated around
      one protocol method, named here by that method. */
  datatype TypeSlot = TypeSlot(slot: int, pfunc: IterMethod)

  /** The method CPython reaches through a slot: `iter()` goes through
      `tp_iter` to `__iter__`, `next()` through `tp_iternext` to `__next__`. */
  function HostSlotMethod(slot: int): Option<IterMethod>
  {
    if slot == PY_TP_ITER then Some(DunderIter)
    else if slot == PY_TP_ITERNEXT then Some(DunderNext)
    else None
  }

  /** `PyIterSlots::get_iter`, available only to a class implementing
      `PyIterIterProtocol`: the slot through which `iter()` reaches `__iter__`. */
  function GetIter(impls: Implements): (s: TypeSlot)
    requires impls.iterProtocol
    ensures s.pfunc == DunderIter
    ensures HostSlotMethod(s.slot) == Some(s.pfunc)
  {
    TypeSlot(PY_TP_ITER, DunderIter)
  }

  /** `PyIterSlots::get_iternext`, available only to a class implementing
      `PyIterNextProtocol`: the slot through which `next()` reaches `__next__`. */
  function GetIterNext(impls: Implements): (s: TypeSlot)
    requires impls.nextProtocol
    ensures s.pfunc == DunderNext
    ensures HostSlotMethod(s.slot) == Some(s.pfunc)
  {
    TypeSlot(PY_TP_ITERNEXT, DunderNext)
  }

  /** The iterator slots a class registers: one per sub-protocol it
      implements, none for the others. */
  function SlotTable(impls: Implements): seq<TypeSlot>
  {
    (if impls.iterProtocol then [GetIter(impls)] else [])
    + (if impls.nextProtocol then [GetIterNext(impls)] else [])
  }

  /** The method registered under `slot`, if any (first entry wins). */
  function Lookup(table: seq<TypeSlot>, slot: int): (r: Option<IterMethod>)
    ensures r.None? <==> forall i :: 0 <= i < |table| ==> table[i].slot != slot
    ensures r.Some? ==> exists i :: 0 <= i < |table| && table[i].slot == slot && table[i].pfunc == r.value
                                   && forall j :: 0 <= j < i ==> table[j].slot != slot
  {
    if |table| == 0 then None
    else if table[0].slot == slot then Some(table[0].pfunc)
    else Lookup(table[1..], slot)
  }

  /** A class's slot table holds an iterator slot exactly when the class
      implements the matching sub-protocol; an undeclared method has no
      entry at all, and every entry leads to the method CPython expects
      behind that slot. */
  lemma SlotTableMatchesDeclaration(impls: Implements, slot: int)
    ensures Lookup(SlotTable(impls), PY_TP_ITER) == if impls.iterProtocol then Some(DunderIter) else None
    ensures Lookup(SlotTable(impls), PY_TP_ITERNEXT) == if impls.nextProtocol then Some(DunderNext) else None
    ensures Lookup(SlotTable(impls), slot).Some? ==> Lookup(SlotTable(impls), slot) == HostSlotMethod(slot)
  {
  }
}
