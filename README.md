# PyO3 iterator protocol: outcome model

A Dafny model of how PyO3 lets a Rust `#[pyclass]` act as a Python
iterator (`src/class/iter.rs`). A class's `__next__` returns an
`IterNextOutput<T, U>`, which is either `Yield(item)` or `Return(value)`,
or it returns an `Option<T>`. PyO3 converts that outcome in two steps:

1. The payloads are turned into Python objects with `into_py`, which
   gives a `PyIterNextOutput`.
2. That object-level outcome becomes the raw result of the `tp_iternext`
   slot. An item becomes an owned object pointer. The end of the
   iteration becomes a pending `StopIteration` whose argument tuple is
   `(value,)`.

The model also covers two more parts of the file:

- The type slots the protocol registers. `tp_iter` leads to `__iter__`
  and `tp_iternext` leads to `__next__`.
- The documentation's example iterator. It counts from 0, yields 1 to 5,
  then raises `StopIteration("Ended")`.

Files:

- `py_runtime.dfy` (module `PyRuntime`): Python objects, owned pointers,
  `StopIteration`, `PyResult`, Rust's `usize` and `Option`, and the
  `IntoPy` conversions the example needs (`usize` to `int`, `&str` to
  `str`, `()` to `None`, `PyObject` to itself).
- `iter_protocol.dfy` (module `IterProtocol`): `IterNextOutput`, the
  three `convert` implementations, the host's reading of a raw result,
  and the slots.
- `iter_example.dfy` (module `IterExample`): the example `Iter` class,
  whose `count` field `Next` updates in place, and a session of `next()`
  calls on a fresh instance.

The three conversions are pure `match` expressions, so they are modelled
as functions:

- `RawResult` is paired with an independent reading, `HostReading`, which
  is how CPython reads a `tp_iternext` result. A pointer is the next
  item. A pending `StopIteration` ends the iteration, and its `value` is
  its first argument, or `None` if it has no arguments. Their round trip
  is proved.
- `ToObjects` has no separate reference; its contract states outright
  that it never fails, keeps the variant, and converts only the present
  payload with that payload type's `into_py`.
- The `Option` conversion is proved equal to `ToObjects` applied to the
  explicit outcome the `Option` stands for.

Separately, the slots `get_iter` and `get_iternext` produce are checked
against `HostSlotMethod`, the method CPython reaches through each slot id.

The example is modelled as the source writes it: `IterNextOutput<usize,
&str>`, ending with `"Ended"`. The `Option` path is covered generically
by `OptionToObjects` and `OptionToRaw`.

## Model

| member | source | states |
|---|---|---|
| `IterProtocol.RawResult` | src/class/iter.rs:110-117 | the raw result is `Ok` exactly for `Yield`; `Ok` carries the pointer to the yielded object; `Return(opt)` always gives `Err(StopIteration)` whose argument tuple is exactly `(opt,)` |
| `IterProtocol.RawResultRoundTrip` | src/class/iter.rs:110-117 | reading the raw result the way the interpreter does gives back the original outcome, although the raw form has no variant tag |
| `IterProtocol.RawResultInjective` | src/class/iter.rs:110-117 | two outcomes give the same raw result only if they are equal, so an item is never confused with the end of the iteration |
| `IterProtocol.ToObjects` | src/class/iter.rs:119-130 | the typed-to-object conversion never fails, keeps the variant, and converts only the payload with that payload type's `into_py` |
| `IterProtocol.ObjectOutputUnchanged` | src/class/iter.rs:108-130 | an outcome whose payloads are already `PyObject`s comes out unchanged |
| `IterProtocol.OptionToObjects` | src/class/iter.rs:132-142 | the `Option` conversion never fails; `Some(o)` gives `Yield(into_py(o))` and `None` gives `Return(None)` |
| `IterProtocol.OptionMatchesExplicitOutput` | src/class/iter.rs:119-142 | returning `Some(v)` or `None` is the same as returning `Yield(v)` or `Return(())`, because `()` converts to `None` |
| `IterProtocol.OutputToRaw` | src/class/iter.rs:110-130 | both conversions together: `Yield(v)` ends as `Ok` pointing at `into_py(v)`, `Return(u)` ends as `Err(StopIteration((into_py(u),)))`, and the interpreter reads back the converted outcome |
| `IterProtocol.OptionToRaw` | src/class/iter.rs:110-142 | both conversions together: `Some(o)` ends as `Ok` pointing at `into_py(o)`; `None` ends as `Err(StopIteration((None,)))`, the same raw result as an explicit `Return(None)` |
| `IterProtocol.GetIter` | src/class/iter.rs:77-85 | `get_iter` exists only for a class implementing `PyIterIterProtocol`, and its slot is `Py_tp_iter`, the slot through which CPython's `iter()` reaches `__iter__` |
| `IterProtocol.GetIterNext` | src/class/iter.rs:86-94 | `get_iternext` exists only for a class implementing `PyIterNextProtocol`, and its slot is `Py_tp_iternext`, the slot through which CPython's `next()` reaches `__next__` |
| `IterProtocol.SlotTableMatchesDeclaration` | src/class/iter.rs:76-97 | a class's table has a `tp_iter` or `tp_iternext` entry exactly when it implements the matching sub-protocol, and every entry leads to the method CPython expects behind that slot |
| `IterExample.Iter.constructor` | src/class/iter.rs:24-27 | a new `Iter` holds the given count |
| `IterExample.Iter.Next` | src/class/iter.rs:31-37 | below 5 the count goes up by one and the new count is yielded; otherwise the count is unchanged and the call returns `"Ended"` |
| `IterExample.AdvanceStaysBounded` | src/class/iter.rs:31-37 | a count that starts at 5 or below stays at 5 or below |
| `IterExample.AdvanceYieldsNewCount` | src/class/iter.rs:32-34 | a call yields exactly when the count is below 5, and what it yields is the new count, one more than the old |
| `IterExample.ExhaustionIsStable` | src/class/iter.rs:35-37 | once a call returns, it returned `"Ended"` and left the count alone, and the next call does the same again |
| `IterExample.Session` | src/class/iter.rs:16-44 | on a fresh `Iter { count: 0 }`, `next()` calls 1 to 5 give the Python ints 1 to 5, and every later call raises `StopIteration("Ended")` |

## Left out

- The `py_unarys_func!` trampoline is not modelled: it does the GIL handling, panic catching, receiver extraction and setting of the pending error, and is defined with PyO3's other slot macros in `src/class/macros.rs`. The slot's function pointer is named only by the protocol method it wraps.
- `TryFromPyCell` and `PyRefMut`, which borrow-check the receiver at run time (`src/derive_utils.rs` and the `PyCell` code), are not modelled. `Iter.Next` receives its object directly.
- Reference counting in `into_ptr` and `into_py` is not modelled. A pointer is identified with the object it refers to.
- How `PyStopIteration::new_err` builds the exception lazily is not modelled. The exception is represented by its argument tuple.
- Python objects are represented only by what the model needs: `None`, `int`, `str`, and an identity for every other object.
- PyO3's callback machinery in `src/callback.rs`, which chains `PyResult` conversions, is not modelled; `ThenRaw` stands in for it by passing an error on and converting an `Ok` outcome to the raw result.
- The default bodies of `__iter__` and `__next__` that call `unimplemented!()` are not modelled. The `where` bounds make them unreachable.
- The blanket `impl PyIterSlots for T` and the `ffi::PyType_Slot` layout are not modelled. `SlotTable` assumes the backend requests exactly the slots whose `where` bound the class meets. The table itself is assembled by the `#[pyproto]` proc-macro backend, which is not modelled.
- The slot ids 62 and 63 are CPython's values for `Py_tp_iter` and `Py_tp_iternext`. They come from CPython's `typeslots.h`, not from this file.
