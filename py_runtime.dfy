/** The slice of the Python runtime that the iterator adapter touches:
    objects, the owned pointers handed back through the C ABI, the one
    exception kind the adapter raises, `PyResult`, and the `IntoPy`
    conversions the doc example relies on.  Reference counting and the
    object layout are not modelled: a pointer is identified with the
    object it refers to. */
module PyRuntime {

  /** Rust's `usize` on a 64-bit target. */
  newtype Usize = x: int | 0 <= x < 0x1_0000_0000_0000_0000

  /** Rust's `Option<T>`. */
  datatype Option<T> = None | Some(value: T)

  /** A Python object, told apart only as far as this model needs:
      the `None` singleton, an `int`, a `str`, and any other object by
      an identity. */
  datatype PyObject = PyNone | PyInt(i: int) | PyStr(s: string) | Opaque(handle: nat)

  /** A non-null `*mut ffi::PyObject` that owns one reference. */
  datatype Ptr = Owned(referent: PyObject)

  /** `IntoPyPointer::into_ptr`: give up the Rust handle, keep the reference. */
  function IntoPtr(o: PyObject): Ptr
  {
    Owned(o)
  }

  /** A Python exception. The adapter raises only `StopIteration`, built
      from its argument tuple. */
  datatype PyErr = StopIteration(args: seq<PyObject>)

  /** `PyResult<A>`: a value, or an exception to be set as pending. */
  datatype PyResult<A> = Ok(value: A) | Err(error: PyErr)

  /** The `value` attribute CPython gives a `StopIteration`: its first
      argument, or `None` when it was raised without arguments. */
  function StopIterationValue(e: PyErr): PyObject
  {
    if |e.args| > 0 then e.args[0] else PyNone
  }

  /** `IntoPy<PyObject>` for `usize`: a Python `int`. */
  function UsizeIntoPy(n: Usize): PyObject
  {
    PyInt(n as int)
  }

  /** `IntoPy<PyObject>` for `&str`: a Python `str`. */
  function StrIntoPy(s: string): PyObject
  {
    PyStr(s)
  }

  /** `IntoPy<PyObject>` for `()`: Python's `None`. */
  function UnitIntoPy(u: ()): PyObject
  {
    PyNone
  }

  /** `IntoPy<PyObject>` for `PyObject`: the object itself. */
  function ObjectIntoPy(o: PyObject): PyObject
  {
    o
  }
}
