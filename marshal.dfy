/** Vocabulary shared by both revisions of the array casters: the pvxs side (untyped arrays
    tagged with their original element type) and the Python side (the objects the casters
    receive and build), with pybind11's element-by-element conversion of a Python sequence
    into a std::vector. */
module Marshal {

  datatype Option<T> = None | Some(value: T)

  datatype Result<T, E> = Ok(value: T) | Err(error: E)

  /** A binary32 or binary64 value. It is kept opaque: no arithmetic is done on it.
      NearestTo(i) stands for the double that a Python int i converts to. */
  datatype Float = Token(id: nat) | NearestTo(i: int)

  /** One array element: a machine integer (bool as 0/1), a floating-point value or a string. */
  datatype Elem = IntE(i: int) | RealE(f: Float) | StrE(s: string)

  /** The ten C++ numeric element types T of shared_array<const T>. */
  datatype CType = U8 | U16 | U32 | U64 | I8 | I16 | I32 | I64 | F32 | F64

  /** pvxs ArrayType: the original element type that a shared_array<const void> remembers.
      Null is the type of a default-constructed (empty) array, Value that of an array of structures. */
  datatype ArrayType =
    | Null | Bool
    | Int8 | Int16 | Int32 | Int64
    | UInt8 | UInt16 | UInt32 | UInt64
    | Float32 | Float64 | String | Value

  /** A shared_array<const void>: its original element type and its elements in order. */
  datatype SharedArray = SharedArray(kind: ArrayType, elems: seq<Elem>)

  const EmptyArray := SharedArray(Null, [])

  /** The ArrayType that shared_array<const T>::castTo<const void>() records. */
  function ArrayTypeOf(t: CType): (k: ArrayType)
    ensures k != Null && k != Bool && k != String && k != Value
  {
    match t
    case U8 => UInt8
    case U16 => UInt16
    case U32 => UInt32
    case U64 => UInt64
    case I8 => Int8
    case I16 => Int16
    case I32 => Int32
    case I64 => Int64
    case F32 => Float32
    case F64 => Float64
  }

  /** The ten element kinds for which a numeric C++ element type exists. */
  predicate IsNumeric(k: ArrayType) {
    !(k == Null || k == Bool || k == String || k == Value)
  }

  lemma ArrayTypeOfInjective(t: CType, u: CType)
    ensures ArrayTypeOf(t) == ArrayTypeOf(u) <==> t == u
  {
  }

  lemma {:induction false} ArrayTypeOfOnto(k: ArrayType)
    requires IsNumeric(k)
    ensures exists t :: ArrayTypeOf(t) == k
  {
    var t := match k
      case UInt8 => U8 case UInt16 => U16 case UInt32 => U32 case UInt64 => U64
      case Int8 => I8 case Int16 => I16 case Int32 => I32 case Int64 => I64
      case Float32 => F32 case _ => F64;
    assert ArrayTypeOf(t) == k;
  }

  predicate IsFloating(t: CType) { t == F32 || t == F64 }

  /** The range of values of an integer C++ type; unused for floating types. */
  function MinOf(t: CType): int {
    match t
    case I8 => -0x80
    case I16 => -0x8000
    case I32 => -0x8000_0000
    case I64 => -0x8000_0000_0000_0000
    case _ => 0
  }

  function MaxOf(t: CType): int {
    match t
    case U8 => 0xff
    case U16 => 0xffff
    case U32 => 0xffff_ffff
    case U64 => 0xffff_ffff_ffff_ffff
    case I8 => 0x7f
    case I16 => 0x7fff
    case I32 => 0x7fff_ffff
    case I64 => 0x7fff_ffff_ffff_ffff
    case _ => 0
  }

  predicate InRange(t: CType, i: int) { MinOf(t) <= i <= MaxOf(t) }

  /** 2^1024 - 2^970: the least magnitude at which a Python int rounds past the largest finite
      double, so that converting it to a float raises OverflowError. */
  const DoubleOverflow: int := 0xfffffffffffffc00000000000000000000000000000000000000000000000000000000000000000000000000000000000000000000000000000000000000000000000000000000000000000000000000000000000000000000000000000000000000000000000000000000000000000000000000000000000000000000000000

  /** A Python int that converts to a double. */
  predicate FitsDouble(i: int) { -DoubleOverflow < i < DoubleOverflow }

  /** Item format of a Python buffer: one of the ten numeric types (what
      buffer_info::item_type_is_equivalent_to<T>() recognises) or anything else
      ('?', 'c', 'e', structured formats, ...). */
  datatype Format = Item(t: CType) | Unsupported(code: string)

  /** The Python objects the casters see.
      PyList: a list or tuple (a sequence without the buffer protocol).
      PyBuffer: an exporter of the buffer protocol (array.array, memoryview, numpy array) with
      its dimension count, item format and items; for ndim == 1, shape[0] == |elems|.
      PyOther: anything that is neither a buffer nor a sequence (None, dict, ...). */
  datatype PyObject =
    | PyInt(i: int)
    | PyFloat(f: Float)
    | PyStr(s: string)
    | PyList(items: seq<PyObject>)
    | PyBuffer(ndim: nat, format: Format, elems: seq<Elem>)
    | PyOther

  datatype PyError = RuntimeError(msg: string) | IndexError | CastError

  /** What a type_caster load() does: return false, return true having stored an array, or throw. */
  datatype LoadOutcome = Declined | Loaded(result: SharedArray) | Raised(error: PyError)

  /** How a caster's load() leaves its result and its `value` field for a given outcome. */
  ghost predicate LoadEffect(o: LoadOutcome, before: SharedArray, r: Result<bool, PyError>, after: SharedArray) {
    match o
    case Declined => r == Ok(false) && after == before
    case Loaded(a) => r == Ok(true) && after == a
    case Raised(e) => r == Err(e) && after == before
  }

  /** The Python object py::list::append makes of one C++ element. */
  function ElemToPy(e: Elem): PyObject {
    match e
    case IntE(i) => PyInt(i)
    case RealE(f) => PyFloat(f)
    case StrE(s) => PyStr(s)
  }

  function ElemsToPy(es: seq<Elem>): (os: seq<PyObject>)
    ensures |os| == |es|
    ensures forall i :: 0 <= i < |es| ==> os[i] == ElemToPy(es[i])
  {
    seq(|es|, i requires 0 <= i < |es| => ElemToPy(es[i]))
  }

  /** py::isinstance<py::sequence>: lists, tuples, str and (one-dimensional) buffers. */
  predicate IsSequence(o: PyObject) {
    o.PyList? || o.PyStr? || (o.PyBuffer? && o.ndim == 1)
  }

  /** The items that indexing or iterating a sequence yields. */
  function SeqItems(o: PyObject): (items: seq<PyObject>)
    requires IsSequence(o)
    ensures o.PyStr? ==> |items| == |o.s|
    ensures o.PyBuffer? ==> |items| == |o.elems|
  {
    match o
    case PyList(items) => items
    case PyStr(s) => seq(|s|, i requires 0 <= i < |s| => PyStr([s[i]]))
    case PyBuffer(_, _, elems) => ElemsToPy(elems)
  }

  /** The element type T of a std::vector<T> that a Python sequence is cast to. */
  datatype VectorType = OfNumber(t: CType) | OfString

  /** The ArrayType a shared_array<const T> built from a std::vector<T> records. */
  function VectorKind(t: VectorType): ArrayType {
    match t
    case OfNumber(c) => ArrayTypeOf(c)
    case OfString => String
  }

  /** pybind11's conversion of one item, implicit conversions allowed: an int fits an integer
      type when in range, and converts to a floating type unless it overflows a double (the
      float caster then clears the OverflowError and reports failure); a float converts only
      to a floating type; a str converts only to std::string. */
  function CastItem(t: VectorType, o: PyObject): (r: Option<Elem>)
    ensures t.OfString? ==> r == if o.PyStr? then Some(StrE(o.s)) else None
    ensures t.OfNumber? && !IsFloating(t.t) ==> r == if o.PyInt? && InRange(t.t, o.i) then Some(IntE(o.i)) else None
    ensures t.OfNumber? && IsFloating(t.t) ==> (r.Some? <==> (o.PyInt? && FitsDouble(o.i)) || o.PyFloat?)
    ensures t.OfNumber? && IsFloating(t.t) && o.PyFloat? ==> r == Some(RealE(o.f))
  {
    match (t, o)
    case (OfString, PyStr(s)) => Some(StrE(s))
    case (OfNumber(c), PyInt(i)) =>
      if IsFloating(c) then (if FitsDouble(i) then Some(RealE(NearestTo(i))) else None)
      else if InRange(c, i) then Some(IntE(i))
      else None
    case (OfNumber(c), PyFloat(f)) => if IsFloating(c) then Some(RealE(f)) else None
    case _ => None
  }

  /** Converts every item, failing if any one fails. */
  function CastAll(t: VectorType, items: seq<PyObject>): (r: Option<seq<Elem>>)
    ensures r.Some? <==> forall i :: 0 <= i < |items| ==> CastItem(t, items[i]).Some?
    ensures r.Some? ==> |r.value| == |items|
    ensures r.Some? ==> forall i :: 0 <= i < |items| ==> Some(r.value[i]) == CastItem(t, items[i])
  {
    if items == [] then Some([])
    else
      match CastItem(t, items[0])
      case None => None
      case Some(e) =>
        match CastAll(t, items[1..])
        case None => None
        case Some(rest) => Some([e] + rest)
  }

  /** src.cast<std::vector<T>>(): pybind11's list caster refuses a str outright, and otherwise
      converts each item in order. */
  function CastVector(t: VectorType, o: PyObject): (r: Option<seq<Elem>>)
    requires IsSequence(o)
  {
    if o.PyStr? then None else CastAll(t, SeqItems(o))
  }
}
