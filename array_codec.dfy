/** The current revision of the shared_array<const void> caster (src/pvxs_types.hpp): an
    untyped pvxs array whose element type is known only at run time, converted to and from
    Python. Python buffers map to exactly one of ten numeric kinds; plain sequences take their
    kind from their first item; numeric and bool arrays become array.array copies, string
    arrays become lists of str. */
module ArrayCodec {
  import opened Marshal

  const ConversionNotImplemented := "Conversion not yet implemented."
  const CastNotImplemented := "Cast not yet implemented."

  /** load_from_python_array: a buffer that is not one-dimensional is declined before its item
      type is looked at; a one-dimensional buffer of one of the ten numeric item types becomes
      an array of exactly that kind holding its shape[0] items in order (make_shared_array);
      any other item type throws. */
  function LoadFromPythonArray(src: PyObject): (r: LoadOutcome)
    requires src.PyBuffer?
    ensures src.ndim != 1 ==> r == Declined
    ensures src.ndim == 1 && src.format.Item? ==>
      r == Loaded(SharedArray(ArrayTypeOf(src.format.t), src.elems))
    ensures src.ndim == 1 && src.format.Unsupported? ==>
      r == Raised(RuntimeError(ConversionNotImplemented))
  {
    if src.ndim != 1 then Declined
    else if src.format == Item(U8) then Loaded(SharedArray(UInt8, src.elems))
    else if src.format == Item(U16) then Loaded(SharedArray(UInt16, src.elems))
    else if src.format == Item(U32) then Loaded(SharedArray(UInt32, src.elems))
    else if src.format == Item(U64) then Loaded(SharedArray(UInt64, src.elems))
    else if src.format == Item(I8) then Loaded(SharedArray(Int8, src.elems))
    else if src.format == Item(I16) then Loaded(SharedArray(Int16, src.elems))
    else if src.format == Item(I32) then Loaded(SharedArray(Int32, src.elems))
    else if src.format == Item(I64) then Loaded(SharedArray(Int64, src.elems))
    else if src.format == Item(F32) then Loaded(SharedArray(Float32, src.elems))
    else if src.format == Item(F64) then Loaded(SharedArray(Float64, src.elems))
    else Raised(RuntimeError(ConversionNotImplemented))
  }

  /** load_from_python_seq<T>: the whole sequence is cast to std::vector<T>; if any item fails
      to convert, the exception is caught and nothing is loaded; otherwise every converted item
      is copied, in order, into an array of T's kind. */
  function LoadFromPythonSeq(t: VectorType, src: PyObject): (r: Option<SharedArray>)
    requires IsSequence(src)
    ensures r.None? <==> src.PyStr? || exists i :: 0 <= i < |SeqItems(src)| && CastItem(t, SeqItems(src)[i]).None?
    ensures r.Some? ==> r.value.kind == VectorKind(t) && |r.value.elems| == |SeqItems(src)|
    ensures r.Some? ==> forall i :: 0 <= i < |SeqItems(src)| ==> CastItem(t, SeqItems(src)[i]) == Some(r.value.elems[i])
  {
    match CastVector(t, src)
    case None => None
    case Some(es) => Some(SharedArray(VectorKind(t), es))
  }

  function FromSeq(r: Option<SharedArray>): LoadOutcome {
    match r
    case None => Declined
    case Some(a) => Loaded(a)
  }

  /** type_caster<shared_array<const void>>::load as a function of its argument. A buffer goes
      to LoadFromPythonArray. For any other sequence only item 0 is examined (indexing an empty
      sequence raises IndexError): an int selects int64_t, a float double, a str std::string,
      anything else declines. Anything else declines. */
  function Decode(src: PyObject): LoadOutcome {
    if src.PyBuffer? then LoadFromPythonArray(src)
    else if IsSequence(src) then
      var items := SeqItems(src);
      if |items| == 0 then Raised(IndexError)
      else if items[0].PyInt? then FromSeq(LoadFromPythonSeq(OfNumber(I64), src))
      else if items[0].PyFloat? then FromSeq(LoadFromPythonSeq(OfNumber(F64), src))
      else if items[0].PyStr? then FromSeq(LoadFromPythonSeq(OfString, src))
      else Declined
    else Declined
  }

  /** make_python_array<T>: an array.array of T's typecode holding the array's elements. */
  function MakePythonArray(t: CType, sa: SharedArray): (o: PyObject)
    ensures o.PyBuffer? && o.ndim == 1 && o.format == Item(t) && o.elems == sa.elems
    ensures IsSequence(o) && SeqItems(o) == ElemsToPy(sa.elems)
  {
    PyBuffer(1, Item(t), sa.elems)
  }

  /** cast_to_python_array: dispatch on the original type only. Each numeric kind gives an
      array.array of the same element type; Bool gives one of uint8_t; every other kind throws. */
  function CastToPythonArray(sa: SharedArray): (r: Result<PyObject, PyError>)
    ensures sa.kind == Bool ==> r == Ok(MakePythonArray(U8, sa))
    ensures forall t :: sa.kind == ArrayTypeOf(t) ==> r == Ok(MakePythonArray(t, sa))
    ensures sa.kind == String || sa.kind == Null || sa.kind == Value ==>
      r == Err(RuntimeError(CastNotImplemented))
  {
    match sa.kind
    case Bool => Ok(MakePythonArray(U8, sa))
    case UInt8 => Ok(MakePythonArray(U8, sa))
    case UInt16 => Ok(MakePythonArray(U16, sa))
    case UInt32 => Ok(MakePythonArray(U32, sa))
    case UInt64 => Ok(MakePythonArray(U64, sa))
    case Int8 => Ok(MakePythonArray(I8, sa))
    case Int16 => Ok(MakePythonArray(I16, sa))
    case Int32 => Ok(MakePythonArray(I32, sa))
    case Int64 => Ok(MakePythonArray(I64, sa))
    case Float32 => Ok(MakePythonArray(F32, sa))
    case Float64 => Ok(MakePythonArray(F64, sa))
    case _ => Err(RuntimeError(CastNotImplemented))
  }

  /** type_caster<shared_array<const void>>::cast as a function of its argument: a String array
      becomes a list of its strings, every other kind goes through CastToPythonArray. */
  function Encode(sa: SharedArray): Result<PyObject, PyError> {
    if sa.kind == String then Ok(PyList(ElemsToPy(sa.elems))) else CastToPythonArray(sa)
  }

  /** A String array holds strings only. */
  predicate AllStrings(es: seq<Elem>) {
    forall i :: 0 <= i < |es| ==> es[i].StrE?
  }

  /** type_caster<shared_array<const void>>: the caster object pybind11 creates for one
      conversion, with the `value` field that load() fills. */
  class VoidArrayCaster {
    var value: SharedArray

    constructor ()
      ensures value == EmptyArray
    {
      value := EmptyArray;
    }

    /** cast: string arrays are appended item by item to a fresh list. */
    static method Cast(sa: SharedArray) returns (r: Result<PyObject, PyError>)
      ensures r == Encode(sa)
    {
      if sa.kind == String {
        var list: seq<PyObject> := [];
        for i := 0 to |sa.elems|
          invariant |list| == i
          invariant forall j :: 0 <= j < i ==> list[j] == ElemToPy(sa.elems[j])
        {
          list := list + [ElemToPy(sa.elems[i])];
        }
        assert list == ElemsToPy(sa.elems);
        r := Ok(PyList(list));
      } else {
        r := CastToPythonArray(sa);
      }
    }

    /** load: writes the loaded array into `value` and returns true, returns false leaving
      `value` alone, or throws. */
    method Load(src: PyObject) returns (r: Result<bool, PyError>)
      modifies this
      ensures LoadEffect(Decode(src), old(value), r, value)
    {
      var outcome: LoadOutcome;
      if src.PyBuffer? {
        outcome := LoadFromPythonArray(src);
      } else if IsSequence(src) {
        var items := SeqItems(src);
        if |items| == 0 {
          outcome := Raised(IndexError);
        } else if items[0].PyInt? {
          outcome := FromSeq(LoadFromPythonSeq(OfNumber(I64), src));
        } else if items[0].PyFloat? {
          outcome := FromSeq(LoadFromPythonSeq(OfNumber(F64), src));
        } else if items[0].PyStr? {
          outcome := FromSeq(LoadFromPythonSeq(OfString, src));
        } else {
          outcome := Declined;
        }
      } else {
        outcome := Declined;
      }
      match outcome
      case Declined => r := Ok(false);
      case Loaded(a) => value := a; r := Ok(true);
      case Raised(e) => r := Err(e);
    }
  }

  // ---------------------------------------------------------------------------------------
  // Properties of the codec

  /** Encoding then decoding an array of any of the ten numeric kinds gives back the same
      kind and the same elements in order. */
  lemma {:induction false} NumericRoundTrip(sa: SharedArray)
    requires IsNumeric(sa.kind)
    ensures Encode(sa).Ok? && Encode(sa).value.PyBuffer?
    ensures Decode(Encode(sa).value) == Loaded(sa)
  {
    ArrayTypeOfOnto(sa.kind);
    var t :| ArrayTypeOf(t) == sa.kind;
    assert Encode(sa) == Ok(MakePythonArray(t, sa));
  }

  /** A Bool array comes back as a UInt8 array with the same elements, not as Bool. */
  lemma BoolRoundTripIsUInt8(sa: SharedArray)
    requires sa.kind == Bool
    ensures Decode(Encode(sa).value) == Loaded(SharedArray(UInt8, sa.elems))
  {
  }

  /** A non-empty String array survives the list path: the list's first item is a str, so the
      whole list is converted back to strings, in order. */
  lemma {:induction false} StringRoundTrip(sa: SharedArray)
    requires sa.kind == String && AllStrings(sa.elems) && |sa.elems| > 0
    ensures Encode(sa).Ok? && Encode(sa).value.PyList?
    ensures Decode(Encode(sa).value) == Loaded(sa)
  {
    var list := PyList(ElemsToPy(sa.elems));
    var items := SeqItems(list);
    assert items[0] == PyStr(sa.elems[0].s);
    forall i | 0 <= i < |items|
      ensures CastItem(OfString, items[i]) == Some(sa.elems[i])
    {
      assert items[i] == PyStr(sa.elems[i].s);
    }
    var back := LoadFromPythonSeq(OfString, list);
    assert back.Some?;
    assert back.value.elems == sa.elems;
  }

  /** An empty String array encodes to an empty list, which load() cannot index: the round
      trip raises IndexError. */
  lemma EmptyStringArrayDoesNotRoundTrip(sa: SharedArray)
    requires sa.kind == String && sa.elems == []
    ensures Encode(sa) == Ok(PyList([]))
    ensures Decode(Encode(sa).value) == Raised(IndexError)
  {
  }

  /** Decoding a sequence whose first item is an int yields an Int64 array exactly when every
      item is an int in the int64 range, then holding those integers in order; otherwise it
      declines. */
  lemma {:induction false} IntSequenceDecodesToInt64(items: seq<PyObject>)
    requires |items| > 0 && items[0].PyInt?
    ensures Decode(PyList(items)).Loaded? || Decode(PyList(items)) == Declined
    ensures Decode(PyList(items)).Loaded? <==> forall i :: 0 <= i < |items| ==> items[i].PyInt? && InRange(I64, items[i].i)
    ensures (forall i :: 0 <= i < |items| ==> items[i].PyInt? && InRange(I64, items[i].i)) ==>
      Decode(PyList(items)) == Loaded(SharedArray(Int64, seq(|items|, i requires 0 <= i < |items| => IntE(items[i].i))))
  {
    var src := PyList(items);
    if forall i :: 0 <= i < |items| ==> items[i].PyInt? && InRange(I64, items[i].i) {
      var want := seq(|items|, i requires 0 <= i < |items| => IntE(items[i].i));
      forall i | 0 <= i < |items| ensures CastItem(OfNumber(I64), items[i]) == Some(want[i]) { }
      var r := LoadFromPythonSeq(OfNumber(I64), src);
      assert r.Some?;
      assert r.value.elems == want;
    }
  }

  /** Decoding a sequence whose first item is a float yields a Float64 array exactly when every
      item is a float or an int that converts to a double; the floats are kept as they are. */
  lemma {:induction false} FloatSequenceDecodesToFloat64(items: seq<PyObject>)
    requires |items| > 0 && items[0].PyFloat?
    ensures Decode(PyList(items)).Loaded? || Decode(PyList(items)) == Declined
    ensures Decode(PyList(items)).Loaded? <==>
      forall i :: 0 <= i < |items| ==> items[i].PyFloat? || (items[i].PyInt? && FitsDouble(items[i].i))
    ensures Decode(PyList(items)).Loaded? ==>
      var a := Decode(PyList(items)).result;
      a.kind == Float64 && |a.elems| == |items| &&
      forall i :: 0 <= i < |items| && items[i].PyFloat? ==> a.elems[i] == RealE(items[i].f)
  {
    var r := LoadFromPythonSeq(OfNumber(F64), PyList(items));
    if r.Some? {
      forall i | 0 <= i < |items| && items[i].PyFloat? ensures r.value.elems[i] == RealE(items[i].f) {
        assert CastItem(OfNumber(F64), items[i]) == Some(r.value.elems[i]);
      }
    }
  }

  /** Decoding a sequence whose first item is a str yields a String array exactly when every
      item is a str, then holding those strings in order; otherwise it declines. */
  lemma {:induction false} StrSequenceDecodesToString(items: seq<PyObject>)
    requires |items| > 0 && items[0].PyStr?
    ensures Decode(PyList(items)).Loaded? || Decode(PyList(items)) == Declined
    ensures Decode(PyList(items)).Loaded? <==> forall i :: 0 <= i < |items| ==> items[i].PyStr?
    ensures Decode(PyList(items)).Loaded? ==>
      var a := Decode(PyList(items)).result;
      a.kind == String && |a.elems| == |items| &&
      forall i :: 0 <= i < |items| ==> items[i].PyStr? && a.elems[i] == StrE(items[i].s)
  {
    var r := LoadFromPythonSeq(OfString, PyList(items));
    if r.Some? {
      forall i | 0 <= i < |items| ensures items[i].PyStr? && r.value.elems[i] == StrE(items[i].s) {
        assert CastItem(OfString, items[i]) == Some(r.value.elems[i]);
      }
    }
  }

  /** A sequence that is not a buffer is classified by item 0 alone: an item 0 that is not an
      int, float or str declines whatever the other items are. */
  lemma FirstItemDecides(items: seq<PyObject>)
    requires |items| > 0 && !(items[0].PyInt? || items[0].PyFloat? || items[0].PyStr?)
    ensures Decode(PyList(items)) == Declined
  {
  }

  /** A str is a sequence, but the list caster refuses it: a non-empty str declines and an empty
      one raises IndexError. */
  lemma StrArgument(s: string)
    ensures Decode(PyStr(s)) == if s == [] then Raised(IndexError) else Declined
  {
  }

  /** The kind Decode produces for a buffer is never a widening: it is the buffer's own item type. */
  lemma DecodeBufferKind(src: PyObject)
    requires src.PyBuffer? && Decode(src).Loaded?
    ensures src.ndim == 1 && src.format.Item?
    ensures Decode(src).result == SharedArray(ArrayTypeOf(src.format.t), src.elems)
  {
  }
}
