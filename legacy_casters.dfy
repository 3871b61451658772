/** The earlier revision of the casters (src/pvxs_types.h), the one src/data.cpp includes:
    one caster per numeric element type T, converting shared_array<const T> to a Python list
    and accepting only one-dimensional buffers of exactly T; and a partial caster for
    shared_array<const void> that handles Int64 and Int32 arrays only. */
module LegacyCasters {
  import opened Marshal

  /** The element types SHARED_ARRAY_TYPE_CASTER is instantiated for, in order: the eight
      integer types, then float and double. There is none for bool or std::string. */
  const TypedCasterTypes: seq<CType> := [I8, I16, I32, I64, U8, U16, U32, U64, F32, F64]

  /** The kinds of shared_array<const void> that one of the per-type casters can stand for are
      exactly the ten numeric kinds. */
  lemma {:induction false} TypedCasterKinds(k: ArrayType)
    ensures (exists t :: t in TypedCasterTypes && ArrayTypeOf(t) == k) <==> IsNumeric(k)
  {
    if IsNumeric(k) {
      ArrayTypeOfOnto(k);
      var t :| ArrayTypeOf(t) == k;
      assert t in TypedCasterTypes;
    }
  }

  /** load() of the caster for T: a buffer is accepted only if it is one-dimensional and its
      item type is T, and then yields its shape[0] items in order; plain sequences ("not yet
      supported") and all other objects are declined. */
  function TypedLoad(t: CType, src: PyObject): (r: Option<seq<Elem>>)
    ensures r.Some? <==> src.PyBuffer? && src.ndim == 1 && src.format == Item(t)
    ensures r.Some? ==> r.value == src.elems
  {
    if src.PyBuffer? then
      if src.ndim != 1 then None
      else if src.format != Item(t) then None
      else Some(src.elems)
    else if IsSequence(src) then None
    else None
  }

  /** type_caster<shared_array<const T>> for one T of TypedCasterTypes; `value` holds the
      elements of the shared_array<const T> that load() builds. */
  class TypedArrayCaster {
    const elemType: CType
    var value: seq<Elem>

    constructor (t: CType)
      requires t in TypedCasterTypes
      ensures elemType == t && value == []
    {
      elemType := t;
      value := [];
    }

    /** cast: a fresh list with one item per element, appended in order. */
    static method Cast(arr: seq<Elem>) returns (list: PyObject)
      ensures list.PyList? && |list.items| == |arr|
      ensures forall i :: 0 <= i < |arr| ==> list.items[i] == ElemToPy(arr[i])
    {
      var items: seq<PyObject> := [];
      for i := 0 to |arr|
        invariant |items| == i
        invariant forall j :: 0 <= j < i ==> items[j] == ElemToPy(arr[j])
      {
        items := items + [ElemToPy(arr[i])];
      }
      list := PyList(items);
    }

    /** load: on acceptance `value` is replaced by the buffer's elements; otherwise it is kept. */
    method Load(src: PyObject) returns (ok: bool)
      modifies this
      ensures ok == TypedLoad(elemType, src).Some?
      ensures value == if ok then src.elems else old(value)
    {
      if src.PyBuffer? {
        if src.ndim != 1 {
          return false;
        } else if src.format != Item(elemType) {
          return false;
        }
        value := src.elems;
        return true;
      } else if IsSequence(src) {
        return false;
      } else {
        return false;
      }
    }
  }

  /** cast() of the partial void caster as a function of its argument: the elements of an
      Int64 or Int32 array as Python ints, and an empty list for every other kind. */
  function VoidEncode(sa: SharedArray): PyObject {
    if sa.kind == Int64 || sa.kind == Int32 then PyList(ElemsToPy(sa.elems)) else PyList([])
  }

  /** Every item of a sequence is a Python int. */
  predicate AllInts(items: seq<PyObject>) {
    forall i :: 0 <= i < |items| ==> items[i].PyInt?
  }

  /** load() of the partial void caster, given the caster's current `value`: a non-sequence is
      declined; so is a sequence with an item that is not an int, before anything is
      converted. The ints are then cast to std::vector<int64_t> or std::vector<int32_t> as the
      current value's original type is Int64 or Int32 (the cast throws if an int is out of
      range); for any other current type load() returns true and keeps the current value. */
  function VoidLoad(current: SharedArray, src: PyObject): LoadOutcome {
    if !IsSequence(src) then Declined
    else if !AllInts(SeqItems(src)) then Declined
    else if current.kind == Int64 then
      match CastVector(OfNumber(I64), src)
      case Some(es) => Loaded(SharedArray(Int64, es))
      case None => Raised(CastError)
    else if current.kind == Int32 then
      match CastVector(OfNumber(I32), src)
      case Some(es) => Loaded(SharedArray(Int32, es))
      case None => Raised(CastError)
    else Loaded(current)
  }

  /** type_caster<shared_array<const void>> of this revision. */
  class VoidCaster {
    var value: SharedArray

    /** pybind11 default-constructs a caster for every conversion: `value` is an empty array
        whose original type is Null. */
    constructor ()
      ensures value == EmptyArray
    {
      value := EmptyArray;
    }

    /** cast: Int64 and Int32 arrays are appended element by element; other kinds append nothing. */
    static method Cast(sa: SharedArray) returns (list: PyObject)
      ensures list == VoidEncode(sa)
    {
      var items: seq<PyObject> := [];
      if sa.kind == Int64 {
        for i := 0 to |sa.elems|
          invariant items == ElemsToPy(sa.elems[..i])
        {
          items := items + [ElemToPy(sa.elems[i])];
        }
      } else if sa.kind == Int32 {
        for i := 0 to |sa.elems|
          invariant items == ElemsToPy(sa.elems[..i])
        {
          items := items + [ElemToPy(sa.elems[i])];
        }
      }
      assert sa.elems[..|sa.elems|] == sa.elems;
      list := PyList(items);
    }

    /** load: the validation loop over the items, then the conversion selected by the current
        value's original type. */
    method Load(src: PyObject) returns (r: Result<bool, PyError>)
      modifies this
      ensures LoadEffect(VoidLoad(old(value), src), old(value), r, value)
    {
      if !IsSequence(src) {
        return Ok(false);
      }
      var items := SeqItems(src);
      var i := 0;
      while i < |items|
        invariant 0 <= i <= |items|
        invariant AllInts(items[..i])
      {
        if !items[i].PyInt? {
          assert !AllInts(items);
          return Ok(false);
        }
        i := i + 1;
      }
      assert items[..i] == items;
      if value.kind == Int64 {
        var converted := CastVector(OfNumber(I64), src);
        if converted.None? {
          return Err(CastError);
        }
        value := SharedArray(Int64, converted.value);
      } else if value.kind == Int32 {
        var converted := CastVector(OfNumber(I32), src);
        if converted.None? {
          return Err(CastError);
        }
        value := SharedArray(Int32, converted.value);
      }
      return Ok(true);
    }
  }

  // ---------------------------------------------------------------------------------------
  // Properties

  /** A per-type caster declines every buffer that is not one-dimensional and every buffer
      whose item type is another type, and every non-buffer. */
  lemma TypedLoadRejects(t: CType, src: PyObject)
    requires !src.PyBuffer? || src.ndim != 1 || src.format != Item(t)
    ensures TypedLoad(t, src) == None
  {
  }

  /** What the per-type cast of a loaded buffer gives back: the buffer's items as Python
      numbers, in order. */
  lemma {:induction false} TypedRoundTrip(t: CType, src: PyObject)
    requires TypedLoad(t, src).Some?
    ensures PyList(ElemsToPy(TypedLoad(t, src).value)) == PyList(SeqItems(src))
  {
    assert src.ndim == 1;
  }

  /** A sequence with an item that is not an int is declined whatever the current value. */
  lemma {:induction false} VoidLoadChecksBeforeConverting(current: SharedArray, src: PyObject, k: nat)
    requires IsSequence(src) && k < |SeqItems(src)| && !SeqItems(src)[k].PyInt?
    ensures VoidLoad(current, src) == Declined
  {
    assert !AllInts(SeqItems(src));
  }

  /** With an Int64 (resp. Int32) current value, a list of ints that all fit int64_t (resp.
      int32_t) loads as an array of that kind with those integers in order; a list holding an
      int that does not fit raises. */
  lemma {:induction false} VoidLoadConverts(current: SharedArray, ints: seq<int>)
    requires current.kind == Int64 || current.kind == Int32
    ensures var t := if current.kind == Int64 then I64 else I32;
      var src := PyList(seq(|ints|, i requires 0 <= i < |ints| => PyInt(ints[i])));
      VoidLoad(current, src) ==
        if forall i :: 0 <= i < |ints| ==> InRange(t, ints[i])
        then Loaded(SharedArray(current.kind, seq(|ints|, i requires 0 <= i < |ints| => IntE(ints[i]))))
        else Raised(CastError)
  {
    var t := if current.kind == Int64 then I64 else I32;
    var items := seq(|ints|, i requires 0 <= i < |ints| => PyInt(ints[i]));
    var src := PyList(items);
    assert AllInts(SeqItems(src));
    var r := CastAll(OfNumber(t), items);
    if forall i :: 0 <= i < |ints| ==> InRange(t, ints[i]) {
      assert r.Some?;
      assert r.value == seq(|ints|, i requires 0 <= i < |ints| => IntE(ints[i]));
    } else {
      var k :| 0 <= k < |ints| && !InRange(t, ints[k]);
      assert CastItem(OfNumber(t), items[k]).None?;
    }
  }

  /** For any current value whose original type is neither Int64 nor Int32, an all-int
      sequence makes load() return true without changing the value. */
  lemma VoidLoadKeepsOtherKinds(current: SharedArray, src: PyObject)
    requires current.kind != Int64 && current.kind != Int32
    requires IsSequence(src) && AllInts(SeqItems(src))
    ensures VoidLoad(current, src) == Loaded(current)
  {
  }

  /** The void cast gives, for Int64 and Int32 arrays, the elements in order, and for any
      other kind an empty list. */
  lemma VoidEncodeKinds(sa: SharedArray)
    ensures VoidEncode(sa).PyList?
    ensures sa.kind == Int64 || sa.kind == Int32 ==>
      |VoidEncode(sa).items| == |sa.elems| &&
      forall i :: 0 <= i < |sa.elems| ==> VoidEncode(sa).items[i] == ElemToPy(sa.elems[i])
    ensures sa.kind != Int64 && sa.kind != Int32 ==> VoidEncode(sa).items == []
  {
  }

  // ---------------------------------------------------------------------------------------
  // The void caster's load() as evidently intended

  /** Because pybind11 builds a fresh caster for every conversion, load() always runs with the
      empty Null value: a list of ints loads "successfully" as the empty array, its items lost. */
  lemma FreshVoidCasterDropsItems()
    ensures VoidLoad(EmptyArray, PyList([PyInt(1), PyInt(2), PyInt(3)])) == Loaded(EmptyArray)
  {
  }

  /** load() as intended: a current Int32 value selects int32_t, every other current value
      int64_t (the choice the later revision makes for int sequences); nothing is dropped. */
  function IntendedVoidLoad(current: SharedArray, src: PyObject): LoadOutcome {
    if !IsSequence(src) then Declined
    else if !AllInts(SeqItems(src)) then Declined
    else if current.kind == Int32 then
      match CastVector(OfNumber(I32), src)
      case Some(es) => Loaded(SharedArray(Int32, es))
      case None => Raised(CastError)
    else
      match CastVector(OfNumber(I64), src)
      case Some(es) => Loaded(SharedArray(Int64, es))
      case None => Raised(CastError)
  }

  /** With the intended load(), a fresh caster keeps every item of an int list that fits int64_t. */
  lemma {:induction false} IntendedVoidLoadKeepsItems(ints: seq<int>)
    requires forall i :: 0 <= i < |ints| ==> InRange(I64, ints[i])
    ensures var src := PyList(seq(|ints|, i requires 0 <= i < |ints| => PyInt(ints[i])));
      IntendedVoidLoad(EmptyArray, src) ==
        Loaded(SharedArray(Int64, seq(|ints|, i requires 0 <= i < |ints| => IntE(ints[i]))))
  {
    var items := seq(|ints|, i requires 0 <= i < |ints| => PyInt(ints[i]));
    var src := PyList(items);
    assert AllInts(SeqItems(src));
    var r := CastAll(OfNumber(I64), items);
    assert r.Some?;
    assert r.value == seq(|ints|, i requires 0 <= i < |ints| => IntE(ints[i]));
  }
}
