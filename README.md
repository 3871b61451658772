# aiopvxs array codec and Value bindings: a Dafny model

aiopvxs exposes the pvxs (EPICS pvAccess) data API to Python through pybind11. The core modelled
here has two parts:

- the **type casters** that convert between pvxs's untyped `shared_array<const void>` and
  Python objects. The array remembers its original element type only at run time, so every
  conversion dispatches on that tag.
- the **binding table of `pvxs::Value`**: getters, setters, conversions, `__str__` and
  `__iter__`, and the `TypeCodeEnum`/`StoreTypeEnum` tables.

Modules:

- `Marshal` (`marshal.dfy`): shared vocabulary for both caster revisions.
  - On the pvxs side: the array tag `ArrayType` and the array `SharedArray(kind, elems)`. Elements are machine integers, opaque floating-point tokens or strings.
  - On the Python side: `PyObject`, which is an int, float, str, list/tuple, buffer-protocol exporter or anything else.
  - pybind11's element-by-element conversion of a sequence into a `std::vector<T>`.
- `ArrayCodec` (`array_codec.dfy`): the current caster in `src/pvxs_types.hpp`.
  - The kind-selection chains are functions.
  - `type_caster<shared_array<const void>>` is the class `VoidArrayCaster`. Its `Cast` builds the list of strings with a loop. Its `Load` writes the caster's `value` field.
- `LegacyCasters` (`legacy_casters.dfy`): the earlier casters in `src/pvxs_types.h`, which `src/data.cpp` actually includes.
  - `TypedArrayCaster` models one `SHARED_ARRAY_TYPE_CASTER(T)` instance per element type.
  - `VoidCaster` models the partial `void` caster.
  - Both encode with append loops and load by assigning `value`.
- `PvxsValue` (`pvxs_value.dfy`): an abstract pvxs `Value` tree.
  - A node has a type code, a stored value and named children.
  - Dotted-name lookup, replacing a stored value, `TypeDef::create()`, and a simplified `Value::as<T>()` / `Value::from()` conversion table.
- `ValueBindings` (`value_bindings.dfy`): the lambdas and tables of `src/data.cpp`.
  - A `Value` handle is a shared `Store` together with a path of field positions, so several handles can alias one tree.
  - The getters are functions, and `__setattr__`/`__setitem__` are methods that change the store in place.
  - pybind11's two-pass overload resolution is modelled explicitly.

## Model

| member | source | states |
|---|---|---|
| Marshal.ArrayTypeOf | src/pvxs_types.hpp:30-35 | the tag `castTo<const void>()` records for a numeric element type is never Null, Bool, String or Value |
| Marshal.ArrayTypeOfInjective | src/pvxs_types.hpp:70-89 | distinct numeric element types give distinct array tags, so each branch of the buffer chain produces its own kind |
| Marshal.ArrayTypeOfOnto | src/pvxs_types.hpp:98-119 | every numeric tag is the tag of some C++ element type, so the encoder's switch covers each of them |
| Marshal.CastAll | src/pvxs_types.hpp:54 | converting a sequence to `std::vector<T>` succeeds iff every item converts; the result has the same length and holds each item's conversion in order |
| Marshal.CastItem | src/pvxs_types.hpp:54 | a str converts to std::string with the same text and nothing else does; an int converts to an integer type exactly when it is in that type's range, keeping its value; an item converts to a floating type exactly when it is a float (kept as is) or an int within the range of double |
| ArrayCodec.LoadFromPythonArray | src/pvxs_types.hpp:64-92 | a buffer with ndim ≠ 1 is declined before its format is looked at; a 1-D buffer of one of the ten numeric formats loads as exactly that kind with the buffer's items in order; any other 1-D format raises "Conversion not yet implemented." |
| ArrayCodec.LoadFromPythonSeq | src/pvxs_types.hpp:51-62 | the result is None (returns false, no exception) exactly when the argument is a str or some item fails to convert; otherwise the array has the vector's kind, the same length, and each item's conversion in order |
| ArrayCodec.MakePythonArray | src/pvxs_types.hpp:37-49 | the `array.array` built is a 1-D buffer of the element type's format holding the array's elements, and iterating it yields those elements |
| ArrayCodec.CastToPythonArray | src/pvxs_types.hpp:94-123 | a Bool array is emitted as a UInt8 array; each numeric kind as a Python array of its own element type; String, Null and Value raise "Cast not yet implemented." |
| ArrayCodec.VoidArrayCaster.Cast | src/pvxs_types.hpp:133-146 | the appending loop builds the list of the strings of a String array in order; every other kind goes through `cast_to_python_array` |
| ArrayCodec.VoidArrayCaster.Load | src/pvxs_types.hpp:148-171 | a buffer goes to the buffer loader; for a sequence only item 0 is inspected (int → Int64, float → Float64, str → String, else false); an empty sequence raises IndexError; a non-sequence is declined; `value` changes only on success |
| ArrayCodec.DecodeBufferKind | src/pvxs_types.hpp:30-35 | an accepted buffer yields the array of the buffer's own kind, with `shape[0]` elements copied in order |
| ArrayCodec.NumericRoundTrip | src/pvxs_types.hpp:133-171 | encoding any numeric array (not Bool) and decoding the result gives back the same kind and the same elements |
| ArrayCodec.BoolRoundTripIsUInt8 | src/pvxs_types.hpp:99-101 | a Bool array round-trips to a UInt8 array with the same elements |
| ArrayCodec.StringRoundTrip | src/pvxs_types.hpp:136-141 | a non-empty String array goes out as a list and comes back as the same String array |
| ArrayCodec.EmptyStringArrayDoesNotRoundTrip | src/pvxs_types.hpp:156-159 | an empty String array is cast to `[]`, and loading `[]` raises IndexError at `seq[0]` |
| ArrayCodec.IntSequenceDecodesToInt64 | src/pvxs_types.hpp:159-160 | a sequence whose item 0 is an int loads exactly when every item is an int in the int64 range, as the Int64 array of those values in order; otherwise it is declined |
| ArrayCodec.FloatSequenceDecodesToFloat64 | src/pvxs_types.hpp:161-162 | a sequence whose item 0 is a float loads exactly when every item is a float or an int within the range of double, as a Float64 array of the same length keeping each float; otherwise it is declined |
| ArrayCodec.StrSequenceDecodesToString | src/pvxs_types.hpp:163-164 | a sequence whose item 0 is a str loads exactly when every item is a str, as the String array of those strings in order; otherwise it is declined |
| ArrayCodec.FirstItemDecides | src/pvxs_types.hpp:159-166 | a sequence whose item 0 is not an int, float or str is declined, whatever the other items are |
| ArrayCodec.StrArgument | src/pvxs_types.hpp:156-166 | a Python str argument counts as a sequence: an empty one raises IndexError, and a non-empty one is declined because the vector caster refuses str |
| LegacyCasters.TypedCasterKinds | src/pvxs_types.h:56-66 | a per-type caster exists for a tag iff the tag is one of the eight integer or two floating kinds; there is none for Bool, String, Null or Value |
| LegacyCasters.TypedLoad | src/pvxs_types.h:27-53 | load succeeds iff the argument is a 1-D buffer whose item type is T, and then holds the buffer's `shape[0]` items in order; every other buffer, sequence or object gives false |
| LegacyCasters.TypedArrayCaster.Cast | src/pvxs_types.h:17-25 | the append loop builds a list with the same length as the array and each element in order |
| LegacyCasters.TypedArrayCaster.Load | src/pvxs_types.h:27-53 | returns whether the buffer is accepted, and `value` becomes the buffer's items exactly then, otherwise it is unchanged |
| LegacyCasters.TypedLoadRejects | src/pvxs_types.h:29-52 | a multi-dimensional buffer, a buffer of another item type, a plain sequence and any other object are all rejected |
| LegacyCasters.TypedRoundTrip | src/pvxs_types.h:40-43 | what an accepted buffer loads, cast back, is a list of the buffer's own items in order |
| LegacyCasters.VoidCaster.Cast | src/pvxs_types.h:73-93 | the two append loops give the list of an Int64 or Int32 array's elements in order; any other kind gives an empty list |
| LegacyCasters.VoidEncodeKinds | src/pvxs_types.h:77-92 | the result is always a list; for Int64 and Int32 it holds the elements in order, and for every other kind it is empty |
| LegacyCasters.VoidCaster.Load | src/pvxs_types.h:95-123 | false for a non-sequence or when any item is not an int (checked before converting); otherwise converts according to the existing `value`'s tag and returns true |
| LegacyCasters.VoidLoadChecksBeforeConverting | src/pvxs_types.h:97-107 | one non-int item anywhere makes load return false, whatever the current tag |
| LegacyCasters.VoidLoadConverts | src/pvxs_types.h:110-120 | with a current tag of Int64 or Int32, a list of ints within that type's range loads as exactly those ints under the same tag; a list holding an int out of range raises |
| LegacyCasters.VoidLoadKeepsOtherKinds | src/pvxs_types.h:110-122 | with any other current tag, an all-int sequence returns true and leaves `value` as it was |
| LegacyCasters.FreshVoidCasterDropsItems | src/pvxs_types.h:110-122 | a caster whose `value` is freshly default-constructed loads `[1, 2, 3]` as the empty Null array and reports success |
| LegacyCasters.IntendedVoidLoadKeepsItems | src/pvxs_types.h:95-123 | the corrected load keeps every int64 item of an all-int list, tagged Int64 |
| PvxsValue.FieldIndex | src/data.cpp:98-103 | the position found names that field, and no earlier field has that name; None means no field has it |
| PvxsValue.SplitPath | src/data.cpp:98-103 | a dotted name splits into at least one component, no component contains a dot, and joining the components with dots gives back the name |
| PvxsValue.PathTo | src/data.cpp:98-103 | a resolved name gives one position per component, leading to a node, and each position k is that of a field named after component k in the node the earlier positions lead to |
| PvxsValue.NodeAtAppend | src/data.cpp:98-103 | following a path and then a second path is the same as following their concatenation |
| PvxsValue.PathToComplete | src/data.cpp:98-103 | a name that does not resolve has a component k such that the components before it resolve and no field of the node they lead to is named after component k |
| PvxsValue.ReplacePreservesShape | src/data.cpp:105-113 | assigning a stored value changes no type code and no field name anywhere |
| PvxsValue.SameShapeResolves | src/data.cpp:105-113 | a path that leads to a node in one tree leads to a node of the same shape in any tree of the same shape |
| PvxsValue.ReadAfterWrite | src/data.cpp:105-113 | after an assignment the target node holds the new value and is otherwise unchanged |
| PvxsValue.OthersUnchanged | src/data.cpp:105-113 | after an assignment every other node holds the value it held before |
| PvxsValue.ReplacePreservesValid | src/data.cpp:105-113 | assigning a value that fits the target's classification keeps every node's value fitting its classification |
| PvxsValue.As | src/data.cpp:119-134 | each conversion yields a result of its own C++ type; an int64 read from a valid node is within int64's range; a structure converts to nothing |
| PvxsValue.From | src/data.cpp:105-113 | a stored value always fits the field's classification; structures and Null fields accept no assignment |
| PvxsValue.AssignThenRead | src/data.cpp:105-134 | an int64, double, string or int64 array assigned to a field of the matching classification reads back unchanged through the matching conversion |
| PvxsValue.AssignBoolThenRead | src/data.cpp:119-120 | a Python bool arrives as 0 or 1 and reads back from a Bool field as the same truth value |
| PvxsValue.Default | src/data.cpp:67 | a freshly created field's default value fits its classification |
| PvxsValue.Create | src/data.cpp:67 | `TypeDef::create()` builds a valid tree whose top-level fields carry the member names in declaration order |
| ValueBindings.EnumLookup | src/data.cpp:17-47 | a name found in an enum table is registered there with that value; a name not found is registered for no value |
| ValueBindings.TypeCodeEnumNames | src/data.cpp:17-36 | each `TypeCodeEnum` entry is named after the pvxs code it stands for |
| ValueBindings.TypeCodeEnumLookup | src/data.cpp:17-36 | every modelled type code is exposed, and looking up its name gives that same code back |
| ValueBindings.CodeInjective | src/data.cpp:17-36 | distinct exposed codes stand for distinct pvAccess type-code bytes |
| ValueBindings.StoreTypeEnumNames | src/data.cpp:38-47 | each `StoreTypeEnum` entry is named after the classification it stands for |
| ValueBindings.StoreTypeEnumLookup | src/data.cpp:38-47 | every classification is exposed and found again under its own name |
| ValueBindings.NewTypeDef | src/data.cpp:64-66 | `TypeDef(code, children)` builds the definition with the empty name, the given code and the children as given |
| ValueBindings.CreatedFieldsInDeclarationOrder | src/data.cpp:64-67 | a structure created from `TypeDef(Struct, children)` is valid and has one field per child, named in order |
| ValueBindings.Lookup | src/data.cpp:98-103 | a lookup gives a handle into the same tree that designates a node, at the position path the dotted name resolves to; otherwise LookupError |
| ValueBindings.GetAttr | src/data.cpp:98-100 | `__getattr__` is `lookup` |
| ValueBindings.GetItem | src/data.cpp:101-103 | `__getitem__` is `lookup` |
| ValueBindings.Get | src/data.cpp:115-117 | `get` is `lookup` |
| ValueBindings.MissingFieldIsLookupError | src/data.cpp:98-117 | all three getters report a missing field as LookupError |
| ValueBindings.Iter | src/data.cpp:80-96 | `__iter__` yields one handle per immediate child, all into the same tree, and nothing for a handle that designates no node |
| ValueBindings.IterYieldsChildrenInOrder | src/data.cpp:95 | the i-th handle yielded designates the i-th child, so iteration follows field order |
| ValueBindings.ConversionAliases | src/data.cpp:119-134 | `__bool__`, `__int__` and `__float__` are bound to the same conversion as `as_bool`, `as_int` and `as_float`, and `as_string` converts to a string |
| ValueBindings.Convert | src/data.cpp:119-134 | a conversion through a handle is the node's `as<T>()`, or NoField for a handle that designates no node |
| ValueBindings.StringOf | src/data.cpp:134 | `as_string` succeeds exactly when the string conversion does, with the same text |
| ValueBindings.Str | src/data.cpp:135-143 | `__str__` gives the "value" child's string when its lookup and coercion succeed, and otherwise the node's own string coercion |
| ValueBindings.StrWithoutValueField | src/data.cpp:137-141 | a node without a "value" field prints as its own coercion; an integer field prints as its decimal digits |
| ValueBindings.StrPrefersValueField | src/data.cpp:137-138 | a structure whose first "value" field holds a string prints as that string |
| ValueBindings.FirstAccepting | src/data.cpp:105-113 | the overload chosen accepts the argument and no overload registered earlier does; None means none accepts it |
| ValueBindings.SetterDispatch | src/data.cpp:105-108 | an int within int64 goes to the int64 overload, a larger int within the range of double to the double overload, a float to the double one, a str to the string one, a 1-D int64 buffer to the array one; anything else, including an int beyond the range of double, matches none |
| ValueBindings.SetAttrIsSetItem | src/data.cpp:105-113 | `__setattr__` and `__setitem__` resolve every argument to the same update |
| ValueBindings.UpdateKeepsShape | src/data.cpp:105-113 | an update changes no type code or field name, so existing handles stay meaningful, and it keeps a valid tree valid |
| ValueBindings.UpdateChangesOnlyTarget | src/data.cpp:105-113 | an update changes the value of no node other than the target field |
| ValueBindings.UpdateThenRead | src/data.cpp:105-134 | assigning through a setter, then reading the same field with the matching `as_*`, gives the value assigned |
| ValueBindings.UpdateIncompatibleFails | src/data.cpp:105-113 | assigning a value the field's classification cannot hold fails with NoConvert |
| ValueBindings.Update | src/data.cpp:105-113 | `update(name, x)` replaces the named field's value in the shared tree in place and returns the same handle; on NoField or NoConvert the tree is unchanged |
| ValueBindings.SetAttr | src/data.cpp:105-108 | no matching overload gives TypeError with the tree unchanged; otherwise the effect is `update` with the resolved argument |
| ValueBindings.SetItem | src/data.cpp:110-113 | the same effect as `__setattr__`, through its own copy of the overload list |

## Left out

- Python objects are abstract values. Reference counts, the GIL, `memoryview`/`array.array` construction and any zero-copy aspect are not modelled. A buffer is its dimension count, format and logical items; its memory layout (strides, offsets) is not modelled, so every buffer is taken to be C-contiguous. The source copies `shape[0]` consecutive items from `info.ptr` and ignores the strides that `request()` reports. So for a strided 1-D buffer (`numpy.arange(4, dtype='i8')[::2]`) it loads other items than the buffer's own ([0, 1] rather than [0, 2]), and for a negative stride it reads outside the buffer. The lines below name the members this concerns.
- ArrayCodec.LoadFromPythonArray: assumes a C-contiguous buffer; the source ignores strides (src/pvxs_types.hpp:30-35) and loads other items from a strided buffer.
- ArrayCodec.DecodeBufferKind: "`shape[0]` elements copied in order" holds for C-contiguous buffers only, since the source ignores strides.
- LegacyCasters.TypedLoad: assumes a C-contiguous buffer; the source ignores strides (src/pvxs_types.h:40-42) and loads other items from a strided buffer; the int64-array overload of `__setattr__`/`__setitem__` inherits this, because it loads through the same caster.
- LegacyCasters.TypedArrayCaster.Load: `value` becomes the buffer's logical items only for a C-contiguous buffer, since the source ignores strides.
- LegacyCasters.TypedRoundTrip: the round trip gives back the buffer's own items only for a C-contiguous buffer, since the source ignores strides.
- Floating-point values are opaque tokens, so no float arithmetic or rounding is modelled. `NearestTo(i)` stands for the double an int converts to. An int whose magnitude reaches 2^1024 - 2^970 does not convert: pybind11's float caster clears the OverflowError and reports failure, so such an int makes a float sequence load decline and matches no setter overload. This case is modelled.
- Multi-dimensional buffers are not treated as Python sequences. That matters only for the `void` caster of `src/pvxs_types.h`, which would otherwise iterate their first axis.
- A Python bool is an int (0 or 1) throughout. Objects with `__index__` or `__float__`, and numpy scalars, are all "other objects".
- `bytes` and `bytearray` are one-dimensional buffers of format `B` (U8) in the model. The current load gives them a UInt8 array (src/pvxs_types.hpp:150-153), and the `uint8_t` caster of src/pvxs_types.h accepts them, which the model captures.
- ValueBindings.SetterDispatch: pybind11's `std::string` caster also accepts `bytes` and `bytearray`, so assigning one selects the string overload in the first pass. The model does not tell them apart from other U8 buffers and resolves them to no overload (TypeError).
- Marshal.CastItem: for the same reason, a `bytes` item of a sequence whose first item is a str converts to std::string in the source, but not in the model.
- pvxs internals, that is the real `Value::lookup`/`as<T>`/`from`/`update`, `shared_array` reference counting and `castTo`, live in a library that is not part of this model.
  - `PvxsValue.As` and `PvxsValue.From` are a simplified conversion table: no parsing of strings into numbers, no real-to-integer truncation and no float formatting.
  - Only the 17 type codes that `TypeCodeEnum` exposes are modelled.
- The debug output (`std::cout`) in `src/pvxs_types.h` is I/O and is left out.
- `as_int_list` and `as_string_list` go through the conversion table only. With `src/pvxs_types.h` no caster exists for `shared_array<const std::string>`, and the cast of the returned array is not composed into the model.
- The pass-through bindings are not modelled, because they add no logic of their own: `Value.type`, `storageType`, `id`, `__repr__` of `Value` and `TypeDef`, the `Member` and `TypeCode` constructors, `TypeCode.name`/`is_unsigned`/`is_array`, and `TypeDef(code)`.
- `__iter__`'s `keep_alive` (iterator lifetime) is not modelled.
- `src/client.cpp` and `src/server.cpp` are not part of this model. They are thread handoff and pass-through wrappers. One rule is noted but not modelled: the done-callback cancels the operation only when the future was cancelled (src/client.cpp:54-59).

## Findings

| source | as written | input that shows it | evidently intended | confidence | as-written member | corrected member |
|---|---|---|---|---|---|---|
| src/pvxs_types.h:110-122 | `load` chooses the conversion by `value.original_type()`. pybind11 gives each call a fresh caster whose `value` is a default-constructed array (tag Null), so neither branch runs and load returns true with an empty array. | the Python list `[1, 2, 3]` | convert the int list to an Int64 array (Int32 only when that tag is requested) | medium, not executed | LegacyCasters.FreshVoidCasterDropsItems | LegacyCasters.IntendedVoidLoadKeepsItems |
