/** The Python binding table of src/data.cpp: the TypeCodeEnum and StoreTypeEnum tables, the
    TypeDef constructor, and the members of Value: getters that all delegate to lookup,
    __setattr__ and __setitem__ sharing one overload set of update, the as_* conversions and
    their __bool__/__int__/__float__ aliases, __str__ with its fallback, and __iter__. */
module ValueBindings {
  import opened Marshal
  import opened PvxsValue
  import LegacyCasters

  // ---------------------------------------------------------------------------------------
  // Enum tables

  /** TypeCodeEnum: the exposed names and the codes they stand for, in registration order. */
  const TypeCodeEnum: seq<(string, TypeCode)> := [
    ("Bool", TypeCode.Bool), ("UInt8", TypeCode.UInt8), ("UInt16", TypeCode.UInt16),
    ("UInt32", TypeCode.UInt32), ("UInt64", TypeCode.UInt64), ("Int8", TypeCode.Int8),
    ("Int8A", TypeCode.Int8A), ("Int16", TypeCode.Int16), ("Int16A", TypeCode.Int16A),
    ("Int32", TypeCode.Int32), ("Int32A", TypeCode.Int32A), ("Int64", TypeCode.Int64),
    ("Int64A", TypeCode.Int64A), ("Float32", TypeCode.Float32), ("Float64", TypeCode.Float64),
    ("String", TypeCode.String), ("Struct", TypeCode.Struct)]

  /** StoreTypeEnum, in registration order. */
  const StoreTypeEnum: seq<(string, StoreType)> := [
    ("Null", StoreType.Null), ("Bool", StoreType.Bool), ("UInteger", StoreType.UInteger),
    ("Integer", StoreType.Integer), ("Real", StoreType.Real), ("String", StoreType.String),
    ("Compound", StoreType.Compound), ("Array", StoreType.Array)]

  function StoreTypeName(st: StoreType): string {
    match st
    case Null => "Null"
    case Bool => "Bool"
    case UInteger => "UInteger"
    case Integer => "Integer"
    case Real => "Real"
    case String => "String"
    case Compound => "Compound"
    case Array => "Array"
  }

  /** Attribute lookup on a bound enum (TypeCode.Int32): the value registered first under
      that name. */
  function EnumLookup<T>(table: seq<(string, T)>, name: string): (r: Option<T>)
    ensures r.Some? ==> (name, r.value) in table
    ensures r.None? ==> forall i :: 0 <= i < |table| ==> table[i].0 != name
  {
    if table == [] then None
    else if table[0].0 == name then Some(table[0].1)
    else EnumLookup(table[1..], name)
  }

  /** Lookup finds the entry at i when no earlier entry has that name. */
  lemma {:induction false} EnumLookupAt<T>(table: seq<(string, T)>, name: string, i: nat)
    requires i < |table| && table[i].0 == name
    requires forall j :: 0 <= j < i ==> table[j].0 != name
    ensures EnumLookup(table, name) == Some(table[i].1)
  {
    if i > 0 {
      EnumLookupAt(table[1..], name, i - 1);
    }
  }

  /** Each TypeCodeEnum entry is named after its code. */
  lemma TypeCodeEnumNames()
    ensures forall i :: 0 <= i < |TypeCodeEnum| ==> Name(TypeCodeEnum[i].1) == TypeCodeEnum[i].0
  {
  }

  /** Every modelled code is exposed, and looking up its name gives back that very code (so
      no name is registered twice for different codes). */
  lemma {:induction false} TypeCodeEnumLookup(tc: TypeCode)
    ensures EnumLookup(TypeCodeEnum, Name(tc)) == Some(tc)
  {
    match tc
    case Bool | UInt8 | UInt16 | UInt32 | UInt64 => UnsignedCodesLookup(tc);
    case Int8 | Int8A | Int16 | Int16A | Int32 | Int32A => SignedCodesLookup(tc);
    case _ => OtherCodesLookup(tc);
  }

  lemma {:induction false} UnsignedCodesLookup(tc: TypeCode)
    requires tc in {TypeCode.Bool, TypeCode.UInt8, TypeCode.UInt16, TypeCode.UInt32, TypeCode.UInt64}
    ensures EnumLookup(TypeCodeEnum, Name(tc)) == Some(tc)
  {
    var t := TypeCodeEnum;
    match tc
    case Bool => EnumLookupAt(t, Name(tc), 0);
    case UInt8 => EnumLookupAt(t, Name(tc), 1);
    case UInt16 => EnumLookupAt(t, Name(tc), 2);
    case UInt32 => EnumLookupAt(t, Name(tc), 3);
    case UInt64 => EnumLookupAt(t, Name(tc), 4);
  }

  lemma {:induction false} SignedCodesLookup(tc: TypeCode)
    requires tc in {TypeCode.Int8, TypeCode.Int8A, TypeCode.Int16, TypeCode.Int16A, TypeCode.Int32, TypeCode.Int32A}
    ensures EnumLookup(TypeCodeEnum, Name(tc)) == Some(tc)
  {
    var t := TypeCodeEnum;
    match tc
    case Int8 => EnumLookupAt(t, Name(tc), 5);
    case Int8A => EnumLookupAt(t, Name(tc), 6);
    case Int16 => EnumLookupAt(t, Name(tc), 7);
    case Int16A => EnumLookupAt(t, Name(tc), 8);
    case Int32 => EnumLookupAt(t, Name(tc), 9);
    case Int32A => EnumLookupAt(t, Name(tc), 10);
  }

  lemma {:induction false} OtherCodesLookup(tc: TypeCode)
    requires tc in {TypeCode.Int64, TypeCode.Int64A, TypeCode.Float32, TypeCode.Float64, TypeCode.String, TypeCode.Struct}
    ensures EnumLookup(TypeCodeEnum, Name(tc)) == Some(tc)
  {
    var t := TypeCodeEnum;
    match tc
    case Int64 => EnumLookupAt(t, Name(tc), 11);
    case Int64A => EnumLookupAt(t, Name(tc), 12);
    case Float32 => EnumLookupAt(t, Name(tc), 13);
    case Float64 => EnumLookupAt(t, Name(tc), 14);
    case String => EnumLookupAt(t, Name(tc), 15);
    case Struct => EnumLookupAt(t, Name(tc), 16);
  }

  /** Distinct exposed codes stand for distinct pvAccess type-code bytes. */
  lemma CodeInjective(a: TypeCode, b: TypeCode)
    ensures Code(a) == Code(b) <==> a == b
  {
  }

  /** Each StoreTypeEnum entry is named after its classification. */
  lemma StoreTypeEnumNames()
    ensures forall i :: 0 <= i < |StoreTypeEnum| ==> StoreTypeName(StoreTypeEnum[i].1) == StoreTypeEnum[i].0
  {
  }

  /** Every classification is exposed and found again under its own name. */
  lemma {:induction false} StoreTypeEnumLookup(st: StoreType)
    ensures EnumLookup(StoreTypeEnum, StoreTypeName(st)) == Some(st)
  {
    var t := StoreTypeEnum;
    match st
    case Null => EnumLookupAt(t, StoreTypeName(st), 0);
    case Bool => EnumLookupAt(t, StoreTypeName(st), 1);
    case UInteger => EnumLookupAt(t, StoreTypeName(st), 2);
    case Integer => EnumLookupAt(t, StoreTypeName(st), 3);
    case Real => EnumLookupAt(t, StoreTypeName(st), 4);
    case String => EnumLookupAt(t, StoreTypeName(st), 5);
    case Compound => EnumLookupAt(t, StoreTypeName(st), 6);
    case Array => EnumLookupAt(t, StoreTypeName(st), 7);
  }

  // ---------------------------------------------------------------------------------------
  // TypeDef

  /** TypeDef(code, children) from Python: the definition always gets the empty id. */
  function NewTypeDef(code: TypeCode, children: seq<Member>): (td: TypeDef)
    ensures td.id == "" && td.code == code && td.members == children
  {
    TypeDef(code, "", children)
  }

  /** A structure created from TypeDef(code, children) has one field per child, in the order
      the children were given. */
  lemma CreatedFieldsInDeclarationOrder(children: seq<Member>)
    ensures var n := Create(NewTypeDef(TypeCode.Struct, children));
      Valid(n) && |n.fields| == |children| &&
      forall i :: 0 <= i < |children| ==> n.fields[i].name == children[i].name
  {
  }

  // ---------------------------------------------------------------------------------------
  // Value handles

  /** The tree a group of Value handles shares; update() changes it in place. */
  class Store {
    var root: Node

    constructor (root: Node)
      ensures this.root == root
    {
      this.root := root;
    }
  }

  /** A pvxs::Value handle: the tree it shares and the field positions leading to its node. */
  datatype Value = Value(store: Store, path: seq<nat>)

  /** The node a handle designates, if it designates one. */
  function NodeOf(v: Value): Option<Node>
    reads v.store
  {
    NodeAt(v.store.root, v.path)
  }

  /** Value::lookup(name): the handle of the field the (possibly dotted) name designates,
      sharing the same tree, or LookupError when there is no such field. */
  function Lookup(self: Value, name: string): (r: Result<Value, PvxsError>)
    reads self.store
    ensures r.Err? ==> r.error == LookupError
    ensures r.Ok? <==> NodeOf(self).Some? && PathTo(NodeOf(self).value, SplitPath(name)).Some?
    ensures r.Ok? ==> r.value.store == self.store && NodeOf(r.value).Some?
    ensures r.Ok? ==> r.value.path == self.path + PathTo(NodeOf(self).value, SplitPath(name)).value
  {
    match NodeOf(self)
    case None => Err(LookupError)
    case Some(n) =>
      match PathTo(n, SplitPath(name))
      case None => Err(LookupError)
      case Some(q) =>
        NodeAtAppend(self.store.root, self.path, q);
        Ok(Value.Value(self.store, self.path + q))
  }

  /** __getattr__, __getitem__ and get: each returns self.lookup(name). */
  function GetAttr(self: Value, name: string): (r: Result<Value, PvxsError>)
    reads self.store
    ensures r == Lookup(self, name)
  {
    Lookup(self, name)
  }

  function GetItem(self: Value, name: string): (r: Result<Value, PvxsError>)
    reads self.store
    ensures r == Lookup(self, name)
  {
    Lookup(self, name)
  }

  function Get(self: Value, name: string): (r: Result<Value, PvxsError>)
    reads self.store
    ensures r == Lookup(self, name)
  {
    Lookup(self, name)
  }

  /** A missing field is reported as LookupError, never answered with a placeholder handle. */
  lemma {:induction false} MissingFieldIsLookupError(self: Value, name: string)
    requires NodeOf(self).Some?
    requires forall i :: 0 <= i < |NodeOf(self).value.fields| ==> NodeOf(self).value.fields[i].name != SplitPath(name)[0]
    ensures GetAttr(self, name) == Err(LookupError)
    ensures GetItem(self, name) == Err(LookupError)
    ensures Get(self, name) == Err(LookupError)
  {
    assert FieldIndex(NodeOf(self).value.fields, SplitPath(name)[0]).None?;
  }

  /** __iter__: a handle for each immediate child, in field order; nothing for a handle that
      designates no node. */
  function Iter(self: Value): (r: seq<Value>)
    reads self.store
    ensures NodeOf(self).None? ==> r == []
    ensures NodeOf(self).Some? ==> |r| == |NodeOf(self).value.fields|
    ensures forall i :: 0 <= i < |r| ==> r[i].store == self.store
  {
    match NodeOf(self)
    case None => []
    case Some(n) => seq(|n.fields|, i requires 0 <= i < |n.fields| => Value.Value(self.store, self.path + [i]))
  }

  /** The i-th handle __iter__ yields designates the i-th field of the node, so iteration order
      is declaration order. */
  lemma {:induction false} IterYieldsChildrenInOrder(self: Value, i: nat)
    requires NodeOf(self).Some? && i < |NodeOf(self).value.fields|
    ensures NodeOf(Iter(self)[i]) == Some(NodeOf(self).value.fields[i].node)
  {
    NodeAtAppend(self.store.root, self.path, [i]);
  }

  // ---------------------------------------------------------------------------------------
  // Conversions

  /** The as_* members and their aliases: each Python name is bound to Value::as<T> for one T. */
  function ConversionOf(pyName: string): Option<Conversion> {
    if pyName == "as_bool" || pyName == "__bool__" then Some(ToBool)
    else if pyName == "as_int" || pyName == "__int__" then Some(ToInt64)
    else if pyName == "as_int_list" then Some(ToInt64Array)
    else if pyName == "as_string_list" then Some(ToStringArray)
    else if pyName == "as_float" || pyName == "__float__" then Some(ToDouble)
    else if pyName == "as_string" then Some(ToString)
    else None
  }

  /** __bool__, __int__ and __float__ are the same operation as as_bool, as_int and as_float. */
  lemma ConversionAliases()
    ensures ConversionOf("__bool__") == ConversionOf("as_bool") == Some(ToBool)
    ensures ConversionOf("__int__") == ConversionOf("as_int") == Some(ToInt64)
    ensures ConversionOf("__float__") == ConversionOf("as_float") == Some(ToDouble)
    ensures ConversionOf("as_string") == Some(ToString)
  {
  }

  /** Value::as<T>() through a handle: NoField for a handle that designates no node. */
  function Convert(self: Value, c: Conversion): (r: Result<Native, PvxsError>)
    reads self.store
    ensures NodeOf(self).None? ==> r == Err(NoField)
    ensures NodeOf(self).Some? ==> r == As(NodeOf(self).value, c)
  {
    match NodeOf(self)
    case None => Err(NoField)
    case Some(n) => As(n, c)
  }

  /** self.as<std::string>(). */
  function StringOf(self: Value): (r: Result<string, PvxsError>)
    reads self.store
    ensures r.Ok? <==> Convert(self, ToString).Ok?
    ensures r.Ok? ==> Convert(self, ToString) == Ok(NString(r.value))
  {
    match Convert(self, ToString)
    case Ok(x) => Ok(x.s)
    case Err(e) => Err(e)
  }

  /** self["value"].as<std::string>(): operator[] yields an empty handle for a missing field,
      whose coercion fails like a failed lookup. */
  function ValueFieldString(self: Value): Result<string, PvxsError>
    reads self.store
  {
    match Lookup(self, "value")
    case Ok(child) => StringOf(child)
    case Err(e) => Err(e)
  }

  /** __str__: the "value" field coerced to a string when that lookup and that coercion
      succeed; otherwise (any exception is caught) the node's own coercion to a string. */
  function Str(self: Value): (r: Result<string, PvxsError>)
    reads self.store
    ensures ValueFieldString(self).Ok? ==> r == ValueFieldString(self)
    ensures ValueFieldString(self).Err? ==> r == StringOf(self)
  {
    match ValueFieldString(self)
    case Ok(s) => Ok(s)
    case Err(_) => StringOf(self)
  }

  /** A node with no field named "value" prints as its own string coercion, e.g. an integer
      field as its decimal digits. */
  lemma {:induction false} StrWithoutValueField(self: Value)
    requires NodeOf(self).Some?
    requires forall i :: 0 <= i < |NodeOf(self).value.fields| ==> NodeOf(self).value.fields[i].name != "value"
    ensures Str(self) == StringOf(self)
    ensures NodeOf(self).value.val.IntV? ==> Str(self) == Ok(Decimal(NodeOf(self).value.val.i))
  {
    assert SplitPath("value") == ["value"];
    assert FieldIndex(NodeOf(self).value.fields, "value").None?;
  }

  /** A structure whose "value" field holds a string prints as that string. */
  lemma {:induction false} StrPrefersValueField(self: Value, k: nat)
    requires NodeOf(self).Some? && k < |NodeOf(self).value.fields|
    requires NodeOf(self).value.fields[k].name == "value"
    requires forall j :: 0 <= j < k ==> NodeOf(self).value.fields[j].name != "value"
    requires NodeOf(self).value.fields[k].node.val.StrV?
    ensures Str(self) == Ok(NodeOf(self).value.fields[k].node.val.s)
  {
    var n := NodeOf(self).value;
    assert SplitPath("value") == ["value"];
    assert FieldIndex(n.fields, "value") == Some(k);
    assert ["value"][1..] == [];
    assert PathTo(n.fields[k].node, []) == Some([]);
    assert [k] + [] == [k];
    assert PathTo(n, ["value"]) == Some([k]);
    NodeAtAppend(self.store.root, self.path, [k]);
  }

  // ---------------------------------------------------------------------------------------
  // Setters

  /** The four overloads of update registered, in this order, for __setattr__ and again for
      __setitem__. */
  datatype Overload = UpdateInt64 | UpdateDouble | UpdateString | UpdateInt64Array

  const SetAttrOverloads: seq<Overload> := [UpdateInt64, UpdateDouble, UpdateString, UpdateInt64Array]
  const SetItemOverloads: seq<Overload> := [UpdateInt64, UpdateDouble, UpdateString, UpdateInt64Array]

  /** Whether pybind11 can load the value argument of an overload, with or without implicit
      conversions: int64_t takes an int in range; double takes a float, and an int only when
      converting and only if it converts to a double; std::string takes a str; shared_array<const int64_t> uses the per-type
      caster of the earlier revision, which takes a one-dimensional int64 buffer only. */
  function Accepts(ov: Overload, o: PyObject, convert: bool): Option<Native> {
    match ov
    case UpdateInt64 => if o.PyInt? && InRange(I64, o.i) then Some(NInt(o.i)) else None
    case UpdateDouble =>
      if o.PyFloat? then Some(NDouble(o.f))
      else if o.PyInt? && convert && FitsDouble(o.i) then Some(NDouble(NearestTo(o.i)))
      else None
    case UpdateString => if o.PyStr? then Some(NString(o.s)) else None
    case UpdateInt64Array =>
      match LegacyCasters.TypedLoad(I64, o)
      case Some(es) => Some(NIntArray(es))
      case None => None
  }

  /** The position of the first overload, in registration order, that accepts the object. */
  function FirstAccepting(ovs: seq<Overload>, o: PyObject, convert: bool): (r: Option<nat>)
    ensures r.Some? ==> r.value < |ovs| && Accepts(ovs[r.value], o, convert).Some?
    ensures r.Some? ==> forall j :: 0 <= j < r.value ==> Accepts(ovs[j], o, convert).None?
    ensures r.None? ==> forall j :: 0 <= j < |ovs| ==> Accepts(ovs[j], o, convert).None?
  {
    if ovs == [] then None
    else if Accepts(ovs[0], o, convert).Some? then Some(0)
    else
      match FirstAccepting(ovs[1..], o, convert)
      case None => None
      case Some(k) => Some(k + 1)
  }

  /** pybind11's overload resolution: a first pass over the overloads without implicit
      conversions, then a second pass with them; the result is the argument the chosen
      overload receives. */
  function Resolve(ovs: seq<Overload>, o: PyObject): Option<Native> {
    match FirstAccepting(ovs, o, false)
    case Some(k) => Accepts(ovs[k], o, false)
    case None =>
      match FirstAccepting(ovs, o, true)
      case Some(k) => Accepts(ovs[k], o, true)
      case None => None
  }

  /** The value assignment a Python object selects: an int64 for an int that fits, a double
      for a float or for an int too large for int64_t that still converts to a double, a string
      for a str, an int64 array for a one-dimensional int64 buffer; every other object,
      including an int beyond the range of double, matches no overload (TypeError). */
  lemma {:induction false} SetterDispatch(o: PyObject)
    ensures Resolve(SetAttrOverloads, o) ==
      match o
      case PyInt(i) =>
        if InRange(I64, i) then Some(NInt(i))
        else if FitsDouble(i) then Some(NDouble(NearestTo(i)))
        else None
      case PyFloat(f) => Some(NDouble(f))
      case PyStr(s) => Some(NString(s))
      case PyBuffer(ndim, format, elems) =>
        if ndim == 1 && format == Item(I64) then Some(NIntArray(elems)) else None
      case _ => None
  {
    var ovs := SetAttrOverloads;
    assert ovs[0] == UpdateInt64 && ovs[1] == UpdateDouble && ovs[2] == UpdateString && ovs[3] == UpdateInt64Array;
  }

  /** __setattr__ and __setitem__ resolve every object to the same update. */
  lemma SetAttrIsSetItem(o: PyObject)
    ensures Resolve(SetAttrOverloads, o) == Resolve(SetItemOverloads, o)
  {
  }

  /** Value::update(name, x) on the tree `root` through the handle at `path`: the new tree, or
      NoField when the name designates no field, or NoConvert when the field's classification
      cannot hold x. */
  function UpdateTree(root: Node, path: seq<nat>, name: string, x: Native): Result<Node, PvxsError> {
    match NodeAt(root, path)
    case None => Err(NoField)
    case Some(n) =>
      match PathTo(n, SplitPath(name))
      case None => Err(NoField)
      case Some(q) =>
        match From(StoreTypeOf(NodeAt(n, q).value.code), x)
        case Err(e) => Err(e)
        case Ok(v) => Ok(ReplaceAt(root, path + q, v))
  }

  /** An update never changes type codes or field names, so every handle stays usable, and it
      keeps a valid tree valid. */
  lemma {:induction false} UpdateKeepsShape(root: Node, path: seq<nat>, name: string, x: Native)
    requires UpdateTree(root, path, name, x).Ok?
    ensures SameShape(root, UpdateTree(root, path, name, x).value)
    ensures Valid(root) ==> Valid(UpdateTree(root, path, name, x).value)
  {
    var n := NodeAt(root, path).value;
    var q := PathTo(n, SplitPath(name)).value;
    var v := From(StoreTypeOf(NodeAt(n, q).value.code), x).value;
    ReplacePreservesShape(root, path + q, v);
    NodeAtAppend(root, path, q);
    if Valid(root) {
      ReplacePreservesValid(root, path + q, v);
    }
  }

  /** After an update only the target field holds a different value. */
  lemma {:induction false} UpdateChangesOnlyTarget(root: Node, path: seq<nat>, name: string, x: Native, other: seq<nat>)
    requires UpdateTree(root, path, name, x).Ok?
    requires other != path + PathTo(NodeAt(root, path).value, SplitPath(name)).value
    requires NodeAt(root, other).Some?
    ensures NodeAt(UpdateTree(root, path, name, x).value, other).Some?
    ensures NodeAt(UpdateTree(root, path, name, x).value, other).value.val == NodeAt(root, other).value.val
  {
    var n := NodeAt(root, path).value;
    var q := PathTo(n, SplitPath(name)).value;
    var v := From(StoreTypeOf(NodeAt(n, q).value.code), x).value;
    OthersUnchanged(root, path + q, other, v);
  }

  /** Assigning a scalar to a field of the matching classification and reading it back with
      the matching conversion gives the value assigned. */
  lemma {:induction false} UpdateThenRead(root: Node, path: seq<nat>, name: string, x: Native)
    requires NodeAt(root, path).Some? && PathTo(NodeAt(root, path).value, SplitPath(name)).Some?
    requires var n := NodeAt(root, path).value;
      var target := NodeAt(n, PathTo(n, SplitPath(name)).value).value;
      && (x.NInt? ==> StoreTypeOf(target.code) == Integer && InRange(I64, x.i))
      && (x.NDouble? ==> StoreTypeOf(target.code) == Real)
      && (x.NString? ==> StoreTypeOf(target.code) == StoreType.String)
      && (x.NIntArray? ==> StoreTypeOf(target.code) == Array)
      && !x.NBool? && !x.NStringArray?
    ensures UpdateTree(root, path, name, x).Ok?
    ensures var q := PathTo(NodeAt(root, path).value, SplitPath(name)).value;
      var after := NodeAt(UpdateTree(root, path, name, x).value, path + q);
      after.Some? &&
      As(after.value, match x case NInt(_) => ToInt64 case NDouble(_) => ToDouble
                              case NString(_) => ToString case _ => ToInt64Array) == Ok(x)
  {
    var n := NodeAt(root, path).value;
    var q := PathTo(n, SplitPath(name)).value;
    var target := NodeAt(n, q).value;
    AssignThenRead(target, x);
    var v := From(StoreTypeOf(target.code), x).value;
    NodeAtAppend(root, path, q);
    ReadAfterWrite(root, path + q, v);
  }

  /** An incompatible assignment fails with NoConvert. */
  lemma UpdateIncompatibleFails(root: Node, path: seq<nat>, name: string, x: Native)
    requires NodeAt(root, path).Some? && PathTo(NodeAt(root, path).value, SplitPath(name)).Some?
    requires var n := NodeAt(root, path).value;
      From(StoreTypeOf(NodeAt(n, PathTo(n, SplitPath(name)).value).value.code), x).Err?
    ensures UpdateTree(root, path, name, x) == Err(NoConvert)
  {
  }

  /** A setter's failure: no overload matched, or update threw. */
  datatype SetError = TypeError | UpdateFailed(error: PvxsError)

  /** The effect of a setter registered with overload list ovs. */
  ghost predicate SetEffect(ovs: seq<Overload>, before: Node, self: Value, name: string, o: PyObject,
                            r: Result<Value, SetError>, after: Node) {
    match Resolve(ovs, o)
    case None => r == Err(TypeError) && after == before
    case Some(x) =>
      match UpdateTree(before, self.path, name, x)
      case Ok(t) => r == Ok(self) && after == t
      case Err(e) => r == Err(UpdateFailed(e)) && after == before
  }

  /** Value::update(name, x): assigns in place and returns the handle itself. */
  method Update(self: Value, name: string, x: Native) returns (r: Result<Value, PvxsError>)
    modifies self.store
    ensures match UpdateTree(old(self.store.root), self.path, name, x)
      case Ok(t) => r == Ok(self) && self.store.root == t
      case Err(e) => r == Err(e) && self.store.root == old(self.store.root)
  {
    match UpdateTree(self.store.root, self.path, name, x)
    case Ok(t) =>
      self.store.root := t;
      r := Ok(self);
    case Err(e) =>
      r := Err(e);
  }

  /** __setattr__(name, o). */
  method SetAttr(self: Value, name: string, o: PyObject) returns (r: Result<Value, SetError>)
    modifies self.store
    ensures SetEffect(SetAttrOverloads, old(self.store.root), self, name, o, r, self.store.root)
  {
    var arg := Resolve(SetAttrOverloads, o);
    if arg.None? {
      return Err(TypeError);
    }
    var u := Update(self, name, arg.value);
    r := match u case Ok(v) => Ok(v) case Err(e) => Err(UpdateFailed(e));
  }

  /** __setitem__(name, o). */
  method SetItem(self: Value, name: string, o: PyObject) returns (r: Result<Value, SetError>)
    modifies self.store
    ensures SetEffect(SetItemOverloads, old(self.store.root), self, name, o, r, self.store.root)
  {
    var arg := Resolve(SetItemOverloads, o);
    if arg.None? {
      return Err(TypeError);
    }
    var u := Update(self, name, arg.value);
    r := match u case Ok(v) => Ok(v) case Err(e) => Err(UpdateFailed(e));
  }
}
