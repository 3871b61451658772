/** An abstract model of the pvxs data structures that src/data.cpp exposes: type codes,
    storage classifications, type definitions and the tree of fields a Value handle points
    into, with lookup, coercion (Value::as) and assignment (Value::from) as partial functions. */
module PvxsValue {
  import opened Marshal

  /** The type codes that TypeCodeEnum names. */
  datatype TypeCode =
    | Bool | UInt8 | UInt16 | UInt32 | UInt64
    | Int8 | Int8A | Int16 | Int16A | Int32 | Int32A | Int64 | Int64A
    | Float32 | Float64 | String | Struct

  /** The pvAccess type-code byte of each code (the integer value of the Python IntEnum member). */
  function Code(tc: TypeCode): nat {
    match tc
    case Bool => 0x00
    case Int8 => 0x20
    case Int16 => 0x21
    case Int32 => 0x22
    case Int64 => 0x23
    case UInt8 => 0x24
    case UInt16 => 0x25
    case UInt32 => 0x26
    case UInt64 => 0x27
    case Int8A => 0x28
    case Int16A => 0x29
    case Int32A => 0x2a
    case Int64A => 0x2b
    case Float32 => 0x42
    case Float64 => 0x43
    case String => 0x60
    case Struct => 0x80
  }

  /** The name TypeCodeEnum registers for a code. */
  function Name(tc: TypeCode): string {
    match tc
    case Bool => "Bool"
    case UInt8 => "UInt8"
    case UInt16 => "UInt16"
    case UInt32 => "UInt32"
    case UInt64 => "UInt64"
    case Int8 => "Int8"
    case Int8A => "Int8A"
    case Int16 => "Int16"
    case Int16A => "Int16A"
    case Int32 => "Int32"
    case Int32A => "Int32A"
    case Int64 => "Int64"
    case Int64A => "Int64A"
    case Float32 => "Float32"
    case Float64 => "Float64"
    case String => "String"
    case Struct => "Struct"
  }

  /** The coarse storage classification that governs which coercions are legal. */
  datatype StoreType = Null | Bool | UInteger | Integer | Real | String | Compound | Array

  function StoreTypeOf(tc: TypeCode): StoreType {
    match tc
    case Bool => StoreType.Bool
    case UInt8 | UInt16 | UInt32 | UInt64 => UInteger
    case Int8 | Int16 | Int32 | Int64 => Integer
    case Int8A | Int16A | Int32A | Int64A => Array
    case Float32 | Float64 => Real
    case String => StoreType.String
    case Struct => Compound
  }

  /** Member(code, name[, children]) and TypeDef(code, id, children) as built from Python. */
  datatype Member = Member(code: TypeCode, name: string, children: seq<Member>)
  datatype TypeDef = TypeDef(code: TypeCode, id: string, members: seq<Member>)

  /** The value a node stores. */
  datatype Stored =
    | NoValue
    | BoolV(b: bool)
    | UIntV(n: nat)
    | IntV(i: int)
    | RealV(f: Float)
    | StrV(s: string)
    | ArrV(a: SharedArray)

  /** A stored value belongs to the storage classification of its node. */
  predicate Fits(st: StoreType, v: Stored) {
    match st
    case Null => v.NoValue?
    case Bool => v.BoolV?
    case UInteger => v.UIntV? && v.n <= MaxOf(U64)
    case Integer => v.IntV? && InRange(I64, v.i)
    case Real => v.RealV?
    case String => v.StrV?
    case Compound => v.NoValue?
    case Array => v.ArrV?
  }

  /** A node of a value tree: its type code, its own stored value and its fields in
      declaration order. */
  datatype Field = Field(name: string, node: Node)
  datatype Node = Node(code: TypeCode, val: Stored, fields: seq<Field>)

  /** The storage classification of a node never disagrees with what it stores, and only
      compound nodes have fields. */
  ghost predicate Valid(n: Node) decreases n {
    && Fits(StoreTypeOf(n.code), n.val)
    && (StoreTypeOf(n.code) != Compound ==> n.fields == [])
    && forall i :: 0 <= i < |n.fields| ==> Valid(n.fields[i].node)
  }

  /** Two trees with the same type codes and field names in the same places: what an
      assignment must leave alone. */
  ghost predicate SameShape(a: Node, b: Node) decreases a {
    && a.code == b.code
    && |a.fields| == |b.fields|
    && forall i :: 0 <= i < |a.fields| ==>
         a.fields[i].name == b.fields[i].name && SameShape(a.fields[i].node, b.fields[i].node)
  }

  // ---------------------------------------------------------------------------------------
  // Field lookup

  /** The position of the first field with the given name. */
  function FieldIndex(fields: seq<Field>, name: string): (r: Option<nat>)
    ensures r.Some? ==> r.value < |fields| && fields[r.value].name == name
    ensures r.Some? ==> forall j :: 0 <= j < r.value ==> fields[j].name != name
    ensures r.None? ==> forall j :: 0 <= j < |fields| ==> fields[j].name != name
  {
    if fields == [] then None
    else if fields[0].name == name then Some(0)
    else
      match FieldIndex(fields[1..], name)
      case None => None
      case Some(k) => Some(k + 1)
  }

  /** The components of a dotted field name ("substruct.flag"). */
  function SplitPath(name: string): (parts: seq<string>)
    ensures |parts| > 0
    ensures forall k :: 0 <= k < |parts| ==> '.' !in parts[k]
    ensures Join(parts) == name
  {
    if '.' !in name then [name]
    else
      var k := FirstDot(name);
      var rest := SplitPath(name[k + 1..]);
      assert ([name[..k]] + rest)[1..] == rest;
      assert name == name[..k] + "." + name[k + 1..];
      [name[..k]] + rest
  }

  /** The components joined with dots. */
  function Join(parts: seq<string>): string
    requires |parts| > 0
  {
    if |parts| == 1 then parts[0] else parts[0] + "." + Join(parts[1..])
  }

  function FirstDot(s: string): (k: nat)
    requires '.' in s
    ensures k < |s| && s[k] == '.' && '.' !in s[..k]
  {
    if s[0] == '.' then 0 else 1 + FirstDot(s[1..])
  }

  /** The node at a path of field positions. */
  function NodeAt(n: Node, p: seq<nat>): Option<Node>
    decreases p
  {
    if p == [] then Some(n)
    else if p[0] < |n.fields| then NodeAt(n.fields[p[0]].node, p[1..])
    else None
  }

  /** Resolves a sequence of field names, one level each, to a path of positions. */
  function PathTo(n: Node, names: seq<string>): (r: Option<seq<nat>>)
    ensures r.Some? ==> |r.value| == |names| && NodeAt(n, r.value).Some?
    ensures r.Some? ==> forall k :: 0 <= k < |names| ==> ComponentAt(n, r.value, k, names[k])
    decreases names
  {
    if names == [] then Some([])
    else
      match FieldIndex(n.fields, names[0])
      case None => None
      case Some(i) =>
        match PathTo(n.fields[i].node, names[1..])
        case None => None
        case Some(rest) =>
          var p := [i] + rest;
          assert p[1..] == rest;
          assert forall k :: 0 < k <= |rest| ==> p[..k][1..] == rest[..k - 1];
          assert forall k :: 0 < k < |names| ==> p[k] == rest[k - 1] && names[k] == names[1..][k - 1];
          Some(p)
  }

  /** Position k of path p is that of a field named `name` in the node that the first k
      positions lead to. */
  ghost predicate ComponentAt(n: Node, p: seq<nat>, k: nat, name: string)
    requires k < |p|
  {
    && NodeAt(n, p[..k]).Some?
    && p[k] < |NodeAt(n, p[..k]).value.fields|
    && NodeAt(n, p[..k]).value.fields[p[k]].name == name
  }

  lemma {:induction false} NodeAtAppend(n: Node, p: seq<nat>, q: seq<nat>)
    ensures NodeAt(n, p + q) == match NodeAt(n, p) case None => None case Some(m) => NodeAt(m, q)
    decreases p
  {
    if p == [] {
      assert p + q == q;
    } else {
      assert (p + q)[0] == p[0] && (p + q)[1..] == p[1..] + q;
      if p[0] < |n.fields| {
        NodeAtAppend(n.fields[p[0]].node, p[1..], q);
      }
    }
  }

  /** A name that does not resolve fails at some component: the components before it
      resolve, and no field of the node they lead to has its name. Lookup never invents a
      field. */
  lemma {:induction false} PathToComplete(n: Node, names: seq<string>)
    requires PathTo(n, names).None?
    ensures exists k :: FailsAt(n, names, k)
    decreases names
  {
    assert names[..0] == [];
    assert PathTo(n, names[..0]) == Some([]);
    match FieldIndex(n.fields, names[0])
    case None =>
      assert FailsAt(n, names, 0);
    case Some(i) =>
      var child := n.fields[i].node;
      PathToComplete(child, names[1..]);
      var k: nat :| FailsAt(child, names[1..], k);
      var q := PathTo(child, names[1..][..k]).value;
      assert names[..k + 1][0] == names[0] && names[..k + 1][1..] == names[1..][..k];
      assert PathTo(n, names[..k + 1]) == Some([i] + q);
      NodeAtAppend(n, [i], q);
      assert FailsAt(n, names, k + 1);
  }

  /** Components 0..k-1 of the name resolve, and no field of the node they lead to is named
      names[k]. */
  ghost predicate FailsAt(n: Node, names: seq<string>, k: nat) {
    && k < |names|
    && PathTo(n, names[..k]).Some?
    && forall j :: 0 <= j < |NodeAt(n, PathTo(n, names[..k]).value).value.fields| ==>
         NodeAt(n, PathTo(n, names[..k]).value).value.fields[j].name != names[k]
  }

  /** The tree with the stored value at path p replaced by v (p must resolve). */
  function ReplaceAt(n: Node, p: seq<nat>, v: Stored): Node
    decreases p
  {
    if p == [] then n.(val := v)
    else if p[0] < |n.fields| then
      var f := n.fields[p[0]];
      n.(fields := n.fields[p[0] := Field(f.name, ReplaceAt(f.node, p[1..], v))])
    else n
  }

  /** Assignment changes values only: type codes and field names stay where they were. */
  lemma {:induction false} ReplacePreservesShape(n: Node, p: seq<nat>, v: Stored)
    ensures SameShape(n, ReplaceAt(n, p, v))
    decreases p
  {
    SameShapeReflexive(n);
    if p != [] && p[0] < |n.fields| {
      ReplacePreservesShape(n.fields[p[0]].node, p[1..], v);
    }
  }

  lemma {:induction false} SameShapeReflexive(n: Node)
    ensures SameShape(n, n)
    decreases n
  {
    forall i | 0 <= i < |n.fields| ensures SameShape(n.fields[i].node, n.fields[i].node) {
      SameShapeReflexive(n.fields[i].node);
    }
  }

  /** Paths that resolve in one tree resolve in every tree of the same shape: handles stay
      usable across assignments. */
  lemma {:induction false} SameShapeResolves(a: Node, b: Node, p: seq<nat>)
    requires SameShape(a, b) && NodeAt(a, p).Some?
    ensures NodeAt(b, p).Some? && SameShape(NodeAt(a, p).value, NodeAt(b, p).value)
    decreases p
  {
    if p != [] {
      SameShapeResolves(a.fields[p[0]].node, b.fields[p[0]].node, p[1..]);
    }
  }

  /** Reading back at the assigned path gives the assigned value. */
  lemma {:induction false} ReadAfterWrite(n: Node, p: seq<nat>, v: Stored)
    requires NodeAt(n, p).Some?
    ensures NodeAt(ReplaceAt(n, p, v), p).Some?
    ensures NodeAt(ReplaceAt(n, p, v), p).value == NodeAt(n, p).value.(val := v)
    decreases p
  {
    if p != [] {
      ReadAfterWrite(n.fields[p[0]].node, p[1..], v);
    }
  }

  /** Every other node keeps its stored value. */
  lemma {:induction false} OthersUnchanged(n: Node, p: seq<nat>, q: seq<nat>, v: Stored)
    requires q != p && NodeAt(n, q).Some?
    ensures NodeAt(ReplaceAt(n, p, v), q).Some?
    ensures NodeAt(ReplaceAt(n, p, v), q).value.val == NodeAt(n, q).value.val
    decreases q
  {
    if q != [] && p != [] && p[0] < |n.fields| {
      var f := n.fields[p[0]];
      if q[0] == p[0] {
        assert q[1..] != p[1..];
        OthersUnchanged(f.node, p[1..], q[1..], v);
      }
    } else if q != [] && p == [] {
    }
  }

  /** Assigning a value that fits the target's classification keeps the tree valid. */
  lemma {:induction false} ReplacePreservesValid(n: Node, p: seq<nat>, v: Stored)
    requires Valid(n) && NodeAt(n, p).Some? && Fits(StoreTypeOf(NodeAt(n, p).value.code), v)
    ensures Valid(ReplaceAt(n, p, v))
    decreases p
  {
    if p != [] {
      var f := n.fields[p[0]];
      ReplacePreservesValid(f.node, p[1..], v);
      var m := ReplaceAt(n, p, v);
      forall i | 0 <= i < |m.fields| ensures Valid(m.fields[i].node) {
        if i != p[0] { assert m.fields[i] == n.fields[i]; }
      }
    }
  }

  // ---------------------------------------------------------------------------------------
  // Coercion and assignment of native values

  /** The C++ values crossing the binding: the arguments of the four update overloads and
      the results of the as<T> conversions. */
  datatype Native =
    | NBool(b: bool)
    | NInt(i: int)
    | NDouble(f: Float)
    | NString(s: string)
    | NIntArray(elems: seq<Elem>)
    | NStringArray(elems: seq<Elem>)

  /** The T of Value::as<T>() as bound: bool, int64_t, double, std::string,
      shared_array<const int64_t> and shared_array<const std::string>. */
  datatype Conversion = ToBool | ToInt64 | ToDouble | ToString | ToInt64Array | ToStringArray

  datatype PvxsError = LookupError | NoField | NoConvert

  /** Decimal rendering of an integer. */
  function Decimal(i: int): (s: string)
    ensures |s| > 0
  {
    if i < 0 then "-" + Digits(-i) else Digits(i)
  }

  function Digits(n: nat): (s: string)
    ensures |s| > 0
  {
    if n < 10 then [DigitChar(n)] else Digits(n / 10) + [DigitChar(n % 10)]
  }

  function DigitChar(d: nat): char
    requires d < 10
  {
    "0123456789"[d]
  }

  predicate IsIntegerKind(k: ArrayType) {
    k == ArrayType.Int8 || k == ArrayType.Int16 || k == ArrayType.Int32 || k == ArrayType.Int64 ||
    k == ArrayType.UInt8 || k == ArrayType.UInt16 || k == ArrayType.UInt32 || k == ArrayType.UInt64
  }

  /** Value::as<T>() on a node (a simplified conversion table). */
  function As(n: Node, c: Conversion): (r: Result<Native, PvxsError>)
    ensures r.Ok? && c == ToBool ==> r.value.NBool?
    ensures r.Ok? && c == ToInt64 ==> r.value.NInt?
    ensures r.Ok? && c == ToInt64 && Fits(StoreTypeOf(n.code), n.val) ==> InRange(I64, r.value.i)
    ensures r.Ok? && c == ToDouble ==> r.value.NDouble?
    ensures r.Ok? && c == ToString ==> r.value.NString?
    ensures r.Ok? && c == ToInt64Array ==> r.value.NIntArray?
    ensures r.Ok? && c == ToStringArray ==> r.value.NStringArray?
    ensures StoreTypeOf(n.code) == Compound && Fits(Compound, n.val) ==> r == Err(NoConvert)
  {
    match (c, n.val)
    case (ToBool, BoolV(b)) => Ok(NBool(b))
    case (ToBool, IntV(i)) => Ok(NBool(i != 0))
    case (ToBool, UIntV(k)) => Ok(NBool(k != 0))
    case (ToInt64, IntV(i)) => Ok(NInt(i))
    case (ToInt64, UIntV(k)) =>
      Ok(NInt(if k <= MaxOf(I64) then k else k - 0x1_0000_0000_0000_0000))
    case (ToInt64, BoolV(b)) => Ok(NInt(if b then 1 else 0))
    case (ToDouble, RealV(f)) => Ok(NDouble(f))
    case (ToDouble, IntV(i)) => Ok(NDouble(NearestTo(i)))
    case (ToDouble, UIntV(k)) => Ok(NDouble(NearestTo(k)))
    case (ToString, StrV(s)) => Ok(NString(s))
    case (ToString, IntV(i)) => Ok(NString(Decimal(i)))
    case (ToString, UIntV(k)) => Ok(NString(Decimal(k)))
    case (ToString, BoolV(b)) => Ok(NString(if b then "true" else "false"))
    case (ToInt64Array, ArrV(a)) =>
      if IsIntegerKind(a.kind) || a.elems == [] then Ok(NIntArray(a.elems)) else Err(NoConvert)
    case (ToStringArray, ArrV(a)) =>
      if a.kind == ArrayType.String || a.elems == [] then Ok(NStringArray(a.elems)) else Err(NoConvert)
    case _ => Err(NoConvert)
  }

  /** Value::from(x) on a node of a given classification (a simplified conversion table): the
      new stored value, or NoConvert when the classification cannot hold x. */
  function From(st: StoreType, x: Native): (r: Result<Stored, PvxsError>)
    ensures r.Ok? ==> Fits(st, r.value)
    ensures st == Compound || st == StoreType.Null ==> r == Err(NoConvert)
  {
    match (st, x)
    case (Integer, NInt(i)) => if InRange(I64, i) then Ok(IntV(i)) else Err(NoConvert)
    case (UInteger, NInt(i)) => Ok(UIntV(i % 0x1_0000_0000_0000_0000))
    case (Bool, NInt(i)) => Ok(BoolV(i != 0))
    case (Real, NInt(i)) => Ok(RealV(NearestTo(i)))
    case (String, NInt(i)) => Ok(StrV(Decimal(i)))
    case (Real, NDouble(f)) => Ok(RealV(f))
    case (String, NString(s)) => Ok(StrV(s))
    case (Array, NIntArray(es)) => Ok(ArrV(SharedArray(ArrayType.Int64, es)))
    case _ => Err(NoConvert)
  }

  /** Assigning in a field of the matching classification and reading back with the matching
      conversion gives the assigned value: ints in the int64 range, doubles, strings and
      int64 arrays. */
  lemma AssignThenRead(n: Node, x: Native)
    requires x.NInt? ==> StoreTypeOf(n.code) == Integer && InRange(I64, x.i)
    requires x.NDouble? ==> StoreTypeOf(n.code) == Real
    requires x.NString? ==> StoreTypeOf(n.code) == StoreType.String
    requires x.NIntArray? ==> StoreTypeOf(n.code) == Array
    requires !x.NBool? && !x.NStringArray?
    ensures From(StoreTypeOf(n.code), x).Ok?
    ensures As(n.(val := From(StoreTypeOf(n.code), x).value),
               match x
               case NInt(_) => ToInt64 case NDouble(_) => ToDouble
               case NString(_) => ToString case _ => ToInt64Array) == Ok(x)
  {
  }

  /** A Python bool arrives as 0 or 1 and reads back as the same truth value from a Bool field. */
  lemma AssignBoolThenRead(n: Node, b: bool)
    requires StoreTypeOf(n.code) == StoreType.Bool
    ensures From(StoreType.Bool, NInt(if b then 1 else 0)) == Ok(BoolV(b))
    ensures As(n.(val := BoolV(b)), ToBool) == Ok(NBool(b))
  {
  }

  // ---------------------------------------------------------------------------------------
  // TypeDef::create()

  /** The default value of a freshly created field: false, 0, the +0.0 token, "", the empty
      untyped array, or nothing for a structure. */
  function Default(tc: TypeCode): (v: Stored)
    ensures Fits(StoreTypeOf(tc), v)
  {
    match StoreTypeOf(tc)
    case Bool => BoolV(false)
    case UInteger => UIntV(0)
    case Integer => IntV(0)
    case Real => RealV(Token(0))
    case String => StrV("")
    case Array => ArrV(EmptyArray)
    case _ => NoValue
  }

  /** TypeDef::create(): a tree with one field per member, in declaration order. */
  function Create(td: TypeDef): (n: Node)
    ensures Valid(n) && n.code == td.code
    ensures StoreTypeOf(td.code) == Compound ==> FieldNames(n.fields) == MemberNames(td.members)
  {
    CreateNode(td.code, td.members)
  }

  function CreateNode(code: TypeCode, members: seq<Member>): (n: Node)
    ensures Valid(n) && n.code == code
    ensures StoreTypeOf(code) == Compound ==> FieldNames(n.fields) == MemberNames(members)
    decreases members, 1
  {
    Node(code, Default(code), if StoreTypeOf(code) == Compound then CreateFields(members) else [])
  }

  function CreateFields(members: seq<Member>): (fs: seq<Field>)
    ensures |fs| == |members|
    ensures forall i :: 0 <= i < |fs| ==> fs[i].name == members[i].name && Valid(fs[i].node)
    decreases members, 0
  {
    if members == [] then []
    else [Field(members[0].name, CreateNode(members[0].code, members[0].children))] + CreateFields(members[1..])
  }

  function FieldNames(fs: seq<Field>): (names: seq<string>)
    ensures |names| == |fs| && forall i :: 0 <= i < |fs| ==> names[i] == fs[i].name
  {
    seq(|fs|, i requires 0 <= i < |fs| => fs[i].name)
  }

  function MemberNames(ms: seq<Member>): (names: seq<string>)
    ensures |names| == |ms| && forall i :: 0 <= i < |ms| ==> names[i] == ms[i].name
  {
    seq(|ms|, i requires 0 <= i < |ms| => ms[i].name)
  }
}
