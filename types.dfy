/**
 * The reflect-level model of Go types and values the codec is driven by.
 *
 * Types live in a finite table indexed by `TypeId`, so that recursive types
 * (a struct holding a pointer to itself) can be written down. Values mirror
 * the shapes; a pointer is the address of a cell of a heap.
 */
module Types {
  import opened Wrappers
  import opened Binary

  type TypeId = nat
  type Addr = nat

  /** A struct field as `reflect.StructField` shows it. The tag is its list of `key:"value"` pairs. */
  datatype StructField = StructField(name: string, exported: bool, anonymous: bool, tag: seq<(string, string)>, typ: TypeId)

  /** The kinds the codec distinguishes; `Unsupported` stands for map, chan, func, complex and unsafe pointer kinds. */
  datatype Shape =
    | Bool
    | Int | Int8 | Int16 | Int32 | Int64
    | Uint | Uint8 | Uint16 | Uint32 | Uint64 | Uintptr
    | String
    | Struct(fields: seq<StructField>)
    | Array(len: nat, elem: TypeId)
    | Slice(elem: TypeId)
    | Ptr(elem: TypeId)
    | Interface
    | Unsupported

  /** A named type: `name` is what `reflect.Type.String()` prints. */
  datatype GoType = GoType(name: string, shape: Shape)

  type TypeTable = map<TypeId, GoType>

  /**
   * Go forbids types of infinite size: a struct's fields and an array's
   * element are types of smaller id here; pointers and slices may refer to any type.
   */
  ghost predicate WellFormed(table: TypeTable)
  {
    forall t {:trigger ElemsFit(table, t)} :: t in table ==> ElemsFit(table, t)
  }

  ghost predicate ElemsFit(table: TypeTable, t: TypeId)
    requires t in table
  {
    match table[t].shape
    case Struct(fs) => forall i :: 0 <= i < |fs| ==> fs[i].typ in table && fs[i].typ < t
    case Array(_, e) => e in table && e < t
    case Slice(e) => e in table
    case Ptr(e) => e in table
    case _ => true
  }

  /** The type of a struct field is in the table, with a smaller id. */
  lemma FieldType(table: TypeTable, t: TypeId, i: nat)
    requires WellFormed(table) && t in table && table[t].shape.Struct? && i < |table[t].shape.fields|
    ensures table[t].shape.fields[i].typ in table && table[t].shape.fields[i].typ < t
  {
    assert ElemsFit(table, t);
  }

  /** The element type of an array, slice or pointer type is in the table; an array's has a smaller id. */
  lemma ElemType(table: TypeTable, t: TypeId)
    requires WellFormed(table) && t in table
    requires table[t].shape.Array? || table[t].shape.Slice? || table[t].shape.Ptr?
    ensures table[t].shape.elem in table
    ensures table[t].shape.Array? ==> table[t].shape.elem < t
  {
    assert ElemsFit(table, t);
  }

  /** `reflect.StructTag.Get`: the value of the first pair with this key, or "". */
  function TagGet(tag: seq<(string, string)>, key: string): string
    decreases |tag|
  {
    if |tag| == 0 then "" else if tag[0].0 == key then tag[0].1 else TagGet(tag[1..], key)
  }

  /**
   * The integer codec `newTypeCodec` picks for a kind (codec.go:242-260):
   * `int` is treated as `int64`, `uint` and `uintptr` as `uint64`.
   */
  function IntKindOf(s: Shape): (k: Option<IntKind>)
    ensures k.Some? <==> (s.Int? || s.Int8? || s.Int16? || s.Int32? || s.Int64? ||
                          s.Uint? || s.Uint8? || s.Uint16? || s.Uint32? || s.Uint64? || s.Uintptr?)
  {
    match s
    case Int8 => Some(I8)
    case Int16 => Some(I16)
    case Int32 => Some(I32)
    case Int | Int64 => Some(I64)
    case Uint8 => Some(U8)
    case Uint16 => Some(U16)
    case Uint32 => Some(U32)
    case Uint | Uint64 | Uintptr => Some(U64)
    case _ => None
  }

  /**
   * Values. `VInt` holds the `int64` of a signed kind, `VUint` the `uint64` of an
   * unsigned one; a slice is its nil flag, its length and its backing array
   * (whose size is the capacity); `VOpaque` is a value of an unsupported kind.
   */
  datatype Value =
    | VBool(b: bool)
    | VInt(i: int)
    | VUint(u: int)
    | VString(s: seq<Byte>)
    | VStruct(fields: seq<Value>)
    | VArray(elems: seq<Value>)
    | VSlice(isNil: bool, len: nat, backing: seq<Value>)
    | VPtr(target: Option<Addr>)
    | VIface(dyn: Option<Boxed>)
    | VOpaque

  /** The cells pointers point to. */
  type Heap = map<Addr, Value>

  /** The dynamic type and value held by a non-nil interface. */
  datatype Boxed = Boxed(typ: TypeId, val: Value)

  /** The number of value nodes, used to measure recursion into values. */
  function Size(v: Value): (n: nat)
    ensures n >= 1
  {
    match v
    case VStruct(fs) => 1 + SizeAll(fs)
    case VArray(es) => 1 + SizeAll(es)
    case VSlice(_, _, bs) => 1 + SizeAll(bs)
    case VIface(Some(b)) => 1 + Size(b.val)
    case _ => 1
  }

  function SizeAll(vs: seq<Value>): nat
  {
    if |vs| == 0 then 0 else Size(vs[0]) + SizeAll(vs[1..])
  }

  lemma {:induction false} SizeAllElement(vs: seq<Value>, i: nat)
    requires i < |vs|
    ensures Size(vs[i]) <= SizeAll(vs)
    decreases i
  {
    if i > 0 {
      SizeAllElement(vs[1..], i - 1);
    }
  }

  /** `reflect.Zero(t)`: the zero value of a type. */
  function Zero(table: TypeTable, t: TypeId): (z: Value)
    requires WellFormed(table) && t in table
    decreases t
  {
    assert ElemsFit(table, t);
    match table[t].shape
    case Bool => VBool(false)
    case Int | Int8 | Int16 | Int32 | Int64 => VInt(0)
    case Uint | Uint8 | Uint16 | Uint32 | Uint64 | Uintptr => VUint(0)
    case String => VString([])
    case Struct(fs) => VStruct(seq(|fs|, i requires 0 <= i < |fs| => Zero(table, fs[i].typ)))
    case Array(n, e) => VArray(seq(n, _ => Zero(table, e)))
    case Slice(_) => VSlice(true, 0, [])
    case Ptr(_) => VPtr(None)
    case Interface => VIface(None)
    case Unsupported => VOpaque
  }

  /** The external text and packed-decimal converters, as functions that may fail. */
  datatype Transcoders = Transcoders(
    bcdEncode: (seq<Byte>, int) -> Option<seq<Byte>>,
    bcdDecode: seq<Byte> -> Option<seq<Byte>>,
    gbkEncode: seq<Byte> -> Option<seq<Byte>>,
    gbkDecode: seq<Byte> -> Option<seq<Byte>>,
    gb18030Encode: seq<Byte> -> Option<seq<Byte>>,
    gb18030Decode: seq<Byte> -> Option<seq<Byte>>)

  /** What the codec runs against: the program's types and the external converters. */
  datatype Env = Env(table: TypeTable, tx: Transcoders)
}
