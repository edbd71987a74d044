/**
 * What encoding a value writes, or how it fails, as a function of the value's
 * type: the `encode` methods of the codecs (codec.go:289-290, 359-521,
 * 618-651, 695-723, 744-838, 901-971, 1025-1041) read as one recursive
 * definition.
 *
 * A struct type's field list is taken from `lists`, the field lists the
 * struct codecs share with the field cache. The pointer track of the
 * `CodecState` is the pair `level`, `seen`: encoding returns nothing but
 * bytes, and the track is back at its entry value whenever it returns.
 */
module EncSpec {
  import opened Wrappers
  import opened Binary
  import opened Types
  import opened Tags
  import opened StructFields
  import opened Outcomes

  /** `startDetectingCyclesAfter` (codec.go:87). */
  const CycleCheckDepth: nat := 1000

  /** Every (pointer type, address) pair a cycle check can record. */
  function Universe(table: TypeTable, heap: Heap): (u: set<(TypeId, Addr)>)
    ensures forall t, a :: t in table && a in heap ==> (t, a) in u
  {
    set t, a | t in table.Keys && a in heap.Keys :: (t, a)
  }

  /**
   * How many more pointers can be followed: the nesting levels left before
   * cycle checks start, plus the pairs not yet recorded.
   */
  function Budget(table: TypeTable, heap: Heap, level: nat, seen: set<(TypeId, Addr)>): nat
  {
    (if level < CycleCheckDepth then CycleCheckDepth - level else 0) + |Universe(table, heap) - seen|
  }

  /** The pairs recorded after following pointer `a` of type `t` from nesting level `level`. */
  function Deeper(level: nat, seen: set<(TypeId, Addr)>, t: TypeId, a: Addr): set<(TypeId, Addr)>
  {
    if level + 1 > CycleCheckDepth then seen + {(t, a)} else seen
  }

  /** Following a pointer one level deeper uses up budget. */
  lemma BudgetDrops(table: TypeTable, heap: Heap, level: nat, seen: set<(TypeId, Addr)>, t: TypeId, a: Addr)
    requires t in table && a in heap
    requires level + 1 > CycleCheckDepth ==> (t, a) !in seen
    ensures Budget(table, heap, level + 1, Deeper(level, seen, t, a)) < Budget(table, heap, level, seen)
  {
    if level + 1 > CycleCheckDepth {
      var u := Universe(table, heap);
      assert u - seen == (u - (seen + {(t, a)})) + {(t, a)};
    }
  }

  /** `bytes.Join(buf, []byte{})`. */
  function Concat(slots: seq<seq<Byte>>): (b: seq<Byte>)
  {
    if |slots| == 0 then [] else slots[0] + Concat(slots[1..])
  }

  /** An empty slot per field: `make([][]byte, len(list))` (codec.go:745). */
  function EmptySlots(n: nat): (slots: seq<seq<Byte>>)
    ensures |slots| == n && forall i :: 0 <= i < n ==> slots[i] == []
  {
    seq(n, _ => [])
  }

  /**
   * The length check of the raw string, array and slice encoders
   * (codec.go:648-650, 909-912, 967-970): a non-zero tag length must equal
   * the number of bytes written.
   */
  function CheckLength(site: Site, b: seq<Byte>, to: TagOptions): (r: Outcome<seq<Byte>>)
  {
    if to.length != 0 && |b| != to.length then Raise(LengthErr(site, |b|, to.length)) else Done(b)
  }

  /**
   * `stringCoder.encode` (codec.go:618-651): packed decimal when `bcd` is set,
   * else GB18030 or GBK text when either flag is set, else the raw bytes
   * with the length check.
   */
  function EncString(tx: Transcoders, s: seq<Byte>, to: TagOptions): Outcome<seq<Byte>>
  {
    if to.bcd != 0 then
      match tx.bcdEncode(s, to.bcd)
      case None => Raise(EncodeBCDErr)
      case Some(b) => Done(b)
    else if to.gbk || to.gbk18030 then
      var encode := if to.gbk18030 then tx.gb18030Encode else tx.gbkEncode;
      match encode(s)
      case None => Raise(EncodeGBKErr)
      case Some(b) => Done(b)
    else
      CheckLength(StringSite, s, to)
  }

  /** The bytes the integer encoder of kind `k` writes for `v` (codec.go:381-521). */
  function EncInt(k: IntKind, v: Value): Outcome<seq<Byte>>
  {
    if k.Signed() && v.VInt? then Done(EncodeInt(k, v.i))
    else if !k.Signed() && v.VUint? then Done(EncodeInt(k, v.u))
    else Abort(IllTyped)
  }

  /**
   * The value `encodeLengthref` encodes as the length (codec.go:806-821):
   * the byte count converted to the holder's kind, wrapping as Go's
   * conversions `int8(length)`, `uint16(length)` and so on do.
   */
  function LengthValue(k: IntKind, n: nat): (v: Value)
    ensures k.Signed() ==> v.VInt? && InRange(k, v.i)
    ensures !k.Signed() ==> v == VUint(n % Pow256(k.Width()))
  {
    if k.Signed() then
      SignExtendRange(Truncate(n, k.Width()), k.Width());
      VInt(SignExtend(Truncate(n, k.Width()), k.Width()))
    else VUint(Truncate(n, k.Width()))
  }

  /** Encoding `v`, a value of type `t`, with tag options `to`. */
  function Enc(env: Env, lists: FieldLists, heap: Heap, t: TypeId, v: Value, to: TagOptions,
               level: nat, seen: set<(TypeId, Addr)>): Outcome<seq<Byte>>
    requires WellFormed(env.table) && t in env.table
    decreases Budget(env.table, heap, level, seen), Size(v), 5, 0
  {
    match env.table[t].shape
    case Interface => EncIface(env, lists, heap, t, v, to, level, seen)
    case Struct(_) => EncStruct(env, lists, heap, t, v, level, seen)
    case Array(_, _) => EncArray(env, lists, heap, t, v, to, level, seen)
    case Slice(_) => EncSlice(env, lists, heap, t, v, to, level, seen)
    case Ptr(_) => EncPtr(env, lists, heap, t, v, to, level, seen)
    case _ => EncScalar(env, t, v, to)
  }

  /**
   * The encoders of the types with no parts: `boolCoder`, the integer
   * coders, `stringCoder` and `unsupportedTypeCoder` (codec.go:359-521,
   * 618-651, 711-723).
   */
  function EncScalar(env: Env, t: TypeId, v: Value, to: TagOptions): Outcome<seq<Byte>>
    requires t in env.table
  {
    match env.table[t].shape
    case Bool => if v.VBool? then Done([if v.b then 1 else 0]) else Abort(IllTyped)
    case String => if v.VString? then EncString(env.tx, v.s, to) else Abort(IllTyped)
    case Unsupported => Raise(UnsupportedTypeError(env.table[t].name))
    case _ =>
      match IntKindOf(env.table[t].shape)
      case Some(k) => EncInt(k, v)
      case None => Abort(IllTyped)
  }

  /** `interfaceCoder.encode` (codec.go:695-701): nothing for nil, else the dynamic value as its dynamic type. */
  function EncIface(env: Env, lists: FieldLists, heap: Heap, t: TypeId, v: Value, to: TagOptions,
                    level: nat, seen: set<(TypeId, Addr)>): Outcome<seq<Byte>>
    requires WellFormed(env.table)
    decreases Budget(env.table, heap, level, seen), Size(v), 4, 0
  {
    match v
    case VIface(None) => Done([])
    case VIface(Some(b)) =>
      if b.typ !in env.table then Abort(IllTyped)
      else Enc(env, lists, heap, b.typ, b.val, to, level, seen)
    case _ => Abort(IllTyped)
  }

  /** `arrayCoder.encode` (codec.go:901-913). */
  function EncArray(env: Env, lists: FieldLists, heap: Heap, t: TypeId, v: Value, to: TagOptions,
                    level: nat, seen: set<(TypeId, Addr)>): Outcome<seq<Byte>>
    requires WellFormed(env.table) && t in env.table && env.table[t].shape.Array?
    decreases Budget(env.table, heap, level, seen), Size(v), 4, 0
  {
    match v
    case VArray(es) =>
      if |es| != env.table[t].shape.len then Abort(IllTyped)
      else EncSeq(env, lists, heap, t, v, es, |es|, to, ArraySite, level, seen)
    case _ => Abort(IllTyped)
  }

  /** `sliceCoder.encode` (codec.go:959-971): the first `len` elements of the backing array. */
  function EncSlice(env: Env, lists: FieldLists, heap: Heap, t: TypeId, v: Value, to: TagOptions,
                    level: nat, seen: set<(TypeId, Addr)>): Outcome<seq<Byte>>
    requires WellFormed(env.table) && t in env.table && env.table[t].shape.Slice?
    decreases Budget(env.table, heap, level, seen), Size(v), 4, 0
  {
    match v
    case VSlice(_, n, backing) =>
      if n > |backing| then Abort(IllTyped)
      else EncSeq(env, lists, heap, t, v, backing, n, to, SliceSite, level, seen)
    case _ => Abort(IllTyped)
  }

  /** `structCoder.encode` (codec.go:744-773): the slots of the fields, concatenated. */
  function EncStruct(env: Env, lists: FieldLists, heap: Heap, t: TypeId, v: Value,
                     level: nat, seen: set<(TypeId, Addr)>): Outcome<seq<Byte>>
    requires WellFormed(env.table) && t in env.table && env.table[t].shape.Struct?
    decreases Budget(env.table, heap, level, seen), Size(v), 4, 0
  {
    if !v.VStruct? || |v.fields| != |env.table[t].shape.fields| || t !in lists then Abort(IllTyped)
    else
      var slots :- EncFields(env, lists, heap, t, v.fields, lists[t], 0, EmptySlots(|lists[t]|), level, seen);
      Done(Concat(slots))
  }

  /**
   * `arrayCoder.encode` and `sliceCoder.encode` (codec.go:901-913, 959-971):
   * the first `n` elements of `es`, then the length check.
   */
  function EncSeq(env: Env, lists: FieldLists, heap: Heap, t: TypeId, v: Value, es: seq<Value>, n: nat, to: TagOptions,
                  site: Site, level: nat, seen: set<(TypeId, Addr)>): Outcome<seq<Byte>>
    requires WellFormed(env.table) && t in env.table && (env.table[t].shape.Array? || env.table[t].shape.Slice?)
    requires n <= |es| && Size(v) == 1 + SizeAll(es)
    decreases Budget(env.table, heap, level, seen), Size(v), 3, 0
  {
    ElemType(env.table, t);
    var b :- EncElems(env, lists, heap, env.table[t].shape.elem, es, n, to, 0, level, seen);
    CheckLength(site, b, to)
  }

  /** `ptrCoder.encode` (codec.go:1025-1041): nothing for nil, else the pointee. */
  function EncPtr(env: Env, lists: FieldLists, heap: Heap, t: TypeId, v: Value, to: TagOptions,
                  level: nat, seen: set<(TypeId, Addr)>): Outcome<seq<Byte>>
    requires WellFormed(env.table) && t in env.table && env.table[t].shape.Ptr?
    decreases Budget(env.table, heap, level, seen), Size(v), 4, 0
  {
    match v
    case VPtr(None) => Done([])
    case VPtr(Some(a)) =>
      if a !in heap then Abort(IllTyped)
      else EncPointee(env, lists, heap, t, a, to, level, seen)
    case _ => Abort(IllTyped)
  }

  /**
   * `ptrCoder.encode` past the nil check (codec.go:1029-1040): one level
   * deeper, past depth 1000 recording the pointer and failing on one
   * already recorded, then the element.
   */
  function EncPointee(env: Env, lists: FieldLists, heap: Heap, t: TypeId, a: Addr, to: TagOptions,
                      level: nat, seen: set<(TypeId, Addr)>): Outcome<seq<Byte>>
    requires WellFormed(env.table) && t in env.table && env.table[t].shape.Ptr? && a in heap
    decreases Budget(env.table, heap, level, seen), 1, 3, 0
  {
    if level + 1 > CycleCheckDepth && (t, a) in seen then Raise(UnsupportedValueError(env.table[t].name))
    else
      ElemType(env.table, t);
      BudgetDrops(env.table, heap, level, seen, t, a);
      Enc(env, lists, heap, env.table[t].shape.elem, heap[a], to, level + 1, Deeper(level, seen, t, a))
  }

  /** The concatenated encodings of `es[i..n]`, each with the container's options (codec.go:904-906, 962-964). */
  function EncElems(env: Env, lists: FieldLists, heap: Heap, e: TypeId, es: seq<Value>, n: nat, to: TagOptions,
                    i: nat, level: nat, seen: set<(TypeId, Addr)>): Outcome<seq<Byte>>
    requires WellFormed(env.table) && e in env.table && i <= n <= |es|
    decreases Budget(env.table, heap, level, seen), 1 + SizeAll(es), 0, n - i
  {
    if i == n then Done([])
    else
      SizeAllElement(es, i);
      var b :- Enc(env, lists, heap, e, es[i], to, level, seen);
      var rest :- EncElems(env, lists, heap, e, es, n, to, i + 1, level, seen);
      Done(b + rest)
  }

  /**
   * The loop of `structCoder.encode` (codec.go:747-771) from field `i` on,
   * with the slots filled so far.
   */
  function EncFields(env: Env, lists: FieldLists, heap: Heap, t: TypeId, vals: seq<Value>, list: seq<FieldInfo>,
                     i: nat, slots: seq<seq<Byte>>, level: nat, seen: set<(TypeId, Addr)>): Outcome<seq<seq<Byte>>>
    requires WellFormed(env.table) && t in env.table && env.table[t].shape.Struct?
    requires |vals| == |env.table[t].shape.fields| && |slots| == |list| && i <= |list|
    decreases Budget(env.table, heap, level, seen), 1 + SizeAll(vals), 2, |list| - i
  {
    if i == |list| then Done(slots)
    else
      var slots' :- EncField(env, lists, heap, t, vals, list, i, slots, level, seen);
      EncFields(env, lists, heap, t, vals, list, i + 1, slots', level, seen)
  }

  /**
   * One iteration of that loop, for field `i`: a field with a `lengthref`
   * goes through `encodeLengthref`, a field some `lengthref` names is
   * skipped, and any other field is encoded into its own slot.
   */
  function EncField(env: Env, lists: FieldLists, heap: Heap, t: TypeId, vals: seq<Value>, list: seq<FieldInfo>,
                    i: nat, slots: seq<seq<Byte>>, level: nat, seen: set<(TypeId, Addr)>): (r: Outcome<seq<seq<Byte>>>)
    requires WellFormed(env.table) && t in env.table && env.table[t].shape.Struct?
    requires |vals| == |env.table[t].shape.fields| && |slots| == |list| && i < |list|
    ensures r.Done? ==> |r.value| == |slots|
    decreases Budget(env.table, heap, level, seen), 1 + SizeAll(vals), 1, 1
  {
    var fs := env.table[t].shape.fields;
    var f := list[i];
    if f.index >= |fs| then Abort(IllTyped)
    else if f.opts.lengthref != "" then
      match FindRef(list, f)
      case None => Raise(LengthrefNotFound(f.name))
      case Some(ri) => EncLengthref(env, lists, heap, t, vals, list, i, ri, slots, level, seen)
    else if ExistLengthref(list, f) then Done(slots)
    else
      FieldType(env.table, t, f.index);
      SizeAllElement(vals, f.index);
      var b :- Enc(env, lists, heap, fs[f.index].typ, vals[f.index], f.opts, level, seen);
      Done(slots[i := b])
  }

  /**
   * `encodeLengthref` (codec.go:796-838) for holder `i` and its ref `ri`:
   * the ref field is encoded, then the holder's length (`EncHolder`).
   */
  function EncLengthref(env: Env, lists: FieldLists, heap: Heap, t: TypeId, vals: seq<Value>, list: seq<FieldInfo>,
                        i: nat, ri: nat, slots: seq<seq<Byte>>, level: nat, seen: set<(TypeId, Addr)>): (r: Outcome<seq<seq<Byte>>>)
    requires WellFormed(env.table) && t in env.table && env.table[t].shape.Struct?
    requires |vals| == |env.table[t].shape.fields| && |slots| == |list| && i < |list| && ri < |list|
    requires list[i].index < |env.table[t].shape.fields|
    ensures r.Done? ==> |r.value| == |slots|
    decreases Budget(env.table, heap, level, seen), 1 + SizeAll(vals), 1, 0
  {
    var fs := env.table[t].shape.fields;
    var ref := list[ri];
    if ref.index >= |fs| then Abort(IllTyped)
    else
      FieldType(env.table, t, ref.index);
      SizeAllElement(vals, ref.index);
      var refbytes :- Enc(env, lists, heap, fs[ref.index].typ, vals[ref.index], ref.opts, level, seen);
      EncHolder(env, lists, heap, t, vals, list, i, ri, slots, refbytes, level, seen)
  }

  /**
   * The second half of `encodeLengthref` (codec.go:805-837): the number of
   * bytes the ref took, encoded with the holder's integer kind; the holder's
   * slot gets the length and the ref's slot the ref's bytes, the latter
   * winning when they are one slot.
   */
  function EncHolder(env: Env, lists: FieldLists, heap: Heap, t: TypeId, vals: seq<Value>, list: seq<FieldInfo>,
                     i: nat, ri: nat, slots: seq<seq<Byte>>, refbytes: seq<Byte>,
                     level: nat, seen: set<(TypeId, Addr)>): (r: Outcome<seq<seq<Byte>>>)
    requires WellFormed(env.table) && t in env.table && env.table[t].shape.Struct?
    requires |vals| == |env.table[t].shape.fields| && |slots| == |list| && i < |list| && ri < |list|
    requires list[i].index < |env.table[t].shape.fields|
    ensures r.Done? ==> |r.value| == |slots|
    decreases Budget(env.table, heap, level, seen), 1 + SizeAll(vals), 0, 0
  {
    var fs := env.table[t].shape.fields;
    var holder := list[i];
    FieldType(env.table, t, holder.index);
    SizeAllElement(vals, holder.index);
    match IntKindOf(env.table[fs[holder.index].typ].shape)
    case None => Raise(LengthrefInvalidKind(holder.name))
    case Some(k) =>
      var lengthbytes :- Enc(env, lists, heap, fs[holder.index].typ, LengthValue(k, |refbytes|), holder.opts, level, seen);
      Done(slots[i := lengthbytes][ri := refbytes])
  }
}
