/**
 * What decoding does to a value, as a function of the value's type: the
 * `decode` methods of the codecs (codec.go:195-198, 367-521, 653-687,
 * 703-723, 840-886, 915-1009, 1043-1060) read as one recursive definition.
 *
 * Go decodes in place; here a decode call takes the destination's current
 * value and returns its new one, together with the new `DState`: the bytes
 * still unread, the memory (pointer decoding writes cells and allocates
 * them) and the field lists the struct codecs share with the field cache
 * (struct decoding stores lengths into them). The pointer track is the pair
 * `level`, `seen`, back at its entry value whenever a call returns.
 *
 * `settable` says whether reflect lets the destination be set: a value
 * reached through an interface is not, and setting it panics.
 *
 * Go recurses without bound and two of its loops need not end; `fuel`
 * bounds both. Each decode call spends one unit, and so does each pass of
 * an array or slice loop that consumed no byte; the run ends in
 * `OutOfFuel` when none is left.
 */
module DecSpec {
  import opened Wrappers
  import opened Binary
  import opened Types
  import opened Tags
  import opened StructFields
  import opened Outcomes
  import opened Cursor
  import opened EncSpec

  /** The cells and the address `reflect.New` hands out next. */
  datatype Memory = Memory(cells: Heap, next: Addr)

  /** No cell lies at or beyond the next address, so an allocation never reuses one. */
  predicate Allocated(m: Memory)
  {
    forall a :: a in m.cells ==> a < m.next
  }

  /** `reflect.New(t)`: a fresh cell holding the zero value of `t`, and its address. */
  function Alloc(table: TypeTable, m: Memory, t: TypeId): (r: (Memory, Addr))
    requires WellFormed(table) && t in table
    ensures r.1 == m.next && r.0.cells == m.cells[m.next := Zero(table, t)] && r.0.next == m.next + 1
    ensures Allocated(m) ==> Allocated(r.0) && r.1 !in m.cells
  {
    (Memory(m.cells[m.next := Zero(table, t)], m.next + 1), m.next)
  }

  datatype DState = DState(unread: seq<Byte>, mem: Memory, lists: FieldLists)

  type Decoded = (Value, DState)

  /** The bytes an integer of kind `k` holds: `ReadByte` for one byte, else a `w`-byte `Read`. */
  function ReadInt(unread: seq<Byte>, k: IntKind): Option<(seq<Byte>, seq<Byte>)>
  {
    ReadFrom(unread, k.Width())
  }

  /**
   * The largest byte count Go's `make` accepts: the runtime's `maxAlloc`,
   * 2^48 on 64-bit linux; `make([]byte, n)` panics for any larger `n`.
   */
  const MaxAlloc: int := 0x1_0000_0000_0000

  /**
   * The bytes the string, array and slice decoders work on
   * (codec.go:654-659, 916-921, 974-979), paired with what stays unread:
   * `to.length` bytes read into a fresh buffer, or else the whole unread
   * tail, which then stays unread. `make` panics for a negative length and
   * for one above `MaxAlloc`.
   */
  function Region(unread: seq<Byte>, to: TagOptions): (r: Outcome<(seq<Byte>, seq<Byte>)>)
    ensures r == Abort(MakeSliceLen) <==> to.length < 0 || to.length > MaxAlloc
    ensures r == Raise(DataLengthErr) <==> 0 < to.length <= MaxAlloc && |unread| == 0
    ensures r.Done? && to.length != 0 ==> |r.value.0| == to.length
    ensures r.Done? && 0 < to.length <= |unread| ==> r.value == (unread[..to.length], unread[to.length..])
    ensures r.Done? && to.length == 0 ==> r.value == (unread, unread)
  {
    if to.length != 0 then
      if to.length < 0 || to.length > MaxAlloc then Abort(MakeSliceLen)
      else match ReadFrom(unread, to.length)
        case None => Raise(DataLengthErr)
        case Some(p) => Done(p)
    else Done((unread, unread))
  }

  /** The text `stringCoder.decode` makes of its bytes (codec.go:661-686). */
  function DecText(tx: Transcoders, b: seq<Byte>, to: TagOptions): Outcome<seq<Byte>>
  {
    if to.bcd != 0 then
      match tx.bcdDecode(b)
      case None => Raise(DecodeBCDErr)
      case Some(s) => Done(s)
    else if to.gbk || to.gbk18030 then
      var decode := if to.gbk18030 then tx.gb18030Decode else tx.gbkDecode;
      match decode(b)
      case None => Raise(DecodeGBKErr)
      case Some(s) => Done(s)
    else Done(b)
  }

  /** A `Set` of `x` on the destination: it panics unless the destination is settable. */
  function Set<T>(settable: bool, x: T): Outcome<T>
  {
    if settable then Done(x) else Abort(ReflectPanic)
  }

  /** Decoding into `v`, the current value of a destination of type `t`, with options `to`. */
  function Dec(env: Env, fuel: nat, t: TypeId, v: Value, to: TagOptions, settable: bool, st: DState,
               level: nat, seen: set<(TypeId, Addr)>): (r: Outcome<Decoded>)
    requires WellFormed(env.table) && t in env.table
    decreases fuel, 0, 0
  {
    if fuel == 0 then Abort(OutOfFuel) else DecKind(env, fuel - 1, t, v, to, settable, st, level, seen)
  }

  /** The decoder of `t`'s kind, left `fuel` for the calls it makes. */
  function DecKind(env: Env, fuel: nat, t: TypeId, v: Value, to: TagOptions, settable: bool, st: DState,
                   level: nat, seen: set<(TypeId, Addr)>): (r: Outcome<Decoded>)
    requires WellFormed(env.table) && t in env.table
    decreases fuel, 3, 0
  {
    match env.table[t].shape
    case Interface => DecIface(env, fuel, v, to, st, level, seen)
    case Struct(_) => DecStruct(env, fuel, t, v, settable, st, level, seen)
    case Array(_, _) => DecArray(env, fuel, t, v, to, settable, st, level, seen)
    case Slice(_) => DecSlice(env, fuel, t, v, to, settable, st, level, seen)
    case Ptr(_) => DecPtr(env, fuel, t, v, to, settable, st, level, seen)
    case _ => DecScalar(env, t, to, settable, st)
  }

  /**
   * The decoders of the types with no parts: `boolCoder`, the integer
   * coders, `stringCoder` and `unsupportedTypeCoder` (codec.go:367-521,
   * 653-687, 721-723). Each reads first and sets after.
   */
  function DecScalar(env: Env, t: TypeId, to: TagOptions, settable: bool, st: DState): (r: Outcome<Decoded>)
    requires t in env.table
  {
    match env.table[t].shape
    case Bool =>
      (match ReadByteFrom(st.unread)
       case None => Raise(DataLengthErr)
       case Some(p) => Set(settable, (VBool(p.0 != 0), st.(unread := p.1))))
    case String =>
      var region :- Region(st.unread, to);
      var s :- DecText(env.tx, region.0, to);
      Set(settable, (VString(s), st.(unread := region.1)))
    case Unsupported => Raise(UnsupportedTypeError(env.table[t].name))
    case _ =>
      match IntKindOf(env.table[t].shape)
      case None => Abort(IllTyped)
      case Some(k) =>
        match ReadInt(st.unread, k)
        case None => Raise(DataLengthErr)
        case Some(p) =>
          var x := DecodeInt(k, p.0);
          Set(settable, (if k.Signed() then VInt(x) else VUint(x), st.(unread := p.1)))
  }

  /**
   * `interfaceCoder.decode` (codec.go:703-709): nothing for nil, else the
   * dynamic value with its dynamic type's codec. That value is not settable,
   * so only what it points to can change.
   */
  function DecIface(env: Env, fuel: nat, v: Value, to: TagOptions, st: DState,
                    level: nat, seen: set<(TypeId, Addr)>): (r: Outcome<Decoded>)
    requires WellFormed(env.table)
    decreases fuel, 1, 0
  {
    match v
    case VIface(None) => Done((v, st))
    case VIface(Some(b)) =>
      if b.typ !in env.table then Abort(IllTyped)
      else
        var d :- Dec(env, fuel, b.typ, b.val, to, false, st, level, seen);
        Done((v, d.1))
    case _ => Abort(IllTyped)
  }

  /** `int(fv.Int())` or `int(fv.Uint())` for a holder of kind `k` (codec.go:853-868). */
  function HolderLength(k: IntKind, fv: Value): Outcome<int>
  {
    if k.Signed() && fv.VInt? then Done(fv.i)
    else if !k.Signed() && fv.VUint? then Done(SignExtend(Truncate(fv.u, 8), 8))
    else Abort(IllTyped)
  }

  /** `list` with the `length` option of entry `ri` set to `n` (codec.go:877). */
  function SetLength(list: seq<FieldInfo>, ri: nat, n: int): (r: seq<FieldInfo>)
    requires ri < |list|
    ensures |r| == |list| && SameButLengths(list, r) && r[ri].opts.length == n
    ensures forall j :: 0 <= j < |list| && j != ri ==> r[j] == list[j]
  {
    list[ri := list[ri].(opts := list[ri].opts.(length := n))]
  }

  /**
   * The first loop of `structCoder.decode` (codec.go:842-879) from entry `i`
   * on: each holder's current value, as an int, becomes the `length` of the
   * entry `findref` returns. It reads no byte.
   */
  function Pass1(table: TypeTable, t: TypeId, vals: seq<Value>, list: seq<FieldInfo>, i: nat): (r: Outcome<seq<FieldInfo>>)
    requires WellFormed(table) && t in table && table[t].shape.Struct? && i <= |list|
    decreases |list| - i
  {
    if i == |list| then Done(list)
    else
      var l :- Pass1Entry(table, t, vals, list, i);
      var r := Pass1(table, t, vals, l, i + 1);
      r
  }

  /** One pass of that loop: entry `i`, if it has a `lengthref`, stores its holder's value. */
  function Pass1Entry(table: TypeTable, t: TypeId, vals: seq<Value>, list: seq<FieldInfo>, i: nat): (r: Outcome<seq<FieldInfo>>)
    requires WellFormed(table) && t in table && table[t].shape.Struct? && i < |list|
    ensures r.Done? ==> |r.value| == |list|
  {
    var f := list[i];
    if f.opts.lengthref == "" then Done(list)
    else
      match FindRef(list, f)
      case None => Raise(LengthrefNotFound(f.name))
      case Some(ri) =>
        if f.index >= |table[t].shape.fields| || f.index >= |vals| then Abort(IllTyped)
        else
          FieldType(table, t, f.index);
          match IntKindOf(table[table[t].shape.fields[f.index].typ].shape)
          case None => Raise(LengthrefInvalidKind(f.name))
          case Some(k) =>
            var n :- HolderLength(k, vals[f.index]);
            Done(SetLength(list, ri, n))
  }

  /** `structCoder.decode` (codec.go:840-886): the lengths first, then every field. */
  function DecStruct(env: Env, fuel: nat, t: TypeId, v: Value, settable: bool, st: DState,
                     level: nat, seen: set<(TypeId, Addr)>): (r: Outcome<Decoded>)
    requires WellFormed(env.table) && t in env.table && env.table[t].shape.Struct?
    decreases fuel, 2, 0
  {
    if !v.VStruct? || |v.fields| != |env.table[t].shape.fields| || t !in st.lists then Abort(IllTyped)
    else
      var list :- Pass1(env.table, t, v.fields, st.lists[t], 0);
      var d :- DecFields(env, fuel, t, v.fields, settable, 0, |list|, st.(lists := st.lists[t := list]), level, seen);
      Done((VStruct(d.0), d.1))
  }

  /**
   * The second loop of `structCoder.decode` (codec.go:881-885) over the `n`
   * entries, from entry `i` on: each field decoded with the options its
   * entry holds when its turn comes.
   */
  function DecFields(env: Env, fuel: nat, t: TypeId, vals: seq<Value>, settable: bool, i: nat, n: nat, st: DState,
                     level: nat, seen: set<(TypeId, Addr)>): (r: Outcome<(seq<Value>, DState)>)
    requires WellFormed(env.table) && t in env.table && env.table[t].shape.Struct? && i <= n
    decreases fuel, 1, n - i
  {
    if i == n then Done((vals, st))
    else
      var d :- DecField(env, fuel, t, vals, settable, i, st, level, seen);
      DecFields(env, fuel, t, d.0, settable, i + 1, n, d.1, level, seen)
  }

  /** One pass of that loop: the field entry `i` names, with the options it holds. */
  function DecField(env: Env, fuel: nat, t: TypeId, vals: seq<Value>, settable: bool, i: nat, st: DState,
                    level: nat, seen: set<(TypeId, Addr)>): (r: Outcome<(seq<Value>, DState)>)
    requires WellFormed(env.table) && t in env.table && env.table[t].shape.Struct?
    decreases fuel, 1, 0
  {
    if t !in st.lists || i >= |st.lists[t]| then Abort(IllTyped)
    else
      var f := st.lists[t][i];
      if f.index >= |env.table[t].shape.fields| || f.index >= |vals| then Abort(IllTyped)
      else
        FieldType(env.table, t, f.index);
        var d :- Dec(env, fuel, env.table[t].shape.fields[f.index].typ, vals[f.index], f.opts, settable, st, level, seen);
        Done((vals[f.index := d.0], d.1))
  }

  /**
   * `arrayCoder.decode` (codec.go:915-942): element 0 is decoded from the
   * region again and again until the region is used up (`i` is never
   * advanced); then, as `i` is still below the length, every element is set
   * to zero.
   */
  function DecArray(env: Env, fuel: nat, t: TypeId, v: Value, to: TagOptions, settable: bool, st: DState,
                    level: nat, seen: set<(TypeId, Addr)>): (r: Outcome<Decoded>)
    requires WellFormed(env.table) && t in env.table && env.table[t].shape.Array?
    decreases fuel, 2, 0
  {
    match v
    case VArray(es) =>
      if |es| != env.table[t].shape.len then Abort(IllTyped)
      else
        var region :- Region(st.unread, to);
        if |es| == 0 then Done((v, st.(unread := region.1)))
        else
          ElemType(env.table, t);
          var d :- ArrayRest(env, fuel, env.table[t].shape.elem, es, to, settable, st.(unread := region.0), level, seen);
          Done((d.0, d.1.(unread := region.1)))
    case _ => Abort(IllTyped)
  }

  /**
   * The part of `arrayCoder.decode` that works on the region in `st.unread`
   * (codec.go:925-942): the loop, then every element set to zero.
   */
  function ArrayRest(env: Env, fuel: nat, e: TypeId, es: seq<Value>, to: TagOptions, settable: bool, st: DState,
                     level: nat, seen: set<(TypeId, Addr)>): (r: Outcome<Decoded>)
    requires WellFormed(env.table) && e in env.table && |es| > 0
    decreases fuel, 1, |st.unread| + 1
  {
    var d :- ArrayLoop(env, fuel, e, es[0], to, settable, st, level, seen);
    Set(settable, (VArray(seq(|es|, _ => Zero(env.table, e))), d.1))
  }

  /**
   * The loop of `arrayCoder.decode` (codec.go:925-935) over the region in
   * `st.unread`: decode into element `x`, stop once nothing is unread.
   */
  function ArrayLoop(env: Env, fuel: nat, e: TypeId, x: Value, to: TagOptions, settable: bool, st: DState,
                     level: nat, seen: set<(TypeId, Addr)>): (r: Outcome<Decoded>)
    requires WellFormed(env.table) && e in env.table
    decreases fuel, 1, |st.unread|
  {
    var d :- Dec(env, fuel, e, x, to, settable, st, level, seen);
    if |d.1.unread| == 0 then Done(d)
    else if |d.1.unread| < |st.unread| then ArrayLoop(env, fuel, e, d.0, to, settable, d.1, level, seen)
    else if fuel == 0 then Abort(OutOfFuel)
    else ArrayLoop(env, fuel - 1, e, d.0, to, settable, d.1, level, seen)
  }

  /** The capacity a slice decoder grows a full slice to (codec.go:988-991). */
  function GrownCap(cap: nat): (n: nat)
    ensures n >= 4 && n >= cap
  {
    if cap + cap / 2 < 4 then 4 else cap + cap / 2
  }

  /**
   * The slice after the growth step (codec.go:987-995): a new backing array
   * of `GrownCap` elements holding a copy of the first `len`, the rest zero.
   */
  function Grow(table: TypeTable, e: TypeId, len: nat, backing: seq<Value>): (r: seq<Value>)
    requires WellFormed(table) && e in table && len <= |backing|
    ensures |r| == GrownCap(|backing|) && r[..len] == backing[..len]
    ensures forall j :: len <= j < |r| ==> r[j] == Zero(table, e)
  {
    backing[..len] + seq(GrownCap(|backing|) - len, _ => Zero(table, e))
  }

  /**
   * `sliceCoder.decode` (codec.go:973-1009): the loop decodes element 0
   * until the region is used up (`i` is never advanced), then the slice,
   * as `i` is still 0, is set to a new empty slice.
   */
  function DecSlice(env: Env, fuel: nat, t: TypeId, v: Value, to: TagOptions, settable: bool, st: DState,
                    level: nat, seen: set<(TypeId, Addr)>): (r: Outcome<Decoded>)
    requires WellFormed(env.table) && t in env.table && env.table[t].shape.Slice?
    decreases fuel, 2, 0
  {
    match v
    case VSlice(_, len, backing) =>
      if len > |backing| then Abort(IllTyped)
      else
        var region :- Region(st.unread, to);
        ElemType(env.table, t);
        var d :- SliceRest(env, fuel, env.table[t].shape.elem, v, to, settable, st.(unread := region.0), level, seen);
        Done((d.0, d.1.(unread := region.1)))
    case _ => Abort(IllTyped)
  }

  /**
   * The part of `sliceCoder.decode` that works on the region in `st.unread`
   * (codec.go:983-1008): the loop, then, `i` being still 0, a new empty slice.
   */
  function SliceRest(env: Env, fuel: nat, e: TypeId, sv: Value, to: TagOptions, settable: bool, st: DState,
                     level: nat, seen: set<(TypeId, Addr)>): (r: Outcome<Decoded>)
    requires WellFormed(env.table) && e in env.table && sv.VSlice? && sv.len <= |sv.backing|
    decreases fuel, 1, |st.unread| + 1
  {
    var d :- SliceLoop(env, fuel, e, sv, to, settable, st, level, seen);
    Set(settable, (VSlice(false, 0, []), d.1))
  }

  /**
   * The loop of `sliceCoder.decode` (codec.go:983-1005) over the region in
   * `st.unread`, with `i` at 0 throughout: prepare element 0, decode into
   * it, stop once nothing is unread.
   */
  function SliceLoop(env: Env, fuel: nat, e: TypeId, sv: Value, to: TagOptions, settable: bool, st: DState,
                     level: nat, seen: set<(TypeId, Addr)>): (r: Outcome<Decoded>)
    requires WellFormed(env.table) && e in env.table
    requires sv.VSlice? && sv.len <= |sv.backing|
    decreases fuel, 1, |st.unread|
  {
    var sv1 :- SlicePrep(env.table, e, sv, settable);
    var d :- Dec(env, fuel, e, sv1.backing[0], to, true, st, level, seen);
    var sv2 := sv1.(backing := sv1.backing[0 := d.0]);
    if |d.1.unread| == 0 then Done((sv2, d.1))
    else if |d.1.unread| < |st.unread| then SliceLoop(env, fuel, e, sv2, to, settable, d.1, level, seen)
    else if fuel == 0 then Abort(OutOfFuel)
    else SliceLoop(env, fuel - 1, e, sv2, to, settable, d.1, level, seen)
  }

  /**
   * The two steps before element 0 is decoded (codec.go:985-997): a slice
   * without capacity grows, an empty one is lengthened to 1.
   */
  function SlicePrep(table: TypeTable, e: TypeId, sv: Value, settable: bool): (r: Outcome<Value>)
    requires WellFormed(table) && e in table && sv.VSlice? && sv.len <= |sv.backing|
    ensures r.Done? ==> r.value.VSlice? && 0 < r.value.len <= |r.value.backing|
  {
    var sv1 :- if 0 >= |sv.backing| then Set(settable, VSlice(false, sv.len, Grow(table, e, sv.len, sv.backing)))
               else Done(sv);
    if 0 >= sv1.len then Set(settable, sv1.(len := 1)) else Done(sv1)
  }

  /** `ptrCoder.decode` (codec.go:1043-1060): a nil pointer first gets a new zero element. */
  function DecPtr(env: Env, fuel: nat, t: TypeId, v: Value, to: TagOptions, settable: bool, st: DState,
                  level: nat, seen: set<(TypeId, Addr)>): (r: Outcome<Decoded>)
    requires WellFormed(env.table) && t in env.table && env.table[t].shape.Ptr?
    decreases fuel, 2, 0
  {
    match v
    case VPtr(None) =>
      if !settable then Abort(ReflectPanic)
      else
        ElemType(env.table, t);
        var (m, a) := Alloc(env.table, st.mem, env.table[t].shape.elem);
        var d :- DecPointee(env, fuel, t, a, to, st.(mem := m), level, seen);
        Done((VPtr(Some(a)), d))
    case VPtr(Some(a)) =>
      if a !in st.mem.cells then Abort(IllTyped)
      else
        var d :- DecPointee(env, fuel, t, a, to, st, level, seen);
        Done((v, d))
    case _ => Abort(IllTyped)
  }

  /**
   * `ptrCoder.decode` past the nil check (codec.go:1047-1059): one level
   * deeper, past depth 1000 recording the pointer and failing on one
   * already recorded, then the element, written back to its cell.
   */
  function DecPointee(env: Env, fuel: nat, t: TypeId, a: Addr, to: TagOptions, st: DState,
                      level: nat, seen: set<(TypeId, Addr)>): (r: Outcome<DState>)
    requires WellFormed(env.table) && t in env.table && env.table[t].shape.Ptr?
    requires a in st.mem.cells
    decreases fuel, 1, 0
  {
    if level + 1 > CycleCheckDepth && (t, a) in seen then Raise(UnsupportedValueError(env.table[t].name))
    else
      ElemType(env.table, t);
      var d :- Dec(env, fuel, env.table[t].shape.elem, st.mem.cells[a], to, true, st, level + 1, Deeper(level, seen, t, a));
      Done(d.1.(mem := d.1.mem.(cells := d.1.mem.cells[a := d.0])))
  }
}
