/**
 * Properties of decoding that the code as written has, proved about
 * `DecSpec` for every input, and the round trips that do hold between
 * encoding and decoding.
 */
module DecProps {
  import opened Wrappers
  import opened Binary
  import opened Types
  import opened Tags
  import opened StructFields
  import opened Outcomes
  import opened Cursor
  import opened EncSpec
  import opened DecSpec
  import EncProps

  /**
   * An integer coder reads its width of bytes (codec.go:381-521) and makes
   * of them the big-endian number they denote, sign extended for the
   * signed kinds; the bytes after them stay unread.
   */
  lemma IntDecoding(env: Env, fuel: nat, t: TypeId, v: Value, to: TagOptions, st: DState, level: nat, seen: set<(TypeId, Addr)>)
    requires WellFormed(env.table) && t in env.table && IntKindOf(env.table[t].shape).Some? && fuel > 0
    requires |st.unread| >= IntKindOf(env.table[t].shape).value.Width()
    ensures var k := IntKindOf(env.table[t].shape).value;
      var x := DecodeInt(k, st.unread[..k.Width()]);
      Dec(env, fuel, t, v, to, true, st, level, seen) ==
        Done((if k.Signed() then VInt(x) else VUint(x), st.(unread := st.unread[k.Width()..])))
  {
  }

  /**
   * The bytes an integer coder writes decode, with the same coder, to the
   * value it started from (codec.go:381-521); the bytes after them stay
   * unread.
   */
  lemma IntRoundTrip(env: Env, lists: FieldLists, heap: Heap, fuel: nat, t: TypeId, x: int, v: Value, to: TagOptions,
                     rest: seq<Byte>, st: DState, level: nat, seen: set<(TypeId, Addr)>)
    requires WellFormed(env.table) && t in env.table && IntKindOf(env.table[t].shape).Some? && fuel > 0
    requires InRange(IntKindOf(env.table[t].shape).value, x)
    ensures var k := IntKindOf(env.table[t].shape).value;
      var x' := if k.Signed() then VInt(x) else VUint(x);
      Enc(env, lists, heap, t, x', to, level, seen) == Done(EncodeInt(k, x)) &&
      Dec(env, fuel, t, v, to, true, st.(unread := EncodeInt(k, x) + rest), level, seen) == Done((x', st.(unread := rest)))
  {
    var k := IntKindOf(env.table[t].shape).value;
    var b := EncodeInt(k, x);
    EncProps.IntEncoding(env, lists, heap, t, x, to, level, seen);
    var st1 := st.(unread := b + rest);
    assert st1.unread[..k.Width()] == b && st1.unread[k.Width()..] == rest;
    IntDecoding(env, fuel, t, v, to, st1, level, seen);
    Binary.IntRoundTrip(k, x);
  }

  /** The byte `boolCoder` writes decodes to the same bool (codec.go:359-373); the bytes after it stay unread. */
  lemma BoolRoundTrip(env: Env, lists: FieldLists, heap: Heap, fuel: nat, t: TypeId, b: bool, v: Value, to: TagOptions,
                      rest: seq<Byte>, st: DState, level: nat, seen: set<(TypeId, Addr)>)
    requires WellFormed(env.table) && t in env.table && env.table[t].shape.Bool? && fuel > 0
    ensures Enc(env, lists, heap, t, VBool(b), to, level, seen) == Done([if b then 1 else 0])
    ensures Dec(env, fuel, t, v, to, true, st.(unread := [if b then 1 else 0] + rest), level, seen) ==
            Done((VBool(b), st.(unread := rest)))
  {
    assert ([if b then 1 else 0] + rest)[1..] == rest;
  }

  /**
   * A raw string without a length takes all the unread bytes and consumes
   * none of them (codec.go:654-661): the tail is copied, not read.
   */
  lemma RawStringKeepsUnread(env: Env, fuel: nat, t: TypeId, v: Value, to: TagOptions, st: DState,
                             level: nat, seen: set<(TypeId, Addr)>)
    requires WellFormed(env.table) && t in env.table && env.table[t].shape.String? && fuel > 0
    requires to.length == 0 && to.bcd == 0 && !to.gbk && !to.gbk18030
    ensures Dec(env, fuel, t, v, to, true, st, level, seen) == Done((VString(st.unread), st))
  {
  }

  /**
   * A string tagged with a length above the runtime's allocation limit,
   * such as the MaxInt64 an out-of-range `length:` value parses to
   * (tags.go:29-31), makes `make([]byte, to.length)` panic (codec.go:656)
   * whatever is unread.
   */
  lemma HugeLengthPanics(env: Env, fuel: nat, t: TypeId, v: Value, to: TagOptions, settable: bool, st: DState,
                         level: nat, seen: set<(TypeId, Addr)>)
    requires WellFormed(env.table) && t in env.table && env.table[t].shape.String? && fuel > 0
    requires to.length > MaxAlloc
    ensures Dec(env, fuel, t, v, to, settable, st, level, seen) == Abort(MakeSliceLen)
  {
  }

  /**
   * An array of raw strings without a length, decoded from a non-empty
   * region, never ends (codec.go:925-935): element 0 takes the whole
   * region on each pass and consumes nothing, so the loop runs out of
   * any fuel given.
   */
  lemma {:induction false} RawStringArrayStalls(env: Env, fuel: nat, e: TypeId, x: Value, to: TagOptions, st: DState,
                                                level: nat, seen: set<(TypeId, Addr)>)
    requires WellFormed(env.table) && e in env.table && env.table[e].shape.String?
    requires to.length == 0 && to.bcd == 0 && !to.gbk && !to.gbk18030 && |st.unread| > 0
    ensures ArrayLoop(env, fuel, e, x, to, true, st, level, seen) == Abort(OutOfFuel)
    decreases fuel
  {
    if fuel > 0 {
      RawStringKeepsUnread(env, fuel, e, x, to, st, level, seen);
      RawStringArrayStalls(env, fuel - 1, e, VString(st.unread), to, st, level, seen);
    }
  }

  /**
   * `Pass1` (codec.go:842-879) reads no byte and changes the field list in
   * its `length` options only.
   */
  lemma {:induction false} Pass1OnlyLengths(table: TypeTable, t: TypeId, vals: seq<Value>, list: seq<FieldInfo>, i: nat)
    requires WellFormed(table) && t in table && table[t].shape.Struct? && i <= |list|
    ensures Pass1(table, t, vals, list, i).Done? ==> SameButLengths(list, Pass1(table, t, vals, list, i).value)
    decreases |list| - i
  {
    if i < |list| {
      var l := Pass1Entry(table, t, vals, list, i);
      if l.Done? {
        assert SameButLengths(list, l.value);
        Pass1OnlyLengths(table, t, vals, l.value, i + 1);
      }
    }
  }

  /**
   * The `LengthrefNotFound` error of `structCoder.decode`
   * (codec.go:847-849) is never raised: `findref` always finds.
   */
  lemma {:induction false} Pass1AlwaysFinds(table: TypeTable, t: TypeId, vals: seq<Value>, list: seq<FieldInfo>, i: nat)
    requires WellFormed(table) && t in table && table[t].shape.Struct? && i <= |list|
    ensures Pass1(table, t, vals, list, i).Failed? ==>
      Pass1(table, t, vals, list, i).failure.Crashed? || !Pass1(table, t, vals, list, i).failure.err.LengthrefNotFound?
    decreases |list| - i
  {
    if i < |list| {
      FindRefAlwaysFound(list, i);
      var l := Pass1Entry(table, t, vals, list, i);
      if l.Done? {
        Pass1AlwaysFinds(table, t, vals, l.value, i + 1);
      }
    }
  }

  /**
   * One entry of pass 1 with a `lengthref` (codec.go:846-877): its
   * holder's current value, as an int, becomes the `length` of the last
   * entry whose `lengthref` equals the holder's, and nothing else changes;
   * a holder that is not an integer raises `LengthrefInvalidKind`.
   */
  lemma Pass1Stores(table: TypeTable, t: TypeId, vals: seq<Value>, list: seq<FieldInfo>, i: nat)
    requires WellFormed(table) && t in table && table[t].shape.Struct? && i < |list|
    requires list[i].opts.lengthref != "" && list[i].index < |table[t].shape.fields| && list[i].index < |vals|
    ensures FindRef(list, list[i]).Some?
    ensures table[t].shape.fields[list[i].index].typ in table
    ensures var ri := FindRef(list, list[i]).value;
      var r := Pass1Entry(table, t, vals, list, i);
      match IntKindOf(table[table[t].shape.fields[list[i].index].typ].shape)
      case None => r == Raise(LengthrefInvalidKind(list[i].name))
      case Some(k) =>
        (r.Done? <==> HolderLength(k, vals[list[i].index]).Done?) &&
        (r.Done? ==> |r.value| == |list| && r.value[ri].opts.length == HolderLength(k, vals[list[i].index]).value &&
                     SameButLengths(list, r.value) &&
                     forall j :: 0 <= j < |list| && j != ri ==> r.value[j] == list[j])
  {
    FindRefAlwaysFound(list, i);
    FieldType(table, t, list[i].index);
  }

  /** An entry without a `lengthref` leaves the list as it is (codec.go:846). */
  lemma Pass1SkipsPlain(table: TypeTable, t: TypeId, vals: seq<Value>, list: seq<FieldInfo>, i: nat)
    requires WellFormed(table) && t in table && table[t].shape.Struct? && i < |list| && list[i].opts.lengthref == ""
    ensures Pass1Entry(table, t, vals, list, i) == Done(list)
  {
  }

  /**
   * A struct is decoded only once pass 1 has succeeded, and every field
   * then with the options the updated list holds (codec.go:842-885).
   */
  lemma StructPasses(env: Env, fuel: nat, t: TypeId, vals: seq<Value>, settable: bool, st: DState,
                     level: nat, seen: set<(TypeId, Addr)>)
    requires WellFormed(env.table) && t in env.table && env.table[t].shape.Struct?
    requires |vals| == |env.table[t].shape.fields| && t in st.lists
    ensures var p := Pass1(env.table, t, vals, st.lists[t], 0);
      var r := DecStruct(env, fuel, t, VStruct(vals), settable, st, level, seen);
      (p.Failed? ==> r == Failed(p.failure)) &&
      (p.Done? ==> (|p.value| == |st.lists[t]| &&
                    r == (var d :- DecFields(env, fuel, t, vals, settable, 0, |p.value|, st.(lists := st.lists[t := p.value]), level, seen);
                          Done((VStruct(d.0), d.1)))))
  {
    Pass1OnlyLengths(env.table, t, vals, st.lists[t], 0);
  }

  /** The capacity a full slice grows to is max(4, cap + cap/2) (codec.go:988-991), always more than before. */
  lemma GrownCapIsMax(cap: nat)
    ensures GrownCap(cap) == if cap + cap / 2 > 4 then cap + cap / 2 else 4
    ensures GrownCap(cap) > cap
  {
  }

  /**
   * A slice decode that succeeds leaves a new empty, non-nil slice
   * (codec.go:1007-1009), as `i` is never advanced; it needs a settable
   * destination.
   */
  lemma SliceBecomesEmpty(env: Env, fuel: nat, t: TypeId, v: Value, to: TagOptions, settable: bool, st: DState,
                          level: nat, seen: set<(TypeId, Addr)>)
    requires WellFormed(env.table) && t in env.table && env.table[t].shape.Slice?
    ensures var r := DecSlice(env, fuel, t, v, to, settable, st, level, seen);
      r.Done? ==> settable && r.value.0 == VSlice(false, 0, [])
  {
  }

  /**
   * An array decode that succeeds leaves every element zero
   * (codec.go:936-941), as `i` is never advanced; an array of length 0 is
   * left as it is. A non-empty one needs a settable destination.
   */
  lemma ArrayBecomesZero(env: Env, fuel: nat, t: TypeId, v: Value, to: TagOptions, settable: bool, st: DState,
                         level: nat, seen: set<(TypeId, Addr)>)
    requires WellFormed(env.table) && t in env.table && env.table[t].shape.Array?
    ensures env.table[t].shape.elem in env.table
    ensures var r := DecArray(env, fuel, t, v, to, settable, st, level, seen);
      r.Done? ==> (v.VArray? && r.value.0.VArray? && |r.value.0.elems| == |v.elems| &&
                   (|v.elems| == 0 ==> r.value.0 == v) &&
                   (|v.elems| > 0 ==> settable && forall j :: 0 <= j < |v.elems| ==> r.value.0.elems[j] == Zero(env.table, env.table[t].shape.elem)))
  {
    ElemType(env.table, t);
  }

  /**
   * A nil pointer is given a new cell holding the zero value of its element
   * before that element is decoded (codec.go:1044-1046); it must be
   * settable.
   */
  lemma NilPointerAllocates(env: Env, fuel: nat, t: TypeId, to: TagOptions, settable: bool, st: DState,
                            level: nat, seen: set<(TypeId, Addr)>)
    requires WellFormed(env.table) && t in env.table && env.table[t].shape.Ptr?
    ensures env.table[t].shape.elem in env.table
    ensures var r := DecPtr(env, fuel, t, VPtr(None), to, settable, st, level, seen);
      (!settable ==> r == Abort(ReflectPanic)) &&
      (settable ==> var (m, a) := Alloc(env.table, st.mem, env.table[t].shape.elem);
        a == st.mem.next && m.cells[a] == Zero(env.table, env.table[t].shape.elem) &&
        r == (var d :- DecPointee(env, fuel, t, a, to, st.(mem := m), level, seen); Done((VPtr(Some(a)), d))))
  {
    ElemType(env.table, t);
  }

  /**
   * The cycle check of `ptrCoder.decode` (codec.go:1048-1054): within 1000
   * levels nothing is recorded and the pointee is decoded; past them the
   * pointer is recorded, and the error comes exactly when it was recorded
   * already. Otherwise the outcome is the element's decode, one level
   * deeper, written back to the cell, and the cycle error comes out only
   * if the element's own decode raises it.
   */
  lemma DecodeCycleCheck(env: Env, fuel: nat, t: TypeId, a: Addr, to: TagOptions, st: DState,
                         level: nat, seen: set<(TypeId, Addr)>)
    requires WellFormed(env.table) && t in env.table && env.table[t].shape.Ptr? && a in st.mem.cells
    ensures env.table[t].shape.elem in env.table
    ensures var r := DecPointee(env, fuel, t, a, to, st, level, seen);
      var inner := Dec(env, fuel, env.table[t].shape.elem, st.mem.cells[a], to, true, st, level + 1, Deeper(level, seen, t, a));
      var cycle := Raise(UnsupportedValueError(env.table[t].name));
      (level >= CycleCheckDepth && (t, a) in seen ==> r == cycle) &&
      (!(level >= CycleCheckDepth && (t, a) in seen) ==>
         r == (match inner
               case Failed(f) => Failed(f)
               case Done(d) => Done(d.1.(mem := d.1.mem.(cells := d.1.mem.cells[a := d.0]))))) &&
      (r == cycle ==> (level >= CycleCheckDepth && (t, a) in seen) || inner == Raise(UnsupportedValueError(env.table[t].name)))
    ensures level < CycleCheckDepth ==> Deeper(level, seen, t, a) == seen
    ensures level >= CycleCheckDepth ==> Deeper(level, seen, t, a) == seen + {(t, a)}
  {
    ElemType(env.table, t);
  }

  /**
   * A destination that reflect does not let be set, such as the dynamic
   * value of an interface (codec.go:703-709), comes out of a decode that
   * succeeds as it went in: only what its pointers point to can change.
   */
  lemma {:induction false} UnsettableKept(env: Env, fuel: nat, t: TypeId, v: Value, to: TagOptions, st: DState,
                                          level: nat, seen: set<(TypeId, Addr)>)
    requires WellFormed(env.table) && t in env.table
    ensures Dec(env, fuel, t, v, to, false, st, level, seen).Done? ==> Dec(env, fuel, t, v, to, false, st, level, seen).value.0 == v
    decreases fuel, 0, 0
  {
    if fuel > 0 {
      UnsettableKindKept(env, fuel - 1, t, v, to, st, level, seen);
    }
  }

  lemma {:induction false} UnsettableKindKept(env: Env, fuel: nat, t: TypeId, v: Value, to: TagOptions, st: DState,
                                              level: nat, seen: set<(TypeId, Addr)>)
    requires WellFormed(env.table) && t in env.table
    ensures DecKind(env, fuel, t, v, to, false, st, level, seen).Done? ==> DecKind(env, fuel, t, v, to, false, st, level, seen).value.0 == v
    decreases fuel, 3, 0
  {
    match env.table[t].shape
    case Struct(_) =>
      if v.VStruct? && |v.fields| == |env.table[t].shape.fields| && t in st.lists {
        var p := Pass1(env.table, t, v.fields, st.lists[t], 0);
        if p.Done? {
          UnsettableFieldsKept(env, fuel, t, v.fields, 0, |p.value|, st.(lists := st.lists[t := p.value]), level, seen);
        }
      }
    case Array(_, _) => UnsettableArrayFails(env, fuel, t, v, to, st, level, seen);
    case Slice(_) => UnsettableSliceFails(env, fuel, t, v, to, st, level, seen);
    case Ptr(_) =>
    case Interface =>
    case _ => UnsettableScalarFails(env, t, to, st);
  }

  /** A non-empty array that cannot be set fails to decode (codec.go:939). */
  lemma UnsettableArrayFails(env: Env, fuel: nat, t: TypeId, v: Value, to: TagOptions, st: DState,
                             level: nat, seen: set<(TypeId, Addr)>)
    requires WellFormed(env.table) && t in env.table && env.table[t].shape.Array?
    ensures DecArray(env, fuel, t, v, to, false, st, level, seen).Done? ==> DecArray(env, fuel, t, v, to, false, st, level, seen).value.0 == v
  {
  }

  /** A slice that cannot be set fails to decode (codec.go:1008). */
  lemma UnsettableSliceFails(env: Env, fuel: nat, t: TypeId, v: Value, to: TagOptions, st: DState,
                             level: nat, seen: set<(TypeId, Addr)>)
    requires WellFormed(env.table) && t in env.table && env.table[t].shape.Slice?
    ensures DecSlice(env, fuel, t, v, to, false, st, level, seen).Failed?
  {
  }

  /** A bool, integer or string that cannot be set fails to decode. */
  lemma UnsettableScalarFails(env: Env, t: TypeId, to: TagOptions, st: DState)
    requires t in env.table
    ensures DecScalar(env, t, to, false, st).Failed?
  {
  }

  lemma {:induction false} UnsettableFieldsKept(env: Env, fuel: nat, t: TypeId, vals: seq<Value>, i: nat, n: nat, st: DState,
                                                level: nat, seen: set<(TypeId, Addr)>)
    requires WellFormed(env.table) && t in env.table && env.table[t].shape.Struct? && i <= n
    ensures DecFields(env, fuel, t, vals, false, i, n, st, level, seen).Done? ==>
      DecFields(env, fuel, t, vals, false, i, n, st, level, seen).value.0 == vals
    decreases fuel, 1, n - i
  {
    if i < n {
      UnsettableFieldKept(env, fuel, t, vals, i, st, level, seen);
      var d := DecField(env, fuel, t, vals, false, i, st, level, seen);
      if d.Done? {
        UnsettableFieldsKept(env, fuel, t, d.value.0, i + 1, n, d.value.1, level, seen);
      }
    }
  }

  lemma {:induction false} UnsettableFieldKept(env: Env, fuel: nat, t: TypeId, vals: seq<Value>, i: nat, st: DState,
                                               level: nat, seen: set<(TypeId, Addr)>)
    requires WellFormed(env.table) && t in env.table && env.table[t].shape.Struct?
    ensures DecField(env, fuel, t, vals, false, i, st, level, seen).Done? ==>
      DecField(env, fuel, t, vals, false, i, st, level, seen).value.0 == vals
    decreases fuel, 1, 0
  {
    if t in st.lists && i < |st.lists[t]| {
      var f := st.lists[t][i];
      if f.index < |env.table[t].shape.fields| && f.index < |vals| {
        FieldType(env.table, t, f.index);
        UnsettableKept(env, fuel, env.table[t].shape.fields[f.index].typ, vals[f.index], f.opts, st, level, seen);
      }
    }
  }
}
