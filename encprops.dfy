/**
 * Properties of encoding that the codecs promise, proved about `EncSpec`
 * for every input.
 */
module EncProps {
  import opened Wrappers
  import opened Binary
  import opened Types
  import opened Tags
  import opened StructFields
  import opened Outcomes
  import opened EncSpec
  import opened DecSpec

  /** The width of each integer kind: `int`, `uint` and `uintptr` take 8 bytes (codec.go:242-260). */
  lemma IntWidths(s: Shape)
    requires IntKindOf(s).Some?
    ensures var w := IntKindOf(s).value.Width();
      (s.Int8? || s.Uint8? ==> w == 1) && (s.Int16? || s.Uint16? ==> w == 2) &&
      (s.Int32? || s.Uint32? ==> w == 4) &&
      (s.Int? || s.Int64? || s.Uint? || s.Uint64? || s.Uintptr? ==> w == 8)
    ensures IntKindOf(s).value.Signed() <==> (s.Int? || s.Int8? || s.Int16? || s.Int32? || s.Int64?)
  {
  }

  /** `boolCoder.encode` (codec.go:359-365) writes exactly one byte, 1 for true and 0 for false. */
  lemma BoolEncoding(env: Env, lists: FieldLists, heap: Heap, t: TypeId, b: bool, to: TagOptions,
                     level: nat, seen: set<(TypeId, Addr)>)
    requires WellFormed(env.table) && t in env.table && env.table[t].shape.Bool?
    ensures Enc(env, lists, heap, t, VBool(b), to, level, seen) == Done([if b then 1 else 0])
  {
  }

  /**
   * An integer coder (codec.go:381-521) writes exactly its width of
   * big-endian bytes, the value truncated to that width, whatever the tag
   * options say.
   */
  lemma IntEncoding(env: Env, lists: FieldLists, heap: Heap, t: TypeId, x: int, to: TagOptions,
                    level: nat, seen: set<(TypeId, Addr)>)
    requires WellFormed(env.table) && t in env.table && IntKindOf(env.table[t].shape).Some?
    ensures var k := IntKindOf(env.table[t].shape).value;
      var r := Enc(env, lists, heap, t, if k.Signed() then VInt(x) else VUint(x), to, level, seen);
      r == Done(EncodeInt(k, x)) && |r.value| == k.Width() &&
      FromBigEndian(r.value) == Truncate(x, k.Width())
  {
    var k := IntKindOf(env.table[t].shape).value;
    IntEnc(env, lists, heap, t, k, x, to, level, seen);
    EncodeIntValue(k, x);
  }

  lemma IntEnc(env: Env, lists: FieldLists, heap: Heap, t: TypeId, k: IntKind, x: int, to: TagOptions,
               level: nat, seen: set<(TypeId, Addr)>)
    requires WellFormed(env.table) && t in env.table && IntKindOf(env.table[t].shape) == Some(k)
    ensures Enc(env, lists, heap, t, if k.Signed() then VInt(x) else VUint(x), to, level, seen) == Done(EncodeInt(k, x))
  {
  }

  /**
   * The raw string encoder (codec.go:647-650) fails exactly when the tag
   * sets a length the string does not have, and then with `LengthErr`;
   * otherwise it writes the string as it is.
   */
  lemma RawStringLength(tx: Transcoders, s: seq<Byte>, to: TagOptions)
    requires to.bcd == 0 && !to.gbk && !to.gbk18030
    ensures EncString(tx, s, to).Failed? <==> to.length != 0 && |s| != to.length
    ensures EncString(tx, s, to).Failed? ==> EncString(tx, s, to).failure == Raised(LengthErr(StringSite, |s|, to.length))
    ensures EncString(tx, s, to).Done? ==> EncString(tx, s, to).value == s
  {
  }

  /**
   * The packed-decimal and GBK branches (codec.go:622-645) return before
   * the length check: they never raise `LengthErr`.
   */
  lemma TranscodedNoLengthCheck(tx: Transcoders, s: seq<Byte>, to: TagOptions)
    requires to.bcd != 0 || to.gbk || to.gbk18030
    ensures EncString(tx, s, to).Failed? ==>
      EncString(tx, s, to).failure == Raised(EncodeBCDErr) || EncString(tx, s, to).failure == Raised(EncodeGBKErr)
  {
  }

  /**
   * The elements of an array or slice are written one after the other, in
   * order: when element `j` encodes to `bs[j]`, the elements from `i` to
   * `n` encode to the concatenation of `bs[i..n]` (codec.go:904-906, 962-964).
   */
  lemma {:induction false} ElemsConcat(env: Env, lists: FieldLists, heap: Heap, e: TypeId, es: seq<Value>, n: nat,
                                       to: TagOptions, i: nat, level: nat, seen: set<(TypeId, Addr)>, bs: seq<seq<Byte>>)
    requires WellFormed(env.table) && e in env.table && i <= n <= |es| && |bs| == n
    requires forall j :: i <= j < n ==> Enc(env, lists, heap, e, es[j], to, level, seen) == Done(bs[j])
    ensures EncElems(env, lists, heap, e, es, n, to, i, level, seen) == Done(Concat(bs[i..]))
    decreases n - i
  {
    if i < n {
      ElemsConcat(env, lists, heap, e, es, n, to, i + 1, level, seen, bs);
      assert bs[i..][1..] == bs[i + 1..];
    }
  }

  /**
   * The array and slice encoders (codec.go:909-912, 967-970) fail, once
   * their elements encode to `b`, exactly when the tag sets a length other
   * than `|b|`, and then with `LengthErr`; otherwise they write `b`.
   */
  lemma SeqLength(env: Env, lists: FieldLists, heap: Heap, t: TypeId, v: Value, es: seq<Value>, n: nat, to: TagOptions,
                  site: Site, level: nat, seen: set<(TypeId, Addr)>, b: seq<Byte>)
    requires WellFormed(env.table) && t in env.table && (env.table[t].shape.Array? || env.table[t].shape.Slice?)
    requires n <= |es| && Size(v) == 1 + SizeAll(es)
    requires env.table[t].shape.elem in env.table
    requires EncElems(env, lists, heap, env.table[t].shape.elem, es, n, to, 0, level, seen) == Done(b)
    ensures var r := EncSeq(env, lists, heap, t, v, es, n, to, site, level, seen);
      (r.Failed? <==> to.length != 0 && |b| != to.length) &&
      (r.Failed? ==> r.failure == Raised(LengthErr(site, |b|, to.length))) &&
      (r.Done? ==> r.value == b)
  {
  }

  /** Every field of a list with no `lengthref` at all is encoded into its own slot. */
  predicate Plain(list: seq<FieldInfo>)
  {
    forall j :: 0 <= j < |list| ==> list[j].opts.lengthref == "" && list[j].name != ""
  }

  /**
   * The loop of `structCoder.encode` on a plain list (codec.go:747-771):
   * from field `i` on, slot `j` gets the encoding `bs[j]` of field `j`.
   */
  lemma {:induction false} PlainFields(env: Env, lists: FieldLists, heap: Heap, t: TypeId, vals: seq<Value>, list: seq<FieldInfo>,
                                       i: nat, slots: seq<seq<Byte>>, level: nat, seen: set<(TypeId, Addr)>, bs: seq<seq<Byte>>)
    requires WellFormed(env.table) && t in env.table && env.table[t].shape.Struct?
    requires |vals| == |env.table[t].shape.fields| && |slots| == |list| && i <= |list| && |bs| == |list|
    requires Plain(list)
    requires forall j :: i <= j < |list| ==> (list[j].index < |env.table[t].shape.fields| &&
      env.table[t].shape.fields[list[j].index].typ in env.table &&
      Enc(env, lists, heap, env.table[t].shape.fields[list[j].index].typ, vals[list[j].index], list[j].opts, level, seen) == Done(bs[j]))
    ensures EncFields(env, lists, heap, t, vals, list, i, slots, level, seen) == Done(slots[..i] + bs[i..])
    decreases |list| - i
  {
    if i < |list| {
      assert !ExistLengthref(list, list[i]);
      var slots' := slots[i := bs[i]];
      assert EncField(env, lists, heap, t, vals, list, i, slots, level, seen) == Done(slots');
      PlainFields(env, lists, heap, t, vals, list, i + 1, slots', level, seen, bs);
      assert slots'[..i + 1] + bs[i + 1..] == slots[..i] + bs[i..];
    } else {
      assert slots[..i] + bs[i..] == slots;
    }
  }

  /**
   * `structCoder.encode` (codec.go:744-773) of a struct with a plain field
   * list: the encodings of the fields, in the order of the list,
   * concatenated.
   */
  lemma PlainStruct(env: Env, lists: FieldLists, heap: Heap, t: TypeId, vals: seq<Value>,
                    level: nat, seen: set<(TypeId, Addr)>, bs: seq<seq<Byte>>)
    requires WellFormed(env.table) && t in env.table && env.table[t].shape.Struct?
    requires |vals| == |env.table[t].shape.fields| && t in lists && |bs| == |lists[t]|
    requires Plain(lists[t])
    requires forall j :: 0 <= j < |lists[t]| ==> (lists[t][j].index < |env.table[t].shape.fields| &&
      env.table[t].shape.fields[lists[t][j].index].typ in env.table &&
      Enc(env, lists, heap, env.table[t].shape.fields[lists[t][j].index].typ, vals[lists[t][j].index], lists[t][j].opts, level, seen) == Done(bs[j]))
    ensures Enc(env, lists, heap, t, VStruct(vals), NoOptions, level, seen) == Done(Concat(bs))
  {
    PlainFields(env, lists, heap, t, vals, lists[t], 0, EmptySlots(|lists[t]|), level, seen, bs);
    assert EmptySlots(|lists[t]|)[..0] + bs[0..] == bs;
    StructOf(env, lists, heap, t, vals, level, seen, bs);
  }

  /** A struct whose field loop fills the slots `bs` encodes to their concatenation. */
  lemma StructOf(env: Env, lists: FieldLists, heap: Heap, t: TypeId, vals: seq<Value>,
                 level: nat, seen: set<(TypeId, Addr)>, bs: seq<seq<Byte>>)
    requires WellFormed(env.table) && t in env.table && env.table[t].shape.Struct?
    requires |vals| == |env.table[t].shape.fields| && t in lists
    requires EncFields(env, lists, heap, t, vals, lists[t], 0, EmptySlots(|lists[t]|), level, seen) == Done(bs)
    ensures Enc(env, lists, heap, t, VStruct(vals), NoOptions, level, seen) == Done(Concat(bs))
  {
    assert EncStruct(env, lists, heap, t, VStruct(vals), level, seen) == Done(Concat(bs));
  }

  /**
   * A field a `lengthref` names is skipped by the loop (codec.go:766-768):
   * it contributes only what `encodeLengthref` put in its slot, or nothing.
   */
  lemma ReferencedFieldSkipped(env: Env, lists: FieldLists, heap: Heap, t: TypeId, vals: seq<Value>, list: seq<FieldInfo>,
                               i: nat, j: nat, slots: seq<seq<Byte>>, level: nat, seen: set<(TypeId, Addr)>)
    requires WellFormed(env.table) && t in env.table && env.table[t].shape.Struct?
    requires |vals| == |env.table[t].shape.fields| && |slots| == |list| && i < |list| && j < |list|
    requires list[i].index < |env.table[t].shape.fields|
    requires list[i].opts.lengthref == "" && list[j].opts.lengthref == list[i].name
    ensures EncField(env, lists, heap, t, vals, list, i, slots, level, seen) == Done(slots)
  {
  }

  /**
   * The `LengthrefNotFound` branch of `structCoder.encode` (codec.go:753-755)
   * is dead: a field with a `lengthref` always goes to `encodeLengthref`,
   * with the last entry whose `lengthref` equals its own.
   */
  lemma HolderFindsRef(env: Env, lists: FieldLists, heap: Heap, t: TypeId, vals: seq<Value>, list: seq<FieldInfo>,
                       i: nat, slots: seq<seq<Byte>>, level: nat, seen: set<(TypeId, Addr)>)
    requires WellFormed(env.table) && t in env.table && env.table[t].shape.Struct?
    requires |vals| == |env.table[t].shape.fields| && |slots| == |list| && i < |list|
    requires list[i].index < |env.table[t].shape.fields| && list[i].opts.lengthref != ""
    ensures FindRef(list, list[i]).Some?
    ensures var ri := FindRef(list, list[i]).value;
      i <= ri && list[ri].opts.lengthref == list[i].opts.lengthref &&
      (forall j :: ri < j < |list| ==> list[j].opts.lengthref != list[i].opts.lengthref) &&
      EncField(env, lists, heap, t, vals, list, i, slots, level, seen) == EncLengthref(env, lists, heap, t, vals, list, i, ri, slots, level, seen)
  {
    FindRefAlwaysFound(list, i);
  }

  /**
   * A holder whose type is not an integer raises `LengthrefInvalidKind`
   * (codec.go:826-827) as soon as its ref is encoded.
   */
  lemma HolderNotInteger(env: Env, lists: FieldLists, heap: Heap, t: TypeId, vals: seq<Value>, list: seq<FieldInfo>,
                         i: nat, ri: nat, slots: seq<seq<Byte>>, level: nat, seen: set<(TypeId, Addr)>)
    requires WellFormed(env.table) && t in env.table && env.table[t].shape.Struct?
    requires |vals| == |env.table[t].shape.fields| && |slots| == |list| && i < |list| && ri < |list|
    requires list[i].index < |env.table[t].shape.fields| && list[ri].index < |env.table[t].shape.fields|
    requires env.table[t].shape.fields[list[i].index].typ in env.table
    requires IntKindOf(env.table[env.table[t].shape.fields[list[i].index].typ].shape).None?
    requires env.table[t].shape.fields[list[ri].index].typ in env.table
    requires Enc(env, lists, heap, env.table[t].shape.fields[list[ri].index].typ, vals[list[ri].index], list[ri].opts, level, seen).Done?
    ensures EncLengthref(env, lists, heap, t, vals, list, i, ri, slots, level, seen) == Raise(LengthrefInvalidKind(list[i].name))
  {
  }

  /**
   * A length that fits the holder's kind is the holder's value itself
   * (codec.go:806-821), and the struct decoder reads it back as the same
   * int (codec.go:853-868). An unsigned holder of 1, 2 or 4 bytes takes its
   * whole range; a 64-bit unsigned one only what `int` holds.
   */
  lemma LengthReadBack(k: IntKind, n: nat)
    requires if k.Signed() || k.Width() == 8 then n < Pow256(k.Width()) / 2 else n < Pow256(k.Width())
    ensures LengthValue(k, n) == if k.Signed() then VInt(n) else VUint(n)
    ensures HolderLength(k, LengthValue(k, n)) == Done(n)
  {
    Pow256Values();
    var w := k.Width();
    ModUnique(n, Pow256(w), 0, n);
    assert Truncate(n, w) == n;
    if !k.Signed() {
      assert Pow256(w) <= Pow256(8);
      ModUnique(n, Pow256(8), 0, n);
    }
  }

  /**
   * The holder's slot for any byte count `n` (codec.go:806-821): the low
   * bytes of `n` in the holder's width, so a count too big for the holder
   * wraps as Go's conversion does (300 in a `uint8` holder writes 0x2C).
   */
  lemma LengthWraps(env: Env, lists: FieldLists, heap: Heap, t: TypeId, k: IntKind, n: nat, to: TagOptions,
                    level: nat, seen: set<(TypeId, Addr)>)
    requires WellFormed(env.table) && t in env.table && IntKindOf(env.table[t].shape) == Some(k)
    ensures Enc(env, lists, heap, t, LengthValue(k, n), to, level, seen) == Done(EncodeInt(k, n))
    ensures EncodeInt(k, n) == BigEndian(n % Pow256(k.Width()), k.Width())
  {
    var v := LengthValue(k, n);
    var x := if k.Signed() then v.i else v.u;
    assert v == if k.Signed() then VInt(x) else VUint(x);
    IntEnc(env, lists, heap, t, k, x, to, level, seen);
    SameLowBytes(k, n);
  }

  /** The length converted to the holder's kind has the low bytes of the length. */
  lemma SameLowBytes(k: IntKind, n: nat)
    ensures var v := LengthValue(k, n);
      Truncate(if k.Signed() then v.i else v.u, k.Width()) == Truncate(n, k.Width())
  {
    var w := k.Width();
    var p := Pow256(w);
    var u := n % p;
    if k.Signed() && u >= p / 2 {
      ModUnique(u - p, p, -1, u);
    } else {
      ModUnique(u, p, 0, u);
    }
  }

  /** Nil pointers and nil interfaces write nothing (codec.go:697-699, 1026-1028). */
  lemma NilWritesNothing(env: Env, lists: FieldLists, heap: Heap, t: TypeId, to: TagOptions,
                         level: nat, seen: set<(TypeId, Addr)>)
    requires WellFormed(env.table) && t in env.table
    ensures env.table[t].shape.Ptr? ==> Enc(env, lists, heap, t, VPtr(None), to, level, seen) == Done([])
    ensures env.table[t].shape.Interface? ==> Enc(env, lists, heap, t, VIface(None), to, level, seen) == Done([])
  {
  }

  /**
   * The cycle check of `ptrCoder.encode` (codec.go:1030-1035): within 1000
   * levels a pointer is followed without looking, and past them the error
   * comes exactly when the pointer was already recorded.
   */
  lemma CycleCheck(env: Env, lists: FieldLists, heap: Heap, t: TypeId, a: Addr, to: TagOptions,
                   level: nat, seen: set<(TypeId, Addr)>)
    requires WellFormed(env.table) && t in env.table && env.table[t].shape.Ptr? && a in heap
    ensures env.table[t].shape.elem in env.table
    ensures var r := EncPointee(env, lists, heap, t, a, to, level, seen);
      var inner := Enc(env, lists, heap, env.table[t].shape.elem, heap[a], to, level + 1, Deeper(level, seen, t, a));
      (level < CycleCheckDepth ==> r == inner && Deeper(level, seen, t, a) == seen) &&
      (level >= CycleCheckDepth && (t, a) in seen ==> r == Raise(UnsupportedValueError(env.table[t].name))) &&
      (level >= CycleCheckDepth && (t, a) !in seen ==> r == inner && Deeper(level, seen, t, a) == seen + {(t, a)})
  {
    ElemType(env.table, t);
  }
}
