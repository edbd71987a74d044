/**
 * The `encode` methods of the codecs (codec.go:190-193, 359-521, 618-651,
 * 695-723, 744-838, 901-971, 1025-1041), writing into a `CodecState` and
 * dispatching on the codec `typeCodec` built. Each is proved to write what
 * `EncSpec` says for the codec's type, or to fail as it says.
 *
 * A failure ends the whole run (Go unwinds with `panic`), so after one the
 * state of the `CodecState` is left unspecified.
 */
module Encoder {
  import opened Wrappers
  import opened Binary
  import opened Types
  import opened Tags
  import opened StructFields
  import opened Outcomes
  import opened Cursor
  import opened Codecs
  import opened Registry
  import opened EncSpec

  /**
   * An encode call whose specified outcome is `r` reported `err` and moved
   * the buffer from `before` to `after` and the pointer track from
   * (`level`, `seen`) to (`level'`, `seen'`): on success the bytes are
   * appended and the track is back where it was; a failure is reported as is.
   */
  ghost predicate Sound(r: Outcome<seq<Byte>>, err: Option<Failure>, before: seq<Byte>, after: seq<Byte>,
                        level: nat, level': nat, seen: set<(TypeId, Addr)>, seen': set<(TypeId, Addr)>)
  {
    match r
    case Done(b) => err.None? && after == before + b && level' == level && seen' == seen
    case Failed(f) => err == Some(f)
  }

  /**
   * `lists` holds the field list each struct codec uses: the cached one, or
   * the one `typeFields` builds when the type has none cached yet.
   */
  ghost predicate Agrees(table: TypeTable, fields: map<TypeId, seq<Field>>, lists: FieldLists)
  {
    forall u :: u in table && table[u].shape.Struct? ==>
      u in lists && lists[u] == (if u in fields then Infos(fields[u]) else FieldInfos(table, u))
  }

  /** The caches `s'` a call left behind: consistent, grown from `s`, and agreeing with `lists`. */
  ghost predicate Later(table: TypeTable, s: Caches, s': Caches, lists: FieldLists)
  {
    Valid(table, s') && Grows(s.codecs, s.fields, s'.codecs, s'.fields) && Agrees(table, s'.fields, lists)
  }

  lemma LaterTrans(table: TypeTable, s1: Caches, s2: Caches, s3: Caches, lists: FieldLists)
    requires Later(table, s1, s2, lists) && Later(table, s2, s3, lists)
    ensures Later(table, s1, s3, lists)
  {
  }

  /** The lists of the caches agree with the caches. */
  lemma ListsAgree(table: TypeTable, fields: map<TypeId, seq<Field>>)
    ensures Agrees(table, fields, Lists(table, fields))
  {
  }

  /** Caches `typeCodec` filled, whose lists are unchanged, still agree. */
  lemma AgreesKept(table: TypeTable, s: Caches, s': Caches, lists: FieldLists)
    requires Agrees(table, s.fields, lists) && Lists(table, s'.fields) == Lists(table, s.fields)
    ensures Agrees(table, s'.fields, lists)
  {
    forall u | u in table && table[u].shape.Struct?
      ensures u in lists && lists[u] == (if u in s'.fields then Infos(s'.fields[u]) else FieldInfos(table, u))
    {
      assert Lists(table, s'.fields)[u] == Lists(table, s.fields)[u];
    }
  }

  /** A placeholder met after building has ended stands for the finished codec of its type. */
  lemma WrapTarget(table: TypeTable, s: Caches, c: Codec, t: TypeId)
    requires Valid(table, s) && c.RecursiveWrap? && Fits(table, s.codecs.Keys, s.fields.Keys, c, t)
    ensures t in s.codecs && !s.codecs[t].RecursiveWrap? && Fits(table, s.codecs.Keys, s.fields.Keys, s.codecs[t], t)
  {
  }

  /** The struct codec of `t` finds its cached field list, which is the one in `lists`. */
  lemma StructListOf(table: TypeTable, s: Caches, lists: FieldLists, t: TypeId)
    requires Valid(table, s) && Agrees(table, s.fields, lists) && t in s.fields
    ensures table[t].shape.Struct? && FieldsFit(table, s.codecs.Keys, s.fields.Keys, t, s.fields[t])
    ensures t in lists && lists[t] == Infos(s.fields[t])
  {
  }

  /** A field codec of a cached list still fits once the caches have grown. */
  lemma FieldFitsLater(table: TypeTable, s0: Caches, s: Caches, lists: FieldLists, t: TypeId, j: nat)
    requires Valid(table, s0) && t in s0.fields && Later(table, s0, s, lists) && j < |s0.fields[t]|
    ensures table[t].shape.Struct? && t in s.fields && s.fields[t] == s0.fields[t]
    ensures s0.fields[t][j].info.index < |table[t].shape.fields|
    ensures Fits(table, s.codecs.Keys, s.fields.Keys, s0.fields[t][j].codec,
                 table[t].shape.fields[s0.fields[t][j].info.index].typ)
  {
    var f := s0.fields[t][j];
    assert FieldsFit(table, s0.codecs.Keys, s0.fields.Keys, t, s0.fields[t]);
    FitsGrow(table, s0.codecs.Keys, s0.fields.Keys, s.codecs.Keys, s.fields.Keys, f.codec,
             table[t].shape.fields[f.info.index].typ);
  }

  /** The integer kind `typ()` reports for a codec is the integer kind of its type. */
  lemma CodecIntKindFits(table: TypeTable, s: Caches, c: Codec, t: TypeId)
    requires Valid(table, s) && Fits(table, s.codecs.Keys, s.fields.Keys, c, t)
    ensures CodecIntKind(c, s.codecs) == IntKindOf(table[t].shape)
  {
    if c.RecursiveWrap? {
      WrapTarget(table, s, c, t);
    }
  }

  lemma AppendAssoc(a: seq<Byte>, b: seq<Byte>, c: seq<Byte>)
    ensures (a + b) + c == a + (b + c)
  {
  }

  /** `encode` of the codec `codec` built for type `t`. */
  method Encode(env: Env, s: Caches, ghost lists: FieldLists, heap: Heap, c: CodecState, codec: Codec, t: TypeId,
                v: Value, to: TagOptions)
    returns (err: Option<Failure>, s': Caches)
    requires Valid(env.table, s) && Agrees(env.table, s.fields, lists)
    requires Fits(env.table, s.codecs.Keys, s.fields.Keys, codec, t)
    modifies c, c.pt
    ensures Later(env.table, s, s', lists)
    ensures Sound(Enc(env, lists, heap, t, v, to, old(c.pt.level), old(c.pt.seen)),
                  err, old(c.unread), c.unread, old(c.pt.level), c.pt.level, old(c.pt.seen), c.pt.seen)
    decreases Budget(env.table, heap, c.pt.level, c.pt.seen), Size(v), if codec.RecursiveWrap? then 7 else 6, 0
  {
    s' := s;
    match codec
    case RecursiveWrap(_) =>
      // recursiveWrapCoder.encode (codec.go:190-193)
      WrapTarget(env.table, s, codec, t);
      err, s' := Encode(env, s, lists, heap, c, s.codecs[t], t, v, to);
    case InvalidValueCoder =>
      assert false;
    case InterfaceCoder | StructCoder(_) =>
      err, s' := EncodeComposite(env, s, lists, heap, c, codec, t, v, to);
    case ArrayCoder(_) | SliceCoder(_) | PtrCoder(_) =>
      err, s' := EncodeContainer(env, s, lists, heap, c, codec, t, v, to);
    case _ =>
      err := EncodeScalar(env, c, codec, t, v, to);
  }

  /** `encode` of the interface and struct codecs. */
  method EncodeComposite(env: Env, s: Caches, ghost lists: FieldLists, heap: Heap, c: CodecState, codec: Codec,
                         t: TypeId, v: Value, to: TagOptions)
    returns (err: Option<Failure>, s': Caches)
    requires Valid(env.table, s) && Agrees(env.table, s.fields, lists)
    requires Fits(env.table, s.codecs.Keys, s.fields.Keys, codec, t)
    requires codec.InterfaceCoder? || codec.StructCoder?
    modifies c, c.pt
    ensures Later(env.table, s, s', lists)
    ensures Sound(Enc(env, lists, heap, t, v, to, old(c.pt.level), old(c.pt.seen)),
                  err, old(c.unread), c.unread, old(c.pt.level), c.pt.level, old(c.pt.seen), c.pt.seen)
    decreases Budget(env.table, heap, c.pt.level, c.pt.seen), Size(v), 5, 0
  {
    if codec.InterfaceCoder? {
      err, s' := EncodeInterface(env, s, lists, heap, c, t, v, to);
    } else {
      err, s' := EncodeStruct(env, s, lists, heap, c, t, v);
    }
  }

  /** `encode` of the codecs of the array, slice and pointer types. */
  method EncodeContainer(env: Env, s: Caches, ghost lists: FieldLists, heap: Heap, c: CodecState, codec: Codec,
                         t: TypeId, v: Value, to: TagOptions)
    returns (err: Option<Failure>, s': Caches)
    requires Valid(env.table, s) && Agrees(env.table, s.fields, lists)
    requires Fits(env.table, s.codecs.Keys, s.fields.Keys, codec, t)
    requires codec.ArrayCoder? || codec.SliceCoder? || codec.PtrCoder?
    modifies c, c.pt
    ensures Later(env.table, s, s', lists)
    ensures Sound(Enc(env, lists, heap, t, v, to, old(c.pt.level), old(c.pt.seen)),
                  err, old(c.unread), c.unread, old(c.pt.level), c.pt.level, old(c.pt.seen), c.pt.seen)
    decreases Budget(env.table, heap, c.pt.level, c.pt.seen), Size(v), 5, 0
  {
    match codec
    case ArrayCoder(ec) =>
      err, s' := EncodeArray(env, s, lists, heap, c, ec, t, v, to);
    case SliceCoder(ec) =>
      err, s' := EncodeSlice(env, s, lists, heap, c, ec, t, v, to);
    case PtrCoder(ec) =>
      err, s' := EncodePtr(env, s, lists, heap, c, ec, t, v, to);
  }

  /** boolCoder, the integer coders, stringCoder and unsupportedTypeCoder. */
  method EncodeScalar(env: Env, c: CodecState, codec: Codec, t: TypeId, v: Value, to: TagOptions)
    returns (err: Option<Failure>)
    requires Fits(env.table, {}, {}, codec, t)
    requires codec.BoolCoder? || codec.IntCoder? || codec.StringCoder? || codec.UnsupportedTypeCoder?
    modifies c
    ensures Sound(EncScalar(env, t, v, to), err, old(c.unread), c.unread, 0, 0, {}, {})
  {
    err := None;
    match codec
    case BoolCoder =>
      // boolCoder.encode (codec.go:359-366)
      match v {
        case VBool(b) => c.WriteByte(if b then 1 else 0);
        case _ => err := Some(Crashed(IllTyped));
      }
    case IntCoder(k) =>
      // the integer coders (codec.go:381-521): the value truncated to k's width, big-endian
      match v {
        case VInt(x) =>
          if k.Signed() {
            c.Write(EncodeInt(k, x));
          } else {
            err := Some(Crashed(IllTyped));
          }
        case VUint(x) =>
          if !k.Signed() {
            c.Write(EncodeInt(k, x));
          } else {
            err := Some(Crashed(IllTyped));
          }
        case _ =>
          err := Some(Crashed(IllTyped));
      }
    case StringCoder =>
      match v {
        case VString(str) => err := EncodeString(env.tx, c, str, to);
        case _ => err := Some(Crashed(IllTyped));
      }
    case UnsupportedTypeCoder =>
      // unsupportedTypeCoder.encode (codec.go:718-720)
      err := Some(Raised(UnsupportedTypeError(env.table[t].name)));
  }

  /** stringCoder.encode (codec.go:618-651) */
  method EncodeString(tx: Transcoders, c: CodecState, str: seq<Byte>, to: TagOptions) returns (err: Option<Failure>)
    modifies c
    ensures Sound(EncString(tx, str, to), err, old(c.unread), c.unread, 0, 0, {}, {})
  {
    err := None;
    if to.bcd != 0 {
      var b := tx.bcdEncode(str, to.bcd);
      if b.None? {
        return Some(Raised(EncodeBCDErr));
      }
      c.Write(b.value);
      return;
    }
    var encode: Option<seq<Byte> -> Option<seq<Byte>>> := None;
    if to.gbk {
      encode := Some(tx.gbkEncode);
    }
    if to.gbk18030 {
      encode := Some(tx.gb18030Encode);
    }
    if encode.Some? {
      var b := encode.value(str);
      if b.None? {
        return Some(Raised(EncodeGBKErr));
      }
      c.Write(b.value);
      return;
    }
    c.Write(str);
    if to.length != 0 && |str| != to.length {
      err := Some(Raised(LengthErr(StringSite, |str|, to.length)));
    }
  }

  /** interfaceCoder.encode (codec.go:695-701): the dynamic value, with the codec of its dynamic type. */
  method EncodeInterface(env: Env, s: Caches, ghost lists: FieldLists, heap: Heap, c: CodecState, t: TypeId,
                         v: Value, to: TagOptions)
    returns (err: Option<Failure>, s': Caches)
    requires Valid(env.table, s) && Agrees(env.table, s.fields, lists)
    modifies c, c.pt
    ensures Later(env.table, s, s', lists)
    ensures Sound(EncIface(env, lists, heap, t, v, to, old(c.pt.level), old(c.pt.seen)),
                  err, old(c.unread), c.unread, old(c.pt.level), c.pt.level, old(c.pt.seen), c.pt.seen)
    decreases Budget(env.table, heap, c.pt.level, c.pt.seen), Size(v), 4, 0
  {
    s' := s;
    err := None;
    match v
    case VIface(None) =>
      assert c.unread == old(c.unread) + [];
    case VIface(Some(b)) =>
      if b.typ !in env.table {
        return Some(Crashed(IllTyped)), s;
      }
      assert EncIface(env, lists, heap, t, v, to, c.pt.level, c.pt.seen)
        == Enc(env, lists, heap, b.typ, b.val, to, c.pt.level, c.pt.seen);
      var dc, s1 := TypeCodec(env.table, s, b.typ, {});
      AgreesKept(env.table, s, s1, lists);
      err, s' := Encode(env, s1, lists, heap, c, dc, b.typ, b.val, to);
      LaterTrans(env.table, s, s1, s', lists);
    case _ =>
      err := Some(Crashed(IllTyped));
  }

  /**
   * A struct-loop call whose specified outcome is `r` reported `err` and
   * left the slots `buf'`: on success the slots are `r`'s and the pointer
   * track is back where it was; a failure is reported as is.
   */
  ghost predicate SlotsSound(r: Outcome<seq<seq<Byte>>>, err: Option<Failure>, buf': seq<seq<Byte>>,
                             level: nat, level': nat, seen: set<(TypeId, Addr)>, seen': set<(TypeId, Addr)>)
  {
    match r
    case Done(b) => err.None? && buf' == b && level' == level && seen' == seen
    case Failed(f) => err == Some(f)
  }

  /** One more field: `EncFields` is `EncField` followed by the rest. */
  lemma FieldsStep(env: Env, lists: FieldLists, heap: Heap, t: TypeId, vals: seq<Value>, list: seq<FieldInfo>,
                   i: nat, slots: seq<seq<Byte>>, level: nat, seen: set<(TypeId, Addr)>)
    requires WellFormed(env.table) && t in env.table && env.table[t].shape.Struct?
    requires |vals| == |env.table[t].shape.fields| && |slots| == |list| && i < |list|
    ensures var r := EncField(env, lists, heap, t, vals, list, i, slots, level, seen);
      EncFields(env, lists, heap, t, vals, list, i, slots, level, seen)
      == if r.Failed? then Failed(r.failure) else EncFields(env, lists, heap, t, vals, list, i + 1, r.value, level, seen)
  {
  }

  /** What `EncStruct` gives for a struct value of the right arity. */
  lemma StructUnfold(env: Env, lists: FieldLists, heap: Heap, t: TypeId, v: Value, level: nat, seen: set<(TypeId, Addr)>)
    requires WellFormed(env.table) && t in env.table && env.table[t].shape.Struct? && t in lists
    requires v.VStruct? && |v.fields| == |env.table[t].shape.fields|
    ensures var r := EncFields(env, lists, heap, t, v.fields, lists[t], 0, EmptySlots(|lists[t]|), level, seen);
      EncStruct(env, lists, heap, t, v, level, seen) == if r.Failed? then Failed(r.failure) else Done(Concat(r.value))
  {
  }

  /** structCoder.encode (codec.go:744-773): the fields into slots from fresh sub-states, then the slots in order. */
  method EncodeStruct(env: Env, s: Caches, ghost lists: FieldLists, heap: Heap, c: CodecState, t: TypeId, v: Value)
    returns (err: Option<Failure>, s': Caches)
    requires Valid(env.table, s) && Agrees(env.table, s.fields, lists) && t in s.fields
    modifies c, c.pt
    ensures Later(env.table, s, s', lists)
    ensures env.table[t].shape.Struct?
    ensures Sound(EncStruct(env, lists, heap, t, v, old(c.pt.level), old(c.pt.seen)),
                  err, old(c.unread), c.unread, old(c.pt.level), c.pt.level, old(c.pt.seen), c.pt.seen)
    decreases Budget(env.table, heap, c.pt.level, c.pt.seen), Size(v), 4, 0
  {
    StructListOf(env.table, s, lists, t);
    s' := s;
    if !v.VStruct? || |v.fields| != |env.table[t].shape.fields| {
      return Some(Crashed(IllTyped)), s;
    }
    StructUnfold(env, lists, heap, t, v, c.pt.level, c.pt.seen);
    var buf;
    err, buf, s' := EncodeFields(env, s, lists, heap, c, t, v);
    if err.None? {
      c.Write(Concat(buf));
    }
  }

  /**
   * The state of the loop of structCoder.encode before field `i`: the
   * caches grown from `s`, and the slots `buf` such that going on from `i`
   * gives what the whole loop gives.
   */
  ghost predicate Filling(env: Env, lists: FieldLists, heap: Heap, t: TypeId, vals: seq<Value>, s: Caches, s': Caches,
                          i: nat, buf: seq<seq<Byte>>, level: nat, seen: set<(TypeId, Addr)>)
  {
    WellFormed(env.table) && t in env.table && env.table[t].shape.Struct? && t in lists &&
    |vals| == |env.table[t].shape.fields| && |buf| == |lists[t]| && i <= |lists[t]| &&
    Later(env.table, s, s', lists) &&
    EncFields(env, lists, heap, t, vals, lists[t], 0, EmptySlots(|lists[t]|), level, seen)
      == EncFields(env, lists, heap, t, vals, lists[t], i, buf, level, seen)
  }

  /** The loop of structCoder.encode (codec.go:747-771): every field of the cached list, in order. */
  method EncodeFields(env: Env, s: Caches, ghost lists: FieldLists, heap: Heap, c: CodecState, t: TypeId, v: Value)
    returns (err: Option<Failure>, buf: seq<seq<Byte>>, s': Caches)
    requires Valid(env.table, s) && t in s.fields && Later(env.table, s, s, lists)
    requires t in lists && lists[t] == Infos(s.fields[t])
    requires env.table[t].shape.Struct? && v.VStruct? && |v.fields| == |env.table[t].shape.fields|
    modifies c.pt
    ensures Later(env.table, s, s', lists)
    ensures SlotsSound(EncFields(env, lists, heap, t, v.fields, lists[t], 0, EmptySlots(|lists[t]|), old(c.pt.level), old(c.pt.seen)),
                       err, buf, old(c.pt.level), c.pt.level, old(c.pt.seen), c.pt.seen)
    decreases Budget(env.table, heap, c.pt.level, c.pt.seen), Size(v), 3, 0
  {
    var list := s.fields[t];
    ghost var level, seen := c.pt.level, c.pt.seen;
    buf := EmptySlots(|list|);
    s' := s;
    err := None;
    for i := 0 to |list|
      invariant Filling(env, lists, heap, t, v.fields, s, s', i, buf, level, seen)
      invariant err.None? && c.pt.level == level && c.pt.seen == seen
    {
      FieldsStep(env, lists, heap, t, v.fields, lists[t], i, buf, level, seen);
      err, buf, s' := EncodeField(env, s, s', lists, heap, c, t, v, i, buf);
      if err.Some? {
        return;
      }
    }
  }

  /** One iteration of the loop of structCoder.encode (codec.go:748-770): field `i`. */
  method EncodeField(env: Env, ghost s0: Caches, s: Caches, ghost lists: FieldLists, heap: Heap, c: CodecState,
                     t: TypeId, v: Value, i: nat, buf: seq<seq<Byte>>)
    returns (err: Option<Failure>, buf': seq<seq<Byte>>, s': Caches)
    requires Valid(env.table, s0) && t in s0.fields && Later(env.table, s0, s, lists)
    requires t in lists && lists[t] == Infos(s0.fields[t])
    requires env.table[t].shape.Struct? && v.VStruct? && |v.fields| == |env.table[t].shape.fields|
    requires i < |s0.fields[t]| && |buf| == |s0.fields[t]|
    modifies c.pt
    ensures Later(env.table, s0, s', lists)
    ensures SlotsSound(EncField(env, lists, heap, t, v.fields, lists[t], i, buf, old(c.pt.level), old(c.pt.seen)),
                       err, buf', old(c.pt.level), c.pt.level, old(c.pt.seen), c.pt.seen)
    decreases Budget(env.table, heap, c.pt.level, c.pt.seen), Size(v), 1, 1
  {
    FieldFitsLater(env.table, s0, s, lists, t, i);
    var list := s.fields[t];
    var fs := env.table[t].shape.fields;
    var f := list[i];
    buf', s' := buf, s;
    err := None;
    if f.info.index >= |fs| {
      err := Some(Crashed(IllTyped));
    } else if f.info.opts.lengthref != "" {
      match FindRef(Infos(list), f.info) {
        case None =>
          err := Some(Raised(LengthrefNotFound(f.info.name)));
        case Some(ri) =>
          assert EncField(env, lists, heap, t, v.fields, lists[t], i, buf, c.pt.level, c.pt.seen)
            == EncLengthref(env, lists, heap, t, v.fields, lists[t], i, ri, buf, c.pt.level, c.pt.seen);
          err, buf', s' := EncodeLengthref(env, s0, s, lists, heap, c, t, v, i, ri, buf);
      }
    } else if !ExistLengthref(Infos(list), f.info) {
      SizeAllElement(v.fields, f.info.index);
      var scc := c.Gensub();
      ghost var level0, seen0 := c.pt.level, c.pt.seen;
      err, s' := Encode(env, s, lists, heap, scc, f.codec, fs[f.info.index].typ, v.fields[f.info.index], f.info.opts);
      LaterTrans(env.table, s0, s, s', lists);
      buf' := buf[i := scc.Bytes()];
      FieldSound(env, lists, heap, t, v.fields, lists[t], i, buf, level0, seen0, err, scc.unread, c.pt.level, c.pt.seen);
    }
  }

  /** An ordinary field: its slot gets exactly what encoding it wrote into a fresh sub-state. */
  lemma FieldSound(env: Env, lists: FieldLists, heap: Heap, t: TypeId, vals: seq<Value>, list: seq<FieldInfo>,
                   i: nat, slots: seq<seq<Byte>>, level: nat, seen: set<(TypeId, Addr)>,
                   err: Option<Failure>, sub: seq<Byte>, level1: nat, seen1: set<(TypeId, Addr)>)
    requires WellFormed(env.table) && t in env.table && env.table[t].shape.Struct?
    requires |vals| == |env.table[t].shape.fields| && |slots| == |list| && i < |list|
    requires list[i].index < |env.table[t].shape.fields| && list[i].opts.lengthref == "" && !ExistLengthref(list, list[i])
    requires env.table[t].shape.fields[list[i].index].typ in env.table
    requires Sound(Enc(env, lists, heap, env.table[t].shape.fields[list[i].index].typ, vals[list[i].index], list[i].opts,
                       level, seen), err, [], sub, level, level1, seen, seen1)
    ensures SlotsSound(EncField(env, lists, heap, t, vals, list, i, slots, level, seen),
                       err, slots[i := sub], level, level1, seen, seen1)
  {
    var r := Enc(env, lists, heap, env.table[t].shape.fields[list[i].index].typ, vals[list[i].index], list[i].opts, level, seen);
    if r.Done? {
      assert [] + r.value == r.value;
    }
  }

  /**
   * encodeLengthref (codec.go:796-838), first half: the ref field from a
   * fresh sub-state, then `EncodeHolder`.
   */
  method EncodeLengthref(env: Env, ghost s0: Caches, s: Caches, ghost lists: FieldLists, heap: Heap, c: CodecState,
                         t: TypeId, v: Value, i: nat, ri: nat, buf: seq<seq<Byte>>)
    returns (err: Option<Failure>, buf': seq<seq<Byte>>, s': Caches)
    requires Valid(env.table, s0) && t in s0.fields && Later(env.table, s0, s, lists)
    requires t in lists && lists[t] == Infos(s0.fields[t])
    requires env.table[t].shape.Struct? && v.VStruct? && |v.fields| == |env.table[t].shape.fields|
    requires i < |s0.fields[t]| && ri < |s0.fields[t]| && |buf| == |s0.fields[t]|
    requires s0.fields[t][i].info.index < |env.table[t].shape.fields|
    modifies c.pt
    ensures Later(env.table, s0, s', lists)
    ensures SlotsSound(EncLengthref(env, lists, heap, t, v.fields, lists[t], i, ri, buf, old(c.pt.level), old(c.pt.seen)),
                       err, buf', old(c.pt.level), c.pt.level, old(c.pt.seen), c.pt.seen)
    decreases Budget(env.table, heap, c.pt.level, c.pt.seen), Size(v), 1, 0
  {
    var fs := env.table[t].shape.fields;
    FieldFitsLater(env.table, s0, s, lists, t, ri);
    var list := s.fields[t];
    buf', s' := buf, s;
    var ref := list[ri];
    if ref.info.index >= |fs| {
      return Some(Crashed(IllTyped)), buf, s;
    }
    SizeAllElement(v.fields, ref.info.index);
    var scc := c.Gensub();
    ghost var level0, seen0 := c.pt.level, c.pt.seen;
    var s1;
    err, s1 := Encode(env, s, lists, heap, scc, ref.codec, fs[ref.info.index].typ, v.fields[ref.info.index], ref.info.opts);
    LaterTrans(env.table, s0, s, s1, lists);
    s' := s1;
    var refbytes := scc.Bytes();
    LengthrefSplit(env, lists, heap, t, v.fields, lists[t], i, ri, buf, level0, seen0, err, refbytes, c.pt.level, c.pt.seen);
    if err.Some? {
      return;
    }
    err, buf', s' := EncodeHolder(env, s0, s1, lists, heap, c, t, v, i, ri, buf, refbytes);
  }

  /** How `EncLengthref` goes on from the outcome of encoding the ref field. */
  lemma LengthrefSplit(env: Env, lists: FieldLists, heap: Heap, t: TypeId, vals: seq<Value>, list: seq<FieldInfo>,
                       i: nat, ri: nat, slots: seq<seq<Byte>>, level: nat, seen: set<(TypeId, Addr)>,
                       err: Option<Failure>, sub: seq<Byte>, level1: nat, seen1: set<(TypeId, Addr)>)
    requires WellFormed(env.table) && t in env.table && env.table[t].shape.Struct?
    requires |vals| == |env.table[t].shape.fields| && |slots| == |list| && i < |list| && ri < |list|
    requires list[i].index < |env.table[t].shape.fields| && list[ri].index < |env.table[t].shape.fields|
    requires env.table[t].shape.fields[list[ri].index].typ in env.table
    requires Sound(Enc(env, lists, heap, env.table[t].shape.fields[list[ri].index].typ, vals[list[ri].index], list[ri].opts,
                       level, seen), err, [], sub, level, level1, seen, seen1)
    ensures err.Some? ==> EncLengthref(env, lists, heap, t, vals, list, i, ri, slots, level, seen) == Failed(err.value)
    ensures err.None? ==> level1 == level && seen1 == seen
    ensures err.None? ==> EncLengthref(env, lists, heap, t, vals, list, i, ri, slots, level, seen)
                          == EncHolder(env, lists, heap, t, vals, list, i, ri, slots, sub, level, seen)
  {
    var r := Enc(env, lists, heap, env.table[t].shape.fields[list[ri].index].typ, vals[list[ri].index], list[ri].opts, level, seen);
    if r.Done? {
      assert [] + r.value == r.value;
    }
  }

  /**
   * encodeLengthref (codec.go:805-837), second half: the length of the ref's
   * bytes, encoded with the holder's codec when its kind is an integer kind,
   * then both slots.
   */
  method EncodeHolder(env: Env, ghost s0: Caches, s: Caches, ghost lists: FieldLists, heap: Heap, c: CodecState,
                      t: TypeId, v: Value, i: nat, ri: nat, buf: seq<seq<Byte>>, refbytes: seq<Byte>)
    returns (err: Option<Failure>, buf': seq<seq<Byte>>, s': Caches)
    requires Valid(env.table, s0) && t in s0.fields && Later(env.table, s0, s, lists)
    requires t in lists && lists[t] == Infos(s0.fields[t])
    requires env.table[t].shape.Struct? && v.VStruct? && |v.fields| == |env.table[t].shape.fields|
    requires i < |s0.fields[t]| && ri < |s0.fields[t]| && |buf| == |s0.fields[t]|
    requires s0.fields[t][i].info.index < |env.table[t].shape.fields|
    modifies c.pt
    ensures Later(env.table, s0, s', lists)
    ensures SlotsSound(EncHolder(env, lists, heap, t, v.fields, lists[t], i, ri, buf, refbytes, old(c.pt.level), old(c.pt.seen)),
                       err, buf', old(c.pt.level), c.pt.level, old(c.pt.seen), c.pt.seen)
    decreases Budget(env.table, heap, c.pt.level, c.pt.seen), Size(v), 0, 0
  {
    var fs := env.table[t].shape.fields;
    var list := s.fields[t];
    var holder := list[i];
    FieldFitsLater(env.table, s0, s, lists, t, i);
    CodecIntKindFits(env.table, s, holder.codec, fs[holder.info.index].typ);
    SizeAllElement(v.fields, holder.info.index);
    buf', s' := buf, s;
    match CodecIntKind(holder.codec, s.codecs) {
      case None =>
        err := Some(Raised(LengthrefInvalidKind(holder.info.name)));
      case Some(k) =>
        var scc := c.Gensub();
        ghost var level0, seen0 := c.pt.level, c.pt.seen;
        err, s' := Encode(env, s, lists, heap, scc, holder.codec, fs[holder.info.index].typ,
                          LengthValue(k, |refbytes|), holder.info.opts);
        LaterTrans(env.table, s0, s, s', lists);
        buf' := buf[i := scc.Bytes()][ri := refbytes];
        HolderSound(env, lists, heap, t, v.fields, lists[t], i, ri, buf, refbytes, k, level0, seen0, err, scc.unread,
                    c.pt.level, c.pt.seen);
    }
  }

  /** The holder's slot gets what encoding the length wrote into a fresh sub-state, the ref's slot the ref's bytes. */
  lemma HolderSound(env: Env, lists: FieldLists, heap: Heap, t: TypeId, vals: seq<Value>, list: seq<FieldInfo>,
                    i: nat, ri: nat, slots: seq<seq<Byte>>, refbytes: seq<Byte>, k: IntKind,
                    level: nat, seen: set<(TypeId, Addr)>,
                    err: Option<Failure>, sub: seq<Byte>, level1: nat, seen1: set<(TypeId, Addr)>)
    requires WellFormed(env.table) && t in env.table && env.table[t].shape.Struct?
    requires |vals| == |env.table[t].shape.fields| && |slots| == |list| && i < |list| && ri < |list|
    requires list[i].index < |env.table[t].shape.fields|
    requires env.table[t].shape.fields[list[i].index].typ in env.table
    requires IntKindOf(env.table[env.table[t].shape.fields[list[i].index].typ].shape) == Some(k)
    requires Sound(Enc(env, lists, heap, env.table[t].shape.fields[list[i].index].typ, LengthValue(k, |refbytes|),
                       list[i].opts, level, seen), err, [], sub, level, level1, seen, seen1)
    ensures SlotsSound(EncHolder(env, lists, heap, t, vals, list, i, ri, slots, refbytes, level, seen),
                       err, slots[i := sub][ri := refbytes], level, level1, seen, seen1)
  {
    var r := Enc(env, lists, heap, env.table[t].shape.fields[list[i].index].typ, LengthValue(k, |refbytes|),
                 list[i].opts, level, seen);
    if r.Done? {
      assert [] + r.value == r.value;
    }
  }

  /** arrayCoder.encode (codec.go:901-913) */
  method EncodeArray(env: Env, s: Caches, ghost lists: FieldLists, heap: Heap, c: CodecState, ec: Codec, t: TypeId,
                     v: Value, to: TagOptions)
    returns (err: Option<Failure>, s': Caches)
    requires Valid(env.table, s) && Agrees(env.table, s.fields, lists) && t in env.table && env.table[t].shape.Array?
    requires Fits(env.table, s.codecs.Keys, s.fields.Keys, ec, env.table[t].shape.elem)
    modifies c, c.pt
    ensures Later(env.table, s, s', lists)
    ensures Sound(EncArray(env, lists, heap, t, v, to, old(c.pt.level), old(c.pt.seen)),
                  err, old(c.unread), c.unread, old(c.pt.level), c.pt.level, old(c.pt.seen), c.pt.seen)
    decreases Budget(env.table, heap, c.pt.level, c.pt.seen), Size(v), 4, 0
  {
    s' := s;
    match v
    case VArray(es) =>
      if |es| != env.table[t].shape.len {
        err := Some(Crashed(IllTyped));
      } else {
        err, s' := EncodeSeq(env, s, lists, heap, c, ec, t, v, es, |es|, to, ArraySite);
      }
    case _ =>
      err := Some(Crashed(IllTyped));
  }

  /** sliceCoder.encode (codec.go:959-971) */
  method EncodeSlice(env: Env, s: Caches, ghost lists: FieldLists, heap: Heap, c: CodecState, ec: Codec, t: TypeId,
                     v: Value, to: TagOptions)
    returns (err: Option<Failure>, s': Caches)
    requires Valid(env.table, s) && Agrees(env.table, s.fields, lists) && t in env.table && env.table[t].shape.Slice?
    requires Fits(env.table, s.codecs.Keys, s.fields.Keys, ec, env.table[t].shape.elem)
    modifies c, c.pt
    ensures Later(env.table, s, s', lists)
    ensures Sound(EncSlice(env, lists, heap, t, v, to, old(c.pt.level), old(c.pt.seen)),
                  err, old(c.unread), c.unread, old(c.pt.level), c.pt.level, old(c.pt.seen), c.pt.seen)
    decreases Budget(env.table, heap, c.pt.level, c.pt.seen), Size(v), 4, 0
  {
    s' := s;
    match v
    case VSlice(_, n, backing) =>
      if n > |backing| {
        err := Some(Crashed(IllTyped));
      } else {
        err, s' := EncodeSeq(env, s, lists, heap, c, ec, t, v, backing, n, to, SliceSite);
      }
    case _ =>
      err := Some(Crashed(IllTyped));
  }

  lemma EncSeqUnfold(env: Env, lists: FieldLists, heap: Heap, t: TypeId, v: Value, es: seq<Value>, n: nat,
                     to: TagOptions, site: Site, level: nat, seen: set<(TypeId, Addr)>)
    requires WellFormed(env.table) && t in env.table && (env.table[t].shape.Array? || env.table[t].shape.Slice?)
    requires n <= |es| && Size(v) == 1 + SizeAll(es)
    ensures env.table[t].shape.elem in env.table
    ensures var r := EncElems(env, lists, heap, env.table[t].shape.elem, es, n, to, 0, level, seen);
      EncSeq(env, lists, heap, t, v, es, n, to, site, level, seen) == (if r.Failed? then r else CheckLength(site, r.value, to))
  {
    ElemType(env.table, t);
  }

  /** The elements and then the length check, shared by arrayCoder.encode and sliceCoder.encode. */
  method EncodeSeq(env: Env, s: Caches, ghost lists: FieldLists, heap: Heap, c: CodecState, ec: Codec, t: TypeId,
                   v: Value, es: seq<Value>, n: nat, to: TagOptions, site: Site)
    returns (err: Option<Failure>, s': Caches)
    requires Valid(env.table, s) && Agrees(env.table, s.fields, lists)
    requires t in env.table && (env.table[t].shape.Array? || env.table[t].shape.Slice?)
    requires Fits(env.table, s.codecs.Keys, s.fields.Keys, ec, env.table[t].shape.elem)
    requires n <= |es| && Size(v) == 1 + SizeAll(es)
    modifies c, c.pt
    ensures Later(env.table, s, s', lists)
    ensures Sound(EncSeq(env, lists, heap, t, v, es, n, to, site, old(c.pt.level), old(c.pt.seen)),
                  err, old(c.unread), c.unread, old(c.pt.level), c.pt.level, old(c.pt.seen), c.pt.seen)
    decreases Budget(env.table, heap, c.pt.level, c.pt.seen), Size(v), 3, 0
  {
    EncSeqUnfold(env, lists, heap, t, v, es, n, to, site, c.pt.level, c.pt.seen);
    var pl := c.Len();
    err, s' := EncodeElems(env, s, lists, heap, c, ec, env.table[t].shape.elem, es, n, to);
    if err.Some? {
      return;
    }
    var length := c.Len() - pl;
    if to.length != 0 && length != to.length {
      err := Some(Raised(LengthErr(site, length, to.length)));
    }
  }

  /** The outcome `r` with the bytes `b` in front of its own. */
  function Prefixed(b: seq<Byte>, r: Outcome<seq<Byte>>): Outcome<seq<Byte>>
  {
    if r.Done? then Done(b + r.value) else r
  }

  lemma PrefixedEmpty(r: Outcome<seq<Byte>>)
    ensures Prefixed([], r) == r
  {
    if r.Done? {
      assert [] + r.value == r.value;
    }
  }

  /** One more element encoded: its bytes move from the outcome to the prefix. */
  lemma ElemsStep(env: Env, lists: FieldLists, heap: Heap, e: TypeId, es: seq<Value>, n: nat, to: TagOptions,
                  i: nat, level: nat, seen: set<(TypeId, Addr)>, acc: seq<Byte>)
    requires WellFormed(env.table) && e in env.table && i < n <= |es|
    ensures var r := Enc(env, lists, heap, e, es[i], to, level, seen);
      if r.Done? then Prefixed(acc, EncElems(env, lists, heap, e, es, n, to, i, level, seen))
                      == Prefixed(acc + r.value, EncElems(env, lists, heap, e, es, n, to, i + 1, level, seen))
      else EncElems(env, lists, heap, e, es, n, to, i, level, seen) == r
  {
    var r := Enc(env, lists, heap, e, es[i], to, level, seen);
    if r.Done? {
      var rest := EncElems(env, lists, heap, e, es, n, to, i + 1, level, seen);
      if rest.Done? {
        assert acc + (r.value + rest.value) == acc + r.value + rest.value;
      }
    }
  }

  lemma ElemsEnd(env: Env, lists: FieldLists, heap: Heap, e: TypeId, es: seq<Value>, n: nat, to: TagOptions,
                 level: nat, seen: set<(TypeId, Addr)>, acc: seq<Byte>)
    requires WellFormed(env.table) && e in env.table && n <= |es|
    ensures Prefixed(acc, EncElems(env, lists, heap, e, es, n, to, n, level, seen)) == Done(acc)
  {
    assert acc + [] == acc;
  }

  /** The element loop of arrayCoder.encode and sliceCoder.encode (codec.go:904-906, 962-964). */
  method EncodeElems(env: Env, s: Caches, ghost lists: FieldLists, heap: Heap, c: CodecState, ec: Codec, e: TypeId,
                     es: seq<Value>, n: nat, to: TagOptions)
    returns (err: Option<Failure>, s': Caches)
    requires Valid(env.table, s) && Agrees(env.table, s.fields, lists)
    requires e in env.table && Fits(env.table, s.codecs.Keys, s.fields.Keys, ec, e) && n <= |es|
    modifies c, c.pt
    ensures Later(env.table, s, s', lists)
    ensures Sound(EncElems(env, lists, heap, e, es, n, to, 0, old(c.pt.level), old(c.pt.seen)),
                  err, old(c.unread), c.unread, old(c.pt.level), c.pt.level, old(c.pt.seen), c.pt.seen)
    decreases Budget(env.table, heap, c.pt.level, c.pt.seen), 1 + SizeAll(es), 0, 0
  {
    ghost var level, seen := c.pt.level, c.pt.seen;
    ghost var acc: seq<Byte> := [];
    s' := s;
    err := None;
    PrefixedEmpty(EncElems(env, lists, heap, e, es, n, to, 0, level, seen));
    for i := 0 to n
      invariant Later(env.table, s, s', lists) && err.None?
      invariant c.unread == old(c.unread) + acc && c.pt.level == level && c.pt.seen == seen
      invariant EncElems(env, lists, heap, e, es, n, to, 0, level, seen)
             == Prefixed(acc, EncElems(env, lists, heap, e, es, n, to, i, level, seen))
    {
      FitsGrow(env.table, s.codecs.Keys, s.fields.Keys, s'.codecs.Keys, s'.fields.Keys, ec, e);
      SizeAllElement(es, i);
      ElemsStep(env, lists, heap, e, es, n, to, i, level, seen, acc);
      var s1;
      err, s1 := Encode(env, s', lists, heap, c, ec, e, es[i], to);
      LaterTrans(env.table, s, s', s1, lists);
      s' := s1;
      if err.Some? {
        return;
      }
      AppendAssoc(old(c.unread), acc, Enc(env, lists, heap, e, es[i], to, level, seen).value);
      acc := acc + Enc(env, lists, heap, e, es[i], to, level, seen).value;
    }
    ElemsEnd(env, lists, heap, e, es, n, to, level, seen, acc);
  }

  /** ptrCoder.encode (codec.go:1025-1041): nothing for a nil pointer, else the pointee. */
  method EncodePtr(env: Env, s: Caches, ghost lists: FieldLists, heap: Heap, c: CodecState, ec: Codec, t: TypeId,
                   v: Value, to: TagOptions)
    returns (err: Option<Failure>, s': Caches)
    requires Valid(env.table, s) && Agrees(env.table, s.fields, lists) && t in env.table && env.table[t].shape.Ptr?
    requires Fits(env.table, s.codecs.Keys, s.fields.Keys, ec, env.table[t].shape.elem)
    modifies c, c.pt
    ensures Later(env.table, s, s', lists)
    ensures Sound(EncPtr(env, lists, heap, t, v, to, old(c.pt.level), old(c.pt.seen)),
                  err, old(c.unread), c.unread, old(c.pt.level), c.pt.level, old(c.pt.seen), c.pt.seen)
    decreases Budget(env.table, heap, c.pt.level, c.pt.seen), Size(v), 4, 0
  {
    s' := s;
    err := None;
    match v
    case VPtr(None) =>
      assert c.unread == old(c.unread) + [];
    case VPtr(Some(a)) =>
      if a !in heap {
        err := Some(Crashed(IllTyped));
      } else {
        err, s' := EncodePointee(env, s, lists, heap, c, ec, t, a, to);
      }
    case _ =>
      err := Some(Crashed(IllTyped));
  }

  /**
   * The pointer track after the pointee: the entry value when the pointee
   * was encoded, once the recorded pair is removed and the level lowered.
   */
  lemma PointeeSound(env: Env, lists: FieldLists, heap: Heap, t: TypeId, a: Addr, to: TagOptions,
                     level: nat, seen: set<(TypeId, Addr)>, recorded: bool, err: Option<Failure>,
                     before: seq<Byte>, after: seq<Byte>, level0: nat, seen0: set<(TypeId, Addr)>,
                     level1: nat, seen1: set<(TypeId, Addr)>,
                     level2: nat, seen2: set<(TypeId, Addr)>)
    requires WellFormed(env.table) && t in env.table && env.table[t].shape.Ptr? && a in heap
    requires env.table[t].shape.elem in env.table
    requires recorded == (level + 1 > CycleCheckDepth) && (recorded ==> (t, a) !in seen)
    requires level0 == level + 1 && seen0 == Deeper(level, seen, t, a)
    requires Sound(Enc(env, lists, heap, env.table[t].shape.elem, heap[a], to, level0, seen0),
                   err, before, after, level0, level1, seen0, seen1)
    requires err.None? ==> level2 + 1 == level1
    requires seen2 == if recorded then seen1 - {(t, a)} else seen1
    ensures Sound(EncPointee(env, lists, heap, t, a, to, level, seen), err, before, after, level, level2, seen, seen2)
  {
    if recorded {
      assert seen + {(t, a)} - {(t, a)} == seen;
    }
  }

  /**
   * The body of ptrCoder.encode past the nil check (codec.go:1029-1040): one
   * level deeper, past depth 1000 a check against and an entry in the seen
   * set, removed again on the way out; the level is restored only on success.
   */
  method EncodePointee(env: Env, s: Caches, ghost lists: FieldLists, heap: Heap, c: CodecState, ec: Codec, t: TypeId,
                       a: Addr, to: TagOptions)
    returns (err: Option<Failure>, s': Caches)
    requires Valid(env.table, s) && Agrees(env.table, s.fields, lists) && t in env.table && env.table[t].shape.Ptr?
    requires Fits(env.table, s.codecs.Keys, s.fields.Keys, ec, env.table[t].shape.elem) && a in heap
    modifies c, c.pt
    ensures Later(env.table, s, s', lists)
    ensures Sound(EncPointee(env, lists, heap, t, a, to, old(c.pt.level), old(c.pt.seen)),
                  err, old(c.unread), c.unread, old(c.pt.level), c.pt.level, old(c.pt.seen), c.pt.seen)
    decreases Budget(env.table, heap, c.pt.level, c.pt.seen), 1, 3, 0
  {
    ghost var level, seen := c.pt.level, c.pt.seen;
    ElemType(env.table, t);
    s' := s;
    c.pt.level := c.pt.level + 1;
    var recorded := false;
    if c.pt.level > CycleCheckDepth {
      if (t, a) in c.pt.seen {
        return Some(Raised(UnsupportedValueError(env.table[t].name))), s;
      }
      c.pt.seen := c.pt.seen + {(t, a)};
      recorded := true;
    }
    BudgetDrops(env.table, heap, level, seen, t, a);
    ghost var level0, seen0 := c.pt.level, c.pt.seen;
    err, s' := Encode(env, s, lists, heap, c, ec, env.table[t].shape.elem, heap[a], to);
    ghost var after, level1, seen1 := c.unread, c.pt.level, c.pt.seen;
    if recorded {
      c.pt.seen := c.pt.seen - {(t, a)};
    }
    if err.None? {
      c.pt.level := c.pt.level - 1;
    }
    PointeeSound(env, lists, heap, t, a, to, level, seen, recorded, err, old(c.unread), after,
                 level0, seen0, level1, seen1, c.pt.level, c.pt.seen);
  }
}
