/**
 * The `decode` methods of the codecs (codec.go:195-198, 367-521, 653-687,
 * 703-723, 840-886, 915-1009, 1043-1060), reading from a `CodecState` and
 * dispatching on the codec `typeCodec` built. Each is proved to do what
 * `DecSpec` says for the codec's type, or to fail as it says.
 *
 * The destination's current value goes in and its new value comes out; the
 * memory goes in and out the same way. The caches stay consistent whatever
 * happens, since Go keeps them across calls; after a failure nothing more
 * is said of the buffer, the memory or the lengths stored in the field
 * lists.
 */
module Decoder {
  import opened Wrappers
  import opened Binary
  import opened Types
  import opened Tags
  import opened StructFields
  import opened Outcomes
  import opened Cursor
  import opened Codecs
  import opened Registry
  import opened EncSpec
  import opened DecSpec
  import opened Encoder

  /**
   * A decode call whose specified outcome is `r` reported `err` and left the
   * result `x'`, the buffer `unread'`, the memory `mem'`, the field cache
   * `fields'` and the lists `lists'`, and moved the pointer track from
   * (`level`, `seen`) to (`level'`, `seen'`): on success all of these are
   * what `r` says, the lists are those of the field cache and the track is
   * back where it was; a failure is reported as is.
   */
  ghost predicate DSound<T>(table: TypeTable, r: Outcome<(T, DState)>, err: Option<Failure>, x': T,
                            unread': seq<Byte>, mem': Memory, fields': map<TypeId, seq<Field>>, lists': FieldLists,
                            level: nat, level': nat, seen: set<(TypeId, Addr)>, seen': set<(TypeId, Addr)>)
  {
    match r
    case Done(d) =>
      err.None? && x' == d.0 && d.1 == DState(unread', mem', lists') && Agrees(table, fields', lists') &&
      level' == level && seen' == seen
    case Failed(f) => err == Some(f)
  }

  /** Outcome `r` of a decode over a region, with the bytes after the region, `rest`, left unread. */
  ghost function Within(r: Outcome<Decoded>, rest: seq<Byte>): Outcome<Decoded>
  {
    match r
    case Done(d) => Done((d.0, d.1.(unread := rest)))
    case Failed(f) => Failed(f)
  }

  /** A decode that did what `r` says over a region did what `Within(r, rest)` says once `rest` is left unread. */
  lemma WithinSound(table: TypeTable, r: Outcome<Decoded>, rest: seq<Byte>, err: Option<Failure>, x': Value,
                    sub: seq<Byte>, mem': Memory, fields': map<TypeId, seq<Field>>, lists': FieldLists,
                    level: nat, level': nat, seen: set<(TypeId, Addr)>, seen': set<(TypeId, Addr)>)
    requires DSound(table, r, err, x', sub, mem', fields', lists', level, level', seen, seen')
    ensures DSound(table, Within(r, rest), err, x', rest, mem', fields', lists', level, level', seen, seen')
  {
  }

  /** `DSound` for a call whose outcome is a state only. */
  ghost predicate StateSound(table: TypeTable, r: Outcome<DState>, err: Option<Failure>,
                             unread': seq<Byte>, mem': Memory, fields': map<TypeId, seq<Field>>, lists': FieldLists,
                             level: nat, level': nat, seen: set<(TypeId, Addr)>, seen': set<(TypeId, Addr)>)
  {
    match r
    case Done(st) =>
      err.None? && st == DState(unread', mem', lists') && Agrees(table, fields', lists') &&
      level' == level && seen' == seen
    case Failed(f) => err == Some(f)
  }

  /** What a decoder may be called in: consistent caches and the lists they hold. */
  ghost predicate Ready(table: TypeTable, s: Caches, lists: FieldLists)
  {
    Valid(table, s) && Agrees(table, s.fields, lists)
  }

  /**
   * The caches `s'` a decode call left behind, whether it succeeded or not:
   * consistent, with no entry dropped, and each cached field list changed
   * at most in its `length` options.
   */
  ghost predicate Stays(table: TypeTable, s: Caches, s': Caches)
  {
    Valid(table, s') && s.codecs.Keys <= s'.codecs.Keys && s.fields.Keys <= s'.fields.Keys &&
    forall u :: u in s.fields ==> SameCodecs(s.fields[u], s'.fields[u])
  }

  lemma StaysTrans(table: TypeTable, s1: Caches, s2: Caches, s3: Caches)
    requires Stays(table, s1, s2) && Stays(table, s2, s3)
    ensures Stays(table, s1, s3)
  {
  }

  /** Caches left as they were stay. */
  lemma StaysSelf(table: TypeTable, s: Caches, lists: FieldLists)
    requires Ready(table, s, lists)
    ensures Stays(table, s, s) && Agrees(table, s.fields, lists)
  {
  }

  /** Caches that only grew, as `typeCodec` leaves them, stay. */
  lemma GrowsStays(table: TypeTable, s: Caches, s': Caches)
    requires Valid(table, s') && Grows(s.codecs, s.fields, s'.codecs, s'.fields)
    ensures Stays(table, s, s')
  {
  }

  /** `decode` of the codec `codec` built for type `t`. */
  method Decode(env: Env, s: Caches, ghost lists: FieldLists, c: CodecState, codec: Codec, t: TypeId, v: Value,
                to: TagOptions, settable: bool, fuel: nat, mem: Memory)
    returns (err: Option<Failure>, v': Value, mem': Memory, s': Caches, ghost lists': FieldLists)
    requires Ready(env.table, s, lists) && Fits(env.table, s.codecs.Keys, s.fields.Keys, codec, t)
    modifies c, c.pt
    ensures Stays(env.table, s, s')
    ensures DSound(env.table, Dec(env, fuel, t, v, to, settable, DState(old(c.unread), mem, lists), old(c.pt.level), old(c.pt.seen)),
                   err, v', c.unread, mem', s'.fields, lists', old(c.pt.level), c.pt.level, old(c.pt.seen), c.pt.seen)
    decreases fuel, 1
  {
    if fuel == 0 {
      return Some(Crashed(OutOfFuel)), v, mem, s, lists;
    }
    var kc := codec;
    if codec.RecursiveWrap? {
      // recursiveWrapCoder.decode (codec.go:195-198)
      WrapTarget(env.table, s, codec, t);
      kc := s.codecs[t];
    }
    err, v', mem', s', lists' := DecodeKind(env, s, lists, c, kc, t, v, to, settable, fuel - 1, mem);
  }

  /** `decode` of a codec other than the placeholder. */
  method DecodeKind(env: Env, s: Caches, ghost lists: FieldLists, c: CodecState, codec: Codec, t: TypeId, v: Value,
                    to: TagOptions, settable: bool, fuel: nat, mem: Memory)
    returns (err: Option<Failure>, v': Value, mem': Memory, s': Caches, ghost lists': FieldLists)
    requires Ready(env.table, s, lists) && Fits(env.table, s.codecs.Keys, s.fields.Keys, codec, t) && !codec.RecursiveWrap?
    modifies c, c.pt
    ensures Stays(env.table, s, s')
    ensures DSound(env.table, DecKind(env, fuel, t, v, to, settable, DState(old(c.unread), mem, lists), old(c.pt.level), old(c.pt.seen)),
                   err, v', c.unread, mem', s'.fields, lists', old(c.pt.level), c.pt.level, old(c.pt.seen), c.pt.seen)
    decreases fuel, 6
  {
    v', mem', s', lists' := v, mem, s, lists;
    match codec
    case InterfaceCoder | StructCoder(_) =>
      err, v', mem', s', lists' := DecodeComposite(env, s, lists, c, codec, t, v, to, settable, fuel, mem);
    case ArrayCoder(_) | SliceCoder(_) | PtrCoder(_) =>
      err, v', mem', s', lists' := DecodeContainer(env, s, lists, c, codec, t, v, to, settable, fuel, mem);
    case BoolCoder | IntCoder(_) | StringCoder | UnsupportedTypeCoder =>
      ghost var st := DState(c.unread, mem, lists);
      ghost var level, seen := c.pt.level, c.pt.seen;
      StaysSelf(env.table, s, lists);
      assert DecKind(env, fuel, t, v, to, settable, st, level, seen) == DecScalar(env, t, to, settable, st);
      err, v' := DecodeScalar(env, c, codec, t, to, settable, mem, s.fields, lists);
      ScalarSound(env.table, DecScalar(env, t, to, settable, st), err, v', c.unread, mem, s.fields, lists, level, seen);
  }

  /** A decoder that never touches the pointer track leaves it where it was. */
  lemma ScalarSound(table: TypeTable, r: Outcome<Decoded>, err: Option<Failure>, v': Value, unread': seq<Byte>,
                    mem: Memory, fields: map<TypeId, seq<Field>>, lists: FieldLists, level: nat, seen: set<(TypeId, Addr)>)
    requires DSound(table, r, err, v', unread', mem, fields, lists, 0, 0, {}, {})
    ensures DSound(table, r, err, v', unread', mem, fields, lists, level, level, seen, seen)
  {
  }

  /** `decode` of the interface and struct codecs. */
  method DecodeComposite(env: Env, s: Caches, ghost lists: FieldLists, c: CodecState, codec: Codec, t: TypeId, v: Value,
                         to: TagOptions, settable: bool, fuel: nat, mem: Memory)
    returns (err: Option<Failure>, v': Value, mem': Memory, s': Caches, ghost lists': FieldLists)
    requires Ready(env.table, s, lists) && Fits(env.table, s.codecs.Keys, s.fields.Keys, codec, t)
    requires codec.InterfaceCoder? || codec.StructCoder?
    modifies c, c.pt
    ensures Stays(env.table, s, s')
    ensures DSound(env.table, DecKind(env, fuel, t, v, to, settable, DState(old(c.unread), mem, lists), old(c.pt.level), old(c.pt.seen)),
                   err, v', c.unread, mem', s'.fields, lists', old(c.pt.level), c.pt.level, old(c.pt.seen), c.pt.seen)
    decreases fuel, 5
  {
    ghost var st := DState(c.unread, mem, lists);
    ghost var level, seen := c.pt.level, c.pt.seen;
    if codec.InterfaceCoder? {
      assert DecKind(env, fuel, t, v, to, settable, st, level, seen) == DecIface(env, fuel, v, to, st, level, seen);
      err, v', mem', s', lists' := DecodeInterface(env, s, lists, c, v, to, fuel, mem);
    } else {
      assert DecKind(env, fuel, t, v, to, settable, st, level, seen) == DecStruct(env, fuel, t, v, settable, st, level, seen);
      err, v', mem', s', lists' := DecodeStruct(env, s, lists, c, t, v, settable, fuel, mem);
    }
  }

  /** `decode` of the codecs of the array, slice and pointer types. */
  method DecodeContainer(env: Env, s: Caches, ghost lists: FieldLists, c: CodecState, codec: Codec, t: TypeId, v: Value,
                         to: TagOptions, settable: bool, fuel: nat, mem: Memory)
    returns (err: Option<Failure>, v': Value, mem': Memory, s': Caches, ghost lists': FieldLists)
    requires Ready(env.table, s, lists) && Fits(env.table, s.codecs.Keys, s.fields.Keys, codec, t)
    requires codec.ArrayCoder? || codec.SliceCoder? || codec.PtrCoder?
    modifies c, c.pt
    ensures Stays(env.table, s, s')
    ensures DSound(env.table, DecKind(env, fuel, t, v, to, settable, DState(old(c.unread), mem, lists), old(c.pt.level), old(c.pt.seen)),
                   err, v', c.unread, mem', s'.fields, lists', old(c.pt.level), c.pt.level, old(c.pt.seen), c.pt.seen)
    decreases fuel, 5
  {
    ghost var st := DState(c.unread, mem, lists);
    ghost var level, seen := c.pt.level, c.pt.seen;
    match codec
    case ArrayCoder(ec) =>
      assert DecKind(env, fuel, t, v, to, settable, st, level, seen) == DecArray(env, fuel, t, v, to, settable, st, level, seen);
      err, v', mem', s', lists' := DecodeArray(env, s, lists, c, ec, t, v, to, settable, fuel, mem);
    case SliceCoder(ec) =>
      assert DecKind(env, fuel, t, v, to, settable, st, level, seen) == DecSlice(env, fuel, t, v, to, settable, st, level, seen);
      err, v', mem', s', lists' := DecodeSlice(env, s, lists, c, ec, t, v, to, settable, fuel, mem);
    case PtrCoder(ec) =>
      assert DecKind(env, fuel, t, v, to, settable, st, level, seen) == DecPtr(env, fuel, t, v, to, settable, st, level, seen);
      err, v', mem', s', lists' := DecodePtr(env, s, lists, c, ec, t, v, to, settable, fuel, mem);
  }

  /** boolCoder, the integer coders, stringCoder and unsupportedTypeCoder. */
  method DecodeScalar(env: Env, c: CodecState, codec: Codec, t: TypeId, to: TagOptions, settable: bool,
                      ghost mem: Memory, ghost fields: map<TypeId, seq<Field>>, ghost lists: FieldLists)
    returns (err: Option<Failure>, v': Value)
    requires Fits(env.table, {}, {}, codec, t) && Agrees(env.table, fields, lists)
    requires codec.BoolCoder? || codec.IntCoder? || codec.StringCoder? || codec.UnsupportedTypeCoder?
    modifies c
    ensures DSound(env.table, DecScalar(env, t, to, settable, DState(old(c.unread), mem, lists)),
                   err, v', c.unread, mem, fields, lists, 0, 0, {}, {})
  {
    err, v' := None, VOpaque;
    match codec
    case BoolCoder =>
      // boolCoder.decode (codec.go:367-373)
      var b, ok := c.ReadByte();
      if !ok {
        return Some(Raised(DataLengthErr)), v';
      }
      if !settable {
        return Some(Crashed(ReflectPanic)), v';
      }
      v' := VBool(b != 0);
    case IntCoder(k) =>
      // the integer coders (codec.go:385-521): one byte by ReadByte, wider ones by Read, then sign extension
      var p: seq<Byte>;
      var ok: bool;
      if k.Width() == 1 {
        var b;
        b, ok := c.ReadByte();
        p := [b];
      } else {
        p, ok := c.Read(k.Width());
      }
      if !ok {
        return Some(Raised(DataLengthErr)), v';
      }
      if !settable {
        return Some(Crashed(ReflectPanic)), v';
      }
      v' := if k.Signed() then VInt(DecodeInt(k, p)) else VUint(DecodeInt(k, p));
    case StringCoder =>
      err, v' := DecodeString(env, c, t, to, settable, mem, fields, lists);
    case UnsupportedTypeCoder =>
      // unsupportedTypeCoder.decode (codec.go:721-723)
      err := Some(Raised(UnsupportedTypeError(env.table[t].name)));
  }

  /**
   * The bytes the string, array and slice decoders work on
   * (codec.go:654-659, 916-921, 974-979): `to.length` bytes read into a new
   * buffer, or the unread tail, left unread.
   */
  method ReadRegion(c: CodecState, to: TagOptions) returns (err: Option<Failure>, b: seq<Byte>)
    modifies c
    ensures match Region(old(c.unread), to)
      case Done(p) => err.None? && b == p.0 && c.unread == p.1
      case Failed(f) => err == Some(f)
  {
    err, b := None, [];
    if to.length != 0 {
      if to.length < 0 || to.length > MaxAlloc {
        return Some(Crashed(MakeSliceLen)), b;
      }
      var ok;
      b, ok := c.Read(to.length);
      if !ok {
        err := Some(Raised(DataLengthErr));
      }
    } else {
      b := c.Bytes();
    }
  }

  /** stringCoder.decode (codec.go:653-687) */
  method DecodeString(env: Env, c: CodecState, t: TypeId, to: TagOptions, settable: bool,
                      ghost mem: Memory, ghost fields: map<TypeId, seq<Field>>, ghost lists: FieldLists)
    returns (err: Option<Failure>, v': Value)
    requires t in env.table && env.table[t].shape.String? && Agrees(env.table, fields, lists)
    modifies c
    ensures DSound(env.table, DecScalar(env, t, to, settable, DState(old(c.unread), mem, lists)),
                   err, v', c.unread, mem, fields, lists, 0, 0, {}, {})
  {
    v' := VOpaque;
    var b;
    err, b := ReadRegion(c, to);
    if err.Some? {
      return;
    }
    var str := b;
    if to.bcd != 0 {
      var sb := env.tx.bcdDecode(b);
      if sb.None? {
        return Some(Raised(DecodeBCDErr)), v';
      }
      str := sb.value;
    } else {
      var decode: Option<seq<Byte> -> Option<seq<Byte>>> := None;
      if to.gbk {
        decode := Some(env.tx.gbkDecode);
      }
      if to.gbk18030 {
        decode := Some(env.tx.gb18030Decode);
      }
      if decode.Some? {
        var sb := decode.value(b);
        if sb.None? {
          return Some(Raised(DecodeGBKErr)), v';
        }
        str := sb.value;
      }
    }
    if !settable {
      return Some(Crashed(ReflectPanic)), v';
    }
    v' := VString(str);
  }

  /**
   * interfaceCoder.decode (codec.go:703-709): the dynamic value, with the
   * codec of its dynamic type, as a value that cannot be set.
   */
  method DecodeInterface(env: Env, s: Caches, ghost lists: FieldLists, c: CodecState, v: Value,
                         to: TagOptions, fuel: nat, mem: Memory)
    returns (err: Option<Failure>, v': Value, mem': Memory, s': Caches, ghost lists': FieldLists)
    requires Ready(env.table, s, lists)
    modifies c, c.pt
    ensures Stays(env.table, s, s')
    ensures DSound(env.table, DecIface(env, fuel, v, to, DState(old(c.unread), mem, lists), old(c.pt.level), old(c.pt.seen)),
                   err, v', c.unread, mem', s'.fields, lists', old(c.pt.level), c.pt.level, old(c.pt.seen), c.pt.seen)
    decreases fuel, 2
  {
    v', mem', s', lists' := v, mem, s, lists;
    StaysSelf(env.table, s, lists);
    err := None;
    match v
    case VIface(None) =>
    case VIface(Some(b)) =>
      if b.typ !in env.table {
        err := Some(Crashed(IllTyped));
        return;
      }
      var dc, s1 := TypeCodec(env.table, s, b.typ, {});
      GrowsStays(env.table, s, s1);
      AgreesKept(env.table, s, s1, lists);
      var x;
      err, x, mem', s', lists' := Decode(env, s1, lists, c, dc, b.typ, b.val, to, false, fuel, mem);
      StaysTrans(env.table, s, s1, s');
    case _ =>
      err := Some(Crashed(IllTyped));
  }

  /** Entry `i` of a cached field list in caches that stay from `s0`: it fits, and the lists show it. */
  lemma FieldNow(table: TypeTable, s: Caches, lists: FieldLists, t: TypeId, i: nat)
    requires Ready(table, s, lists) && t in s.fields && i < |s.fields[t]|
    ensures table[t].shape.Struct? && t in lists && lists[t] == Infos(s.fields[t]) && lists[t][i] == s.fields[t][i].info
    ensures s.fields[t][i].info.index < |table[t].shape.fields|
    ensures Fits(table, s.codecs.Keys, s.fields.Keys, s.fields[t][i].codec, table[t].shape.fields[s.fields[t][i].info.index].typ)
  {
    assert FieldsFit(table, s.codecs.Keys, s.fields.Keys, t, s.fields[t]);
  }

  /** structCoder.decode (codec.go:840-886): pass 1 stores the lengths, pass 2 decodes the fields. */
  method DecodeStruct(env: Env, s: Caches, ghost lists: FieldLists, c: CodecState, t: TypeId, v: Value,
                      settable: bool, fuel: nat, mem: Memory)
    returns (err: Option<Failure>, v': Value, mem': Memory, s': Caches, ghost lists': FieldLists)
    requires Ready(env.table, s, lists) && t in s.fields && env.table[t].shape.Struct?
    modifies c, c.pt
    ensures Stays(env.table, s, s')
    ensures DSound(env.table, DecStruct(env, fuel, t, v, settable, DState(old(c.unread), mem, lists), old(c.pt.level), old(c.pt.seen)),
                   err, v', c.unread, mem', s'.fields, lists', old(c.pt.level), c.pt.level, old(c.pt.seen), c.pt.seen)
    decreases fuel, 4
  {
    v', mem', s', lists' := v, mem, s, lists;
    StructListOf(env.table, s, lists, t);
    if !v.VStruct? || |v.fields| != |env.table[t].shape.fields| {
      err := Some(Crashed(IllTyped));
      return;
    }
    var s1;
    err, s1 := StoreLengths(env.table, s, t, v.fields);
    s' := s1;
    if err.Some? {
      return;
    }
    ghost var lists1 := lists[t := Infos(s1.fields[t])];
    LengthsAgree(env.table, s, s1, lists, t);
    var vals;
    err, vals, mem', s', lists' := DecodeFields(env, s1, lists1, c, t, v.fields, settable, fuel, mem);
    StaysTrans(env.table, s, s1, s');
    v' := VStruct(vals);
  }

  /** Storing lengths in one cached list keeps the caches consistent and the lists in step. */
  lemma LengthsAgree(table: TypeTable, s: Caches, s1: Caches, lists: FieldLists, t: TypeId)
    requires Ready(table, s, lists) && t in s.fields && Valid(table, s1)
    requires t in s1.fields && s1.fields == s.fields[t := s1.fields[t]]
    requires SameButLengths(Infos(s.fields[t]), Infos(s1.fields[t]))
    ensures Ready(table, s1, lists[t := Infos(s1.fields[t])])
  {
    var lists1 := lists[t := Infos(s1.fields[t])];
    forall u | u in table && table[u].shape.Struct?
      ensures u in lists1 && lists1[u] == (if u in s1.fields then Infos(s1.fields[u]) else FieldInfos(table, u))
    {
    }
  }

  /** A cached list with only its `length` options changed keeps the caches consistent. */
  lemma SameCodecsValid(table: TypeTable, s: Caches, t: TypeId, list: seq<Field>)
    requires Valid(table, s) && t in s.fields && SameCodecs(s.fields[t], list)
    ensures Valid(table, s.(fields := s.fields[t := list]))
  {
    var s' := s.(fields := s.fields[t := list]);
    assert s'.fields.Keys == s.fields.Keys;
    assert FieldsFit(table, s.codecs.Keys, s.fields.Keys, t, s.fields[t]);
    assert forall i :: 0 <= i < |list| ==> list[i].info.index == s.fields[t][i].info.index;
  }

  /** The list with entry `ri`'s length set: its infos are `SetLength` of the infos. */
  lemma InfosSetLength(list: seq<Field>, ri: nat, n: int)
    requires ri < |list|
    ensures var f := Field(list[ri].info.(opts := list[ri].info.opts.(length := n)), list[ri].codec);
      Infos(list[ri := f]) == SetLength(Infos(list), ri, n) && SameCodecs(list, list[ri := f])
  {
  }

  /**
   * The first loop of structCoder.decode (codec.go:842-879): for each field
   * with a `lengthref`, the holder's current value, as an int, stored as the
   * `length` of the entry `findref` returns, in the cached list itself.
   */
  method StoreLengths(table: TypeTable, s: Caches, t: TypeId, vals: seq<Value>) returns (err: Option<Failure>, s': Caches)
    requires Valid(table, s) && t in s.fields && table[t].shape.Struct? && |vals| == |table[t].shape.fields|
    ensures Stays(table, s, s') && t in s'.fields && s'.fields == s.fields[t := s'.fields[t]]
    ensures SameButLengths(Infos(s.fields[t]), Infos(s'.fields[t]))
    ensures match Pass1(table, t, vals, Infos(s.fields[t]), 0)
      case Done(l) => err.None? && Infos(s'.fields[t]) == l
      case Failed(f) => err == Some(f)
  {
    s', err := s, None;
    assert s.fields[t := s.fields[t]] == s.fields;
    for i := 0 to |s.fields[t]|
      invariant Storing(table, s, t, vals, s', i) && err.None?
    {
      var list;
      err, list := StoreLength(table, s', t, vals, i);
      StoringStep(table, s, t, vals, s', i, err, list);
      if err.Some? {
        StoringStays(table, s, t, vals, s', i);
        return;
      }
      s' := s.(fields := s.fields[t := list]);
    }
    StoringStays(table, s, t, vals, s', |s.fields[t]|);
  }

  /** The invariant of that loop: only `t`'s list changed, and what remains of pass 1 is what it was. */
  ghost predicate Storing(table: TypeTable, s: Caches, t: TypeId, vals: seq<Value>, s': Caches, i: nat)
  {
    Valid(table, s) && t in s.fields && table[t].shape.Struct? && |vals| == |table[t].shape.fields| &&
    t in s'.fields && SameCodecs(s.fields[t], s'.fields[t]) && s' == s.(fields := s.fields[t := s'.fields[t]]) &&
    Valid(table, s') && i <= |s.fields[t]| &&
    Pass1(table, t, vals, Infos(s.fields[t]), 0) == Pass1(table, t, vals, Infos(s'.fields[t]), i)
  }

  /** One pass of that loop keeps its invariant, or ends pass 1 with the error. */
  lemma StoringStep(table: TypeTable, s: Caches, t: TypeId, vals: seq<Value>, s': Caches, i: nat,
                    err: Option<Failure>, list: seq<Field>)
    requires Storing(table, s, t, vals, s', i) && i < |s.fields[t]|
    requires SameCodecs(s'.fields[t], list)
    requires match Pass1Entry(table, t, vals, Infos(s'.fields[t]), i)
      case Done(l) => err.None? && Infos(list) == l
      case Failed(f) => err == Some(f)
    ensures err.None? ==> Storing(table, s, t, vals, s.(fields := s.fields[t := list]), i + 1)
    ensures err.Some? ==> Pass1(table, t, vals, Infos(s.fields[t]), 0) == Failed(err.value)
  {
    if err.None? {
      SameCodecsTrans(s.fields[t], s'.fields[t], list);
      SameCodecsValid(table, s, t, list);
    }
  }

  /** What the invariant of that loop says of the caches. */
  lemma StoringStays(table: TypeTable, s: Caches, t: TypeId, vals: seq<Value>, s': Caches, i: nat)
    requires Storing(table, s, t, vals, s', i)
    ensures Stays(table, s, s') && t in s'.fields && s'.fields == s.fields[t := s'.fields[t]]
    ensures SameButLengths(Infos(s.fields[t]), Infos(s'.fields[t]))
    ensures i == |s.fields[t]| ==> Pass1(table, t, vals, Infos(s.fields[t]), 0) == Done(Infos(s'.fields[t]))
  {
  }

  lemma SameCodecsTrans(a: seq<Field>, b: seq<Field>, c: seq<Field>)
    requires SameCodecs(a, b) && SameCodecs(b, c)
    ensures SameCodecs(a, c)
  {
  }

  /** One pass of that loop, on entry `i` of the cached list of `t`. */
  method StoreLength(table: TypeTable, s: Caches, t: TypeId, vals: seq<Value>, i: nat) returns (err: Option<Failure>, list: seq<Field>)
    requires Valid(table, s) && t in s.fields && table[t].shape.Struct? && |vals| == |table[t].shape.fields|
    requires i < |s.fields[t]|
    ensures SameCodecs(s.fields[t], list)
    ensures match Pass1Entry(table, t, vals, Infos(s.fields[t]), i)
      case Done(l) => err.None? && Infos(list) == l
      case Failed(f) => err == Some(f)
  {
    list := s.fields[t];
    err := None;
    var fs := table[t].shape.fields;
    assert FieldsFit(table, s.codecs.Keys, s.fields.Keys, t, list);
    var f := list[i];
    if f.info.opts.lengthref == "" {
      return;
    }
    var found := FindRef(Infos(list), f.info);
    if found.None? {
      return Some(Raised(LengthrefNotFound(f.info.name))), list;
    }
    var ri := found.value;
    var fv := vals[f.info.index];
    CodecIntKindFits(table, s, f.codec, fs[f.info.index].typ);
    // f.codec.typ(): only the integer kinds give a length
    var k := CodecIntKind(f.codec, s.codecs);
    if k.None? {
      return Some(Raised(LengthrefInvalidKind(f.info.name))), list;
    }
    var n: int;
    if k.value.Signed() {
      if !fv.VInt? {
        return Some(Crashed(IllTyped)), list;
      }
      n := fv.i;
    } else {
      if !fv.VUint? {
        return Some(Crashed(IllTyped)), list;
      }
      n := SignExtend(Truncate(fv.u, 8), 8);
    }
    InfosSetLength(list, ri, n);
    list := list[ri := Field(list[ri].info.(opts := list[ri].info.opts.(length := n)), list[ri].codec)];
  }

  /** The invariant of the second loop: caches that stay, the lists they hold, what remains to decode. */
  ghost predicate Filling(env: Env, s: Caches, t: TypeId, n: nat, s': Caches, lists': FieldLists,
                          level: nat, seen: set<(TypeId, Addr)>, pt: PointerTrack)
    reads pt
  {
    Stays(env.table, s, s') && Ready(env.table, s', lists') && t in s.fields && env.table[t].shape.Struct? &&
    |s.fields[t]| == n && |s'.fields[t]| == n && pt.level == level && pt.seen == seen
  }

  /** The second loop of structCoder.decode (codec.go:881-885): every entry, with its options as they are then. */
  method DecodeFields(env: Env, s: Caches, ghost lists: FieldLists, c: CodecState, t: TypeId, vals: seq<Value>,
                      settable: bool, fuel: nat, mem: Memory)
    returns (err: Option<Failure>, vals': seq<Value>, mem': Memory, s': Caches, ghost lists': FieldLists)
    requires Ready(env.table, s, lists) && t in s.fields && env.table[t].shape.Struct?
    requires |vals| == |env.table[t].shape.fields|
    modifies c, c.pt
    ensures Stays(env.table, s, s')
    ensures DSound(env.table, DecFields(env, fuel, t, vals, settable, 0, |s.fields[t]|, DState(old(c.unread), mem, lists), old(c.pt.level), old(c.pt.seen)),
                   err, vals', c.unread, mem', s'.fields, lists', old(c.pt.level), c.pt.level, old(c.pt.seen), c.pt.seen)
    decreases fuel, 3
  {
    ghost var level, seen := c.pt.level, c.pt.seen;
    var n := |s.fields[t]|;
    ghost var goal := DecFields(env, fuel, t, vals, settable, 0, n, DState(c.unread, mem, lists), level, seen);
    vals', mem', s', lists' := vals, mem, s, lists;
    err := None;
    for i := 0 to n
      invariant Filling(env, s, t, n, s', lists', level, seen, c.pt) && |vals'| == |vals| && err.None?
      invariant goal == DecFields(env, fuel, t, vals', settable, i, n, DState(c.unread, mem', lists'), level, seen)
    {
      ghost var st := DState(c.unread, mem', lists');
      var v1, m1, s1;
      ghost var l1;
      err, v1, m1, s1, l1 := DecodeField(env, s', lists', c, t, vals', settable, i, fuel, mem');
      FieldsNext(env, fuel, t, vals', settable, i, n, st, level, seen, goal,
                 err, v1, c.unread, m1, s1.fields, l1, c.pt.level, c.pt.seen);
      StaysTrans(env.table, s, s', s1);
      s' := s1;
      if err.Some? {
        return;
      }
      vals', mem', lists' := v1, m1, l1;
    }
    FieldsEnd(env, fuel, t, vals', settable, n, DState(c.unread, mem', lists'), level, seen);
  }

  /** A pass of the second loop that fails fails the loop; one that succeeds leaves the rest to do. */
  lemma FieldsNext(env: Env, fuel: nat, t: TypeId, vals: seq<Value>, settable: bool, i: nat, n: nat, st: DState,
                   level: nat, seen: set<(TypeId, Addr)>, goal: Outcome<(seq<Value>, DState)>,
                   err: Option<Failure>, vals': seq<Value>, unread': seq<Byte>, mem': Memory,
                   fields': map<TypeId, seq<Field>>, lists': FieldLists, level': nat, seen': set<(TypeId, Addr)>)
    requires WellFormed(env.table) && t in env.table && env.table[t].shape.Struct? && i < n
    requires goal == DecFields(env, fuel, t, vals, settable, i, n, st, level, seen)
    requires DSound(env.table, DecField(env, fuel, t, vals, settable, i, st, level, seen),
                    err, vals', unread', mem', fields', lists', level, level', seen, seen')
    ensures err.Some? ==> goal.Failed? && err == Some(goal.failure)
    ensures err.None? ==> (level' == level && seen' == seen && Agrees(env.table, fields', lists') &&
      goal == DecFields(env, fuel, t, vals', settable, i + 1, n, DState(unread', mem', lists'), level, seen))
  {
  }

  lemma FieldsEnd(env: Env, fuel: nat, t: TypeId, vals: seq<Value>, settable: bool, n: nat, st: DState,
                  level: nat, seen: set<(TypeId, Addr)>)
    requires WellFormed(env.table) && t in env.table && env.table[t].shape.Struct?
    ensures DecFields(env, fuel, t, vals, settable, n, n, st, level, seen) == Done((vals, st))
  {
  }

  /** One pass of that loop: the field entry `i` of the cached list names. */
  method DecodeField(env: Env, s: Caches, ghost lists: FieldLists, c: CodecState, t: TypeId, vals: seq<Value>,
                     settable: bool, i: nat, fuel: nat, mem: Memory)
    returns (err: Option<Failure>, vals': seq<Value>, mem': Memory, s': Caches, ghost lists': FieldLists)
    requires Ready(env.table, s, lists) && t in s.fields && env.table[t].shape.Struct?
    requires |vals| == |env.table[t].shape.fields| && i < |s.fields[t]|
    modifies c, c.pt
    ensures Stays(env.table, s, s') && |vals'| == |vals|
    ensures DSound(env.table, DecField(env, fuel, t, vals, settable, i, DState(old(c.unread), mem, lists), old(c.pt.level), old(c.pt.seen)),
                   err, vals', c.unread, mem', s'.fields, lists', old(c.pt.level), c.pt.level, old(c.pt.seen), c.pt.seen)
    decreases fuel, 2
  {
    FieldNow(env.table, s, lists, t, i);
    var f := s.fields[t][i];
    var x;
    err, x, mem', s', lists' := Decode(env, s, lists, c, f.codec, env.table[t].shape.fields[f.info.index].typ,
                                       vals[f.info.index], f.info.opts, settable, fuel, mem);
    vals' := vals[f.info.index := x];
  }

  /**
   * arrayCoder.decode (codec.go:915-942): element 0 decoded from a sub-state
   * holding the region until that is used up, then every element set to zero.
   */
  method DecodeArray(env: Env, s: Caches, ghost lists: FieldLists, c: CodecState, ec: Codec, t: TypeId, v: Value,
                     to: TagOptions, settable: bool, fuel: nat, mem: Memory)
    returns (err: Option<Failure>, v': Value, mem': Memory, s': Caches, ghost lists': FieldLists)
    requires Ready(env.table, s, lists) && t in env.table && env.table[t].shape.Array?
    requires Fits(env.table, s.codecs.Keys, s.fields.Keys, ec, env.table[t].shape.elem)
    modifies c, c.pt
    ensures Stays(env.table, s, s')
    ensures DSound(env.table, DecArray(env, fuel, t, v, to, settable, DState(old(c.unread), mem, lists), old(c.pt.level), old(c.pt.seen)),
                   err, v', c.unread, mem', s'.fields, lists', old(c.pt.level), c.pt.level, old(c.pt.seen), c.pt.seen)
    decreases fuel, 4
  {
    v', mem', s', lists' := v, mem, s, lists;
    StaysSelf(env.table, s, lists);
    err := None;
    match v
    case VArray(es) =>
      if |es| != env.table[t].shape.len {
        err := Some(Crashed(IllTyped));
        return;
      }
      ElemType(env.table, t);
      ghost var st := DState(c.unread, mem, lists);
      ghost var level, seen := c.pt.level, c.pt.seen;
      var scc;
      err, scc := SubState(c, to);
      if err.Some? || |es| == 0 {
        return;
      }
      ghost var region := Region(st.unread, to).value;
      ghost var r := ArrayRest(env, fuel, env.table[t].shape.elem, es, to, settable, st.(unread := region.0), level, seen);
      assert DecArray(env, fuel, t, v, to, settable, st, level, seen) == Within(r, region.1);
      err, v', mem', s', lists' := DecodeArrayRest(env, s, lists, scc, ec, env.table[t].shape.elem, es, to, settable, fuel, mem);
      WithinSound(env.table, r, region.1, err, v', scc.unread, mem', s'.fields, lists', level, c.pt.level, seen, c.pt.seen);
    case _ =>
      err := Some(Crashed(IllTyped));
  }

  /**
   * The bytes the array and slice decoders work on (codec.go:916-923,
   * 974-981), in a new sub-state sharing the pointer track.
   */
  method SubState(c: CodecState, to: TagOptions) returns (err: Option<Failure>, scc: CodecState)
    modifies c
    ensures fresh(scc) && scc.pt == c.pt
    ensures match Region(old(c.unread), to)
      case Done(p) => err.None? && scc.unread == p.0 && c.unread == p.1
      case Failed(f) => err == Some(f)
  {
    var b;
    err, b := ReadRegion(c, to);
    scc := c.Gensub();
    scc.Write(b);
  }

  /** The loop of arrayCoder.decode and the zero loop after it (codec.go:925-942), over the sub-state `c`. */
  method DecodeArrayRest(env: Env, s: Caches, ghost lists: FieldLists, c: CodecState, ec: Codec, e: TypeId, es: seq<Value>,
                         to: TagOptions, settable: bool, fuel: nat, mem: Memory)
    returns (err: Option<Failure>, v': Value, mem': Memory, s': Caches, ghost lists': FieldLists)
    requires Ready(env.table, s, lists) && e in env.table && Fits(env.table, s.codecs.Keys, s.fields.Keys, ec, e) && |es| > 0
    modifies c, c.pt
    ensures Stays(env.table, s, s')
    ensures DSound(env.table, ArrayRest(env, fuel, e, es, to, settable, DState(old(c.unread), mem, lists), old(c.pt.level), old(c.pt.seen)),
                   err, v', c.unread, mem', s'.fields, lists', old(c.pt.level), c.pt.level, old(c.pt.seen), c.pt.seen)
    decreases fuel, 3
  {
    var x;
    err, x, mem', s', lists' := DecodeArrayLoop(env, s, lists, c, ec, e, es[0], to, settable, fuel, mem);
    v' := VArray(es);
    if err.Some? {
      return;
    }
    // the zero loop (codec.go:937-942); its first Set panics if the array cannot be set
    if !settable {
      err := Some(Crashed(ReflectPanic));
      return;
    }
    var zs := SetAll(es[0 := x], Zero(env.table, e));
    v' := VArray(zs);
  }

  /** `v.Index(i).Set(z)` for every `i`. */
  method SetAll(es: seq<Value>, z: Value) returns (zs: seq<Value>)
    ensures zs == seq(|es|, _ => z)
  {
    zs := es;
    for i := 0 to |es|
      invariant |zs| == |es| && forall j :: 0 <= j < i ==> zs[j] == z
    {
      zs := zs[i := z];
    }
  }

  /** The loop of arrayCoder.decode (codec.go:925-935) over the sub-state `c`. */
  method DecodeArrayLoop(env: Env, s: Caches, ghost lists: FieldLists, c: CodecState, ec: Codec, e: TypeId, x: Value,
                         to: TagOptions, settable: bool, fuel: nat, mem: Memory)
    returns (err: Option<Failure>, x': Value, mem': Memory, s': Caches, ghost lists': FieldLists)
    requires Ready(env.table, s, lists) && e in env.table && Fits(env.table, s.codecs.Keys, s.fields.Keys, ec, e)
    modifies c, c.pt
    ensures Stays(env.table, s, s')
    ensures DSound(env.table, ArrayLoop(env, fuel, e, x, to, settable, DState(old(c.unread), mem, lists), old(c.pt.level), old(c.pt.seen)),
                   err, x', c.unread, mem', s'.fields, lists', old(c.pt.level), c.pt.level, old(c.pt.seen), c.pt.seen)
    decreases fuel, 2
  {
    ghost var level, seen := c.pt.level, c.pt.seen;
    ghost var goal := ArrayLoop(env, fuel, e, x, to, settable, DState(c.unread, mem, lists), level, seen);
    var f: nat := fuel;
    x', mem', s', lists' := x, mem, s, lists;
    err := None;
    while true
      invariant Stays(env.table, s, s') && c.pt.level == level && c.pt.seen == seen
      invariant ArrayLooping(env, s', lists', f, e, x', to, settable, c.unread, mem', level, seen, goal)
      decreases f, |c.unread|
    {
      FitsGrow(env.table, s.codecs.Keys, s.fields.Keys, s'.codecs.Keys, s'.fields.Keys, ec, e);
      var more, f', y, m1, s1;
      ghost var l1;
      err, more, f', y, m1, s1, l1 := ArrayPass(env, s', lists', c, ec, e, x', to, settable, f, mem');
      StaysTrans(env.table, s, s', s1);
      s' := s1;
      if err.Some? {
        return;
      }
      x', mem', lists' := y, m1, l1;
      if !more {
        break;
      }
      f := f';
    }
  }

  /**
   * One pass of the array loop (codec.go:926-934): decode into element 0,
   * then stop once nothing is unread. A pass that read nothing spends fuel
   * where Go would go on regardless.
   */
  method ArrayPass(env: Env, s: Caches, ghost lists: FieldLists, c: CodecState, ec: Codec, e: TypeId, x: Value,
                   to: TagOptions, settable: bool, fuel: nat, mem: Memory)
    returns (err: Option<Failure>, more: bool, fuel': nat, x': Value, mem': Memory, s': Caches, ghost lists': FieldLists)
    requires Ready(env.table, s, lists) && e in env.table && Fits(env.table, s.codecs.Keys, s.fields.Keys, ec, e)
    modifies c, c.pt
    ensures Stays(env.table, s, s')
    ensures var goal := ArrayLoop(env, fuel, e, x, to, settable, DState(old(c.unread), mem, lists), old(c.pt.level), old(c.pt.seen));
      (err.Some? ==> goal.Failed? && err == Some(goal.failure)) &&
      (err.None? ==> c.pt.level == old(c.pt.level) && c.pt.seen == old(c.pt.seen)) &&
      (err.None? && more ==>
         ArrayLooping(env, s', lists', fuel', e, x', to, settable, c.unread, mem', old(c.pt.level), old(c.pt.seen), goal) &&
         (fuel' < fuel || (fuel' == fuel && |c.unread| < |old(c.unread)|))) &&
      (err.None? && !more ==>
         Agrees(env.table, s'.fields, lists') && goal == Done((x', DState(c.unread, mem', lists'))))
    decreases fuel, 2, 0
  {
    ghost var level, seen := c.pt.level, c.pt.seen;
    ghost var st := DState(c.unread, mem, lists);
    ghost var goal := ArrayLoop(env, fuel, e, x, to, settable, st, level, seen);
    more, fuel' := false, fuel;
    var n0 := c.Len();
    err, x', mem', s', lists' := Decode(env, s, lists, c, ec, e, x, to, settable, fuel, mem);
    ArrayNext(env, fuel, e, x, to, settable, st, level, seen, goal, err, x', c.unread, mem', s', lists', c.pt.level, c.pt.seen);
    if err.Some? || c.Len() == 0 {
      return;
    }
    if c.Len() >= n0 {
      if fuel == 0 {
        err := Some(Crashed(OutOfFuel));
        return;
      }
      fuel' := fuel - 1;
    }
    more := true;
  }

  /** The invariant of the array loop: the caches agree with the lists, and the rest of the loop yields `goal`. */
  ghost predicate ArrayLooping(env: Env, s: Caches, lists: FieldLists, f: nat, e: TypeId, x: Value,
                               to: TagOptions, settable: bool, unread: seq<Byte>, mem: Memory,
                               level: nat, seen: set<(TypeId, Addr)>, goal: Outcome<Decoded>)
  {
    Ready(env.table, s, lists) && e in env.table &&
    goal == ArrayLoop(env, f, e, x, to, settable, DState(unread, mem, lists), level, seen)
  }

  /** How a pass of the array loop decides the rest of the loop, branch by branch. */
  lemma ArrayNext(env: Env, fuel: nat, e: TypeId, x: Value, to: TagOptions, settable: bool, st: DState,
                  level: nat, seen: set<(TypeId, Addr)>, goal: Outcome<Decoded>,
                  err: Option<Failure>, x': Value, unread': seq<Byte>, mem': Memory,
                  s': Caches, lists': FieldLists, level': nat, seen': set<(TypeId, Addr)>)
    requires Valid(env.table, s') && e in env.table
    requires goal == ArrayLoop(env, fuel, e, x, to, settable, st, level, seen)
    requires DSound(env.table, Dec(env, fuel, e, x, to, settable, st, level, seen),
                    err, x', unread', mem', s'.fields, lists', level, level', seen, seen')
    ensures err.Some? ==> goal.Failed? && err == Some(goal.failure)
    ensures err.None? ==> level' == level && seen' == seen
    ensures err.None? && |unread'| == 0 ==>
      Agrees(env.table, s'.fields, lists') && goal == Done((x', DState(unread', mem', lists')))
    ensures err.None? && |unread'| != 0 && |unread'| < |st.unread| ==>
      ArrayLooping(env, s', lists', fuel, e, x', to, settable, unread', mem', level, seen, goal)
    ensures err.None? && |unread'| != 0 && |unread'| >= |st.unread| && fuel == 0 ==>
      goal == Failed(Crashed(OutOfFuel))
    ensures err.None? && |unread'| != 0 && |unread'| >= |st.unread| && fuel != 0 ==>
      ArrayLooping(env, s', lists', fuel - 1, e, x', to, settable, unread', mem', level, seen, goal)
  {
  }

  /**
   * sliceCoder.decode (codec.go:973-1009): the loop over a sub-state holding
   * the region, then, `i` being still 0, a new empty slice.
   */
  method DecodeSlice(env: Env, s: Caches, ghost lists: FieldLists, c: CodecState, ec: Codec, t: TypeId, v: Value,
                     to: TagOptions, settable: bool, fuel: nat, mem: Memory)
    returns (err: Option<Failure>, v': Value, mem': Memory, s': Caches, ghost lists': FieldLists)
    requires Ready(env.table, s, lists) && t in env.table && env.table[t].shape.Slice?
    requires Fits(env.table, s.codecs.Keys, s.fields.Keys, ec, env.table[t].shape.elem)
    modifies c, c.pt
    ensures Stays(env.table, s, s')
    ensures DSound(env.table, DecSlice(env, fuel, t, v, to, settable, DState(old(c.unread), mem, lists), old(c.pt.level), old(c.pt.seen)),
                   err, v', c.unread, mem', s'.fields, lists', old(c.pt.level), c.pt.level, old(c.pt.seen), c.pt.seen)
    decreases fuel, 4
  {
    v', mem', s', lists' := v, mem, s, lists;
    StaysSelf(env.table, s, lists);
    err := None;
    match v
    case VSlice(_, len, backing) =>
      if len > |backing| {
        err := Some(Crashed(IllTyped));
        return;
      }
      ElemType(env.table, t);
      ghost var st := DState(c.unread, mem, lists);
      ghost var level, seen := c.pt.level, c.pt.seen;
      var scc;
      err, scc := SubState(c, to);
      if err.Some? {
        return;
      }
      ghost var region := Region(st.unread, to).value;
      ghost var r := SliceRest(env, fuel, env.table[t].shape.elem, v, to, settable, st.(unread := region.0), level, seen);
      assert DecSlice(env, fuel, t, v, to, settable, st, level, seen) == Within(r, region.1);
      err, v', mem', s', lists' := DecodeSliceRest(env, s, lists, scc, ec, env.table[t].shape.elem, v, to, settable, fuel, mem);
      WithinSound(env.table, r, region.1, err, v', scc.unread, mem', s'.fields, lists', level, c.pt.level, seen, c.pt.seen);
    case _ =>
      err := Some(Crashed(IllTyped));
  }

  /** The loop of sliceCoder.decode and the step after it (codec.go:983-1008), over the sub-state `c`. */
  method DecodeSliceRest(env: Env, s: Caches, ghost lists: FieldLists, c: CodecState, ec: Codec, e: TypeId, sv: Value,
                         to: TagOptions, settable: bool, fuel: nat, mem: Memory)
    returns (err: Option<Failure>, v': Value, mem': Memory, s': Caches, ghost lists': FieldLists)
    requires Ready(env.table, s, lists) && e in env.table && Fits(env.table, s.codecs.Keys, s.fields.Keys, ec, e)
    requires sv.VSlice? && sv.len <= |sv.backing|
    modifies c, c.pt
    ensures Stays(env.table, s, s')
    ensures DSound(env.table, SliceRest(env, fuel, e, sv, to, settable, DState(old(c.unread), mem, lists), old(c.pt.level), old(c.pt.seen)),
                   err, v', c.unread, mem', s'.fields, lists', old(c.pt.level), c.pt.level, old(c.pt.seen), c.pt.seen)
    decreases fuel, 3
  {
    err, v', mem', s', lists' := DecodeSliceLoop(env, s, lists, c, ec, e, sv, to, settable, fuel, mem);
    if err.Some? {
      return;
    }
    if !settable {
      err := Some(Crashed(ReflectPanic));
      return;
    }
    v' := VSlice(false, 0, []);
  }

  /**
   * The loop of sliceCoder.decode (codec.go:983-1005) over the sub-state `c`:
   * with `i` at 0 throughout, prepare element `i`, decode it, go on while
   * bytes are unread.
   */
  method DecodeSliceLoop(env: Env, s: Caches, ghost lists: FieldLists, c: CodecState, ec: Codec, e: TypeId, sv: Value,
                         to: TagOptions, settable: bool, fuel: nat, mem: Memory)
    returns (err: Option<Failure>, sv': Value, mem': Memory, s': Caches, ghost lists': FieldLists)
    requires Ready(env.table, s, lists) && e in env.table && Fits(env.table, s.codecs.Keys, s.fields.Keys, ec, e)
    requires sv.VSlice? && sv.len <= |sv.backing|
    modifies c, c.pt
    ensures Stays(env.table, s, s')
    ensures DSound(env.table, SliceLoop(env, fuel, e, sv, to, settable, DState(old(c.unread), mem, lists), old(c.pt.level), old(c.pt.seen)),
                   err, sv', c.unread, mem', s'.fields, lists', old(c.pt.level), c.pt.level, old(c.pt.seen), c.pt.seen)
    decreases fuel, 2
  {
    ghost var level, seen := c.pt.level, c.pt.seen;
    ghost var goal := SliceLoop(env, fuel, e, sv, to, settable, DState(c.unread, mem, lists), level, seen);
    var f: nat := fuel;
    sv', mem', s', lists' := sv, mem, s, lists;
    err := None;
    while true
      invariant Stays(env.table, s, s') && c.pt.level == level && c.pt.seen == seen
      invariant SliceLooping(env, s', lists', f, e, sv', to, settable, c.unread, mem', level, seen, goal)
      decreases f, |c.unread|
    {
      FitsGrow(env.table, s.codecs.Keys, s.fields.Keys, s'.codecs.Keys, s'.fields.Keys, ec, e);
      var more, f', sv2, m1, s1;
      ghost var l1;
      err, more, f', sv2, m1, s1, l1 := SlicePass(env, s', lists', c, ec, e, sv', to, settable, f, mem');
      StaysTrans(env.table, s, s', s1);
      s' := s1;
      if err.Some? {
        return;
      }
      sv', mem', lists' := sv2, m1, l1;
      if !more {
        break;
      }
      f := f';
    }
  }

  /**
   * One pass of the slice loop (codec.go:985-1004): prepare element 0,
   * decode into it, then stop once nothing is unread. A pass that read
   * nothing spends fuel where Go would go on regardless.
   */
  method SlicePass(env: Env, s: Caches, ghost lists: FieldLists, c: CodecState, ec: Codec, e: TypeId, sv: Value,
                   to: TagOptions, settable: bool, fuel: nat, mem: Memory)
    returns (err: Option<Failure>, more: bool, fuel': nat, sv': Value, mem': Memory, s': Caches, ghost lists': FieldLists)
    requires Ready(env.table, s, lists) && e in env.table && Fits(env.table, s.codecs.Keys, s.fields.Keys, ec, e)
    requires sv.VSlice? && sv.len <= |sv.backing|
    modifies c, c.pt
    ensures Stays(env.table, s, s')
    ensures var goal := SliceLoop(env, fuel, e, sv, to, settable, DState(old(c.unread), mem, lists), old(c.pt.level), old(c.pt.seen));
      (err.Some? ==> goal.Failed? && err == Some(goal.failure)) &&
      (err.None? ==> c.pt.level == old(c.pt.level) && c.pt.seen == old(c.pt.seen)) &&
      (err.None? && more ==>
         SliceLooping(env, s', lists', fuel', e, sv', to, settable, c.unread, mem', old(c.pt.level), old(c.pt.seen), goal) &&
         (fuel' < fuel || (fuel' == fuel && |c.unread| < |old(c.unread)|))) &&
      (err.None? && !more ==>
         Agrees(env.table, s'.fields, lists') && goal == Done((sv', DState(c.unread, mem', lists'))))
    decreases fuel, 2, 0
  {
    ghost var level, seen := c.pt.level, c.pt.seen;
    ghost var st := DState(c.unread, mem, lists);
    ghost var goal := SliceLoop(env, fuel, e, sv, to, settable, st, level, seen);
    more, fuel', sv', mem', s', lists' := false, fuel, sv, mem, s, lists;
    var sv1;
    err, sv1 := PrepareSlice(env.table, e, sv, settable);
    if err.Some? {
      SliceFails(env, fuel, e, sv, to, settable, st, level, seen);
      return;
    }
    var n0 := c.Len();
    var y;
    err, y, mem', s', lists' := Decode(env, s, lists, c, ec, e, sv1.backing[0], to, true, fuel, mem);
    SliceNext(env, fuel, e, sv, sv1, to, settable, st, level, seen, goal, err, y, c.unread, mem', s', lists', c.pt.level, c.pt.seen);
    sv' := sv1.(backing := sv1.backing[0 := y]);
    if err.Some? || c.Len() == 0 {
      return;
    }
    if c.Len() >= n0 {
      if fuel == 0 {
        err := Some(Crashed(OutOfFuel));
        return;
      }
      fuel' := fuel - 1;
    }
    more := true;
  }

  /** The invariant of the slice loop: the caches agree with the lists, and the rest of the loop yields `goal`. */
  ghost predicate SliceLooping(env: Env, s: Caches, lists: FieldLists, f: nat, e: TypeId, sv: Value,
                               to: TagOptions, settable: bool, unread: seq<Byte>, mem: Memory,
                               level: nat, seen: set<(TypeId, Addr)>, goal: Outcome<Decoded>)
  {
    Ready(env.table, s, lists) && e in env.table && sv.VSlice? && sv.len <= |sv.backing| &&
    goal == SliceLoop(env, f, e, sv, to, settable, DState(unread, mem, lists), level, seen)
  }

  /** The steps of sliceCoder.decode before element `i` is decoded (codec.go:985-997), with `i` at 0. */
  method PrepareSlice(table: TypeTable, e: TypeId, sv: Value, settable: bool) returns (err: Option<Failure>, sv': Value)
    requires WellFormed(table) && e in table && sv.VSlice? && sv.len <= |sv.backing|
    ensures match SlicePrep(table, e, sv, settable)
      case Done(x) => err.None? && sv' == x
      case Failed(f) => err == Some(f)
  {
    var i := 0;
    err, sv' := None, sv;
    if i >= |sv'.backing| {
      if !settable {
        return Some(Crashed(ReflectPanic)), sv';
      }
      sv' := VSlice(false, sv'.len, Grow(table, e, sv'.len, sv'.backing));
    }
    if i >= sv'.len {
      if !settable {
        return Some(Crashed(ReflectPanic)), sv';
      }
      sv' := sv'.(len := i + 1);
    }
  }

  /** A slice that cannot be prepared fails the loop. */
  lemma SliceFails(env: Env, fuel: nat, e: TypeId, sv: Value, to: TagOptions, settable: bool, st: DState,
                   level: nat, seen: set<(TypeId, Addr)>)
    requires WellFormed(env.table) && e in env.table && sv.VSlice? && sv.len <= |sv.backing|
    requires SlicePrep(env.table, e, sv, settable).Failed?
    ensures SliceLoop(env, fuel, e, sv, to, settable, st, level, seen) == Failed(SlicePrep(env.table, e, sv, settable).failure)
  {
  }

  /** How a pass of the slice loop, past its preparation, decides the rest of the loop, branch by branch. */
  lemma SliceNext(env: Env, fuel: nat, e: TypeId, sv: Value, sv1: Value, to: TagOptions, settable: bool, st: DState,
                  level: nat, seen: set<(TypeId, Addr)>, goal: Outcome<Decoded>,
                  err: Option<Failure>, x': Value, unread': seq<Byte>, mem': Memory,
                  s': Caches, lists': FieldLists, level': nat, seen': set<(TypeId, Addr)>)
    requires Valid(env.table, s') && e in env.table && sv.VSlice? && sv.len <= |sv.backing|
    requires SlicePrep(env.table, e, sv, settable) == Done(sv1)
    requires goal == SliceLoop(env, fuel, e, sv, to, settable, st, level, seen)
    requires DSound(env.table, Dec(env, fuel, e, sv1.backing[0], to, true, st, level, seen),
                    err, x', unread', mem', s'.fields, lists', level, level', seen, seen')
    ensures err.Some? ==> goal.Failed? && err == Some(goal.failure)
    ensures err.None? ==> level' == level && seen' == seen
    ensures var sv2 := sv1.(backing := sv1.backing[0 := x']);
      (err.None? && |unread'| == 0 ==>
         Agrees(env.table, s'.fields, lists') && goal == Done((sv2, DState(unread', mem', lists')))) &&
      (err.None? && |unread'| != 0 && |unread'| < |st.unread| ==>
         SliceLooping(env, s', lists', fuel, e, sv2, to, settable, unread', mem', level, seen, goal)) &&
      (err.None? && |unread'| != 0 && |unread'| >= |st.unread| && fuel == 0 ==>
         goal == Failed(Crashed(OutOfFuel))) &&
      (err.None? && |unread'| != 0 && |unread'| >= |st.unread| && fuel != 0 ==>
         SliceLooping(env, s', lists', fuel - 1, e, sv2, to, settable, unread', mem', level, seen, goal))
  {
  }

  /** ptrCoder.decode (codec.go:1043-1060): a nil pointer is first set to a new zero element. */
  method DecodePtr(env: Env, s: Caches, ghost lists: FieldLists, c: CodecState, ec: Codec, t: TypeId, v: Value,
                   to: TagOptions, settable: bool, fuel: nat, mem: Memory)
    returns (err: Option<Failure>, v': Value, mem': Memory, s': Caches, ghost lists': FieldLists)
    requires Ready(env.table, s, lists) && t in env.table && env.table[t].shape.Ptr?
    requires Fits(env.table, s.codecs.Keys, s.fields.Keys, ec, env.table[t].shape.elem)
    modifies c, c.pt
    ensures Stays(env.table, s, s')
    ensures DSound(env.table, DecPtr(env, fuel, t, v, to, settable, DState(old(c.unread), mem, lists), old(c.pt.level), old(c.pt.seen)),
                   err, v', c.unread, mem', s'.fields, lists', old(c.pt.level), c.pt.level, old(c.pt.seen), c.pt.seen)
    decreases fuel, 3
  {
    v', mem', s', lists' := v, mem, s, lists;
    StaysSelf(env.table, s, lists);
    err := None;
    match v
    case VPtr(None) =>
      if !settable {
        err := Some(Crashed(ReflectPanic));
        return;
      }
      ElemType(env.table, t);
      var (m, a) := Alloc(env.table, mem, env.table[t].shape.elem);
      err, mem', s', lists' := DecodePointee(env, s, lists, c, ec, t, a, to, fuel, m);
      v' := VPtr(Some(a));
    case VPtr(Some(a)) =>
      if a !in mem.cells {
        err := Some(Crashed(IllTyped));
        return;
      }
      err, mem', s', lists' := DecodePointee(env, s, lists, c, ec, t, a, to, fuel, mem);
    case _ =>
      err := Some(Crashed(IllTyped));
  }

  /**
   * The pointer track after the pointee: the entry value when the pointee
   * was decoded, once the recorded pair is removed and the level lowered.
   */
  lemma PointeeSound(env: Env, fuel: nat, t: TypeId, a: Addr, to: TagOptions, st: DState,
                     level: nat, seen: set<(TypeId, Addr)>, recorded: bool, err: Option<Failure>,
                     x: Value, unread: seq<Byte>, mem1: Memory, fields: map<TypeId, seq<Field>>, lists1: FieldLists,
                     level0: nat, seen0: set<(TypeId, Addr)>, level1: nat, seen1: set<(TypeId, Addr)>,
                     level2: nat, seen2: set<(TypeId, Addr)>)
    requires WellFormed(env.table) && t in env.table && env.table[t].shape.Ptr?
    requires a in st.mem.cells && env.table[t].shape.elem in env.table
    requires recorded == (level + 1 > CycleCheckDepth) && (recorded ==> (t, a) !in seen)
    requires level0 == level + 1 && seen0 == Deeper(level, seen, t, a)
    requires DSound(env.table, Dec(env, fuel, env.table[t].shape.elem, st.mem.cells[a], to, true, st, level0, seen0),
                    err, x, unread, mem1, fields, lists1, level0, level1, seen0, seen1)
    requires err.None? ==> level2 + 1 == level1
    requires seen2 == if recorded then seen1 - {(t, a)} else seen1
    ensures StateSound(env.table, DecPointee(env, fuel, t, a, to, st, level, seen), err,
                       unread, mem1.(cells := mem1.cells[a := x]), fields, lists1, level, level2, seen, seen2)
  {
    if recorded {
      assert seen + {(t, a)} - {(t, a)} == seen;
    }
  }

  /**
   * The body of ptrCoder.decode past the nil check (codec.go:1047-1059): one
   * level deeper, past depth 1000 a check against and an entry in the seen
   * set, removed again on the way out; the level is restored only on success.
   */
  method DecodePointee(env: Env, s: Caches, ghost lists: FieldLists, c: CodecState, ec: Codec, t: TypeId, a: Addr,
                       to: TagOptions, fuel: nat, mem: Memory)
    returns (err: Option<Failure>, mem': Memory, s': Caches, ghost lists': FieldLists)
    requires Ready(env.table, s, lists) && t in env.table && env.table[t].shape.Ptr?
    requires Fits(env.table, s.codecs.Keys, s.fields.Keys, ec, env.table[t].shape.elem) && a in mem.cells
    modifies c, c.pt
    ensures Stays(env.table, s, s')
    ensures StateSound(env.table, DecPointee(env, fuel, t, a, to, DState(old(c.unread), mem, lists), old(c.pt.level), old(c.pt.seen)),
                       err, c.unread, mem', s'.fields, lists', old(c.pt.level), c.pt.level, old(c.pt.seen), c.pt.seen)
    decreases fuel, 2
  {
    ghost var level, seen := c.pt.level, c.pt.seen;
    ghost var st := DState(c.unread, mem, lists);
    ElemType(env.table, t);
    mem', s', lists' := mem, s, lists;
    c.pt.level := c.pt.level + 1;
    var recorded := false;
    if c.pt.level > CycleCheckDepth {
      if (t, a) in c.pt.seen {
        return Some(Raised(UnsupportedValueError(env.table[t].name))), mem, s, lists;
      }
      c.pt.seen := c.pt.seen + {(t, a)};
      recorded := true;
    }
    ghost var level0, seen0 := c.pt.level, c.pt.seen;
    var x, m1;
    err, x, m1, s', lists' := Decode(env, s, lists, c, ec, env.table[t].shape.elem, mem.cells[a], to, true, fuel, mem);
    ghost var level1, seen1 := c.pt.level, c.pt.seen;
    if recorded {
      c.pt.seen := c.pt.seen - {(t, a)};
    }
    if err.None? {
      c.pt.level := c.pt.level - 1;
    }
    mem' := m1.(cells := m1.cells[a := x]);
    PointeeSound(env, fuel, t, a, to, st, level, seen, recorded, err, x, c.unread, m1, s'.fields, lists',
                 level0, seen0, level1, seen1, c.pt.level, c.pt.seen);
  }
}
