/**
 * A concrete run of the model: the `lengthTag` value of the package's
 * tests (codec_test.go:256-274), marshalled through a pointer.
 */
module Examples {
  import opened Wrappers
  import opened Binary
  import opened Types
  import opened Tags
  import opened StructFields
  import opened Outcomes
  import opened Registry
  import opened EncSpec
  import EncProps
  import Api

  /**
   * The types of `*lengthTag`:
   * `struct { Slice []uint16; Str string; Array [5]byte }`, each field
   * annotated with a `bytecodec:"length:…"` tag.
   */
  function LengthTagTable(): (table: TypeTable)
    ensures WellFormed(table)
  {
    var table := map[
      0 := GoType("uint16", Uint16),
      1 := GoType("[]uint16", Slice(0)),
      2 := GoType("string", String),
      3 := GoType("uint8", Uint8),
      4 := GoType("[5]uint8", Array(5, 3)),
      5 := GoType("bytecodec.lengthTag", Struct([
             StructField("Slice", true, false, [("bytecodec", "length:4")], 1),
             StructField("Str", true, false, [("bytecodec", "length:4")], 2),
             StructField("Array", true, false, [("bytecodec", "length:5")], 4)])),
      6 := GoType("*bytecodec.lengthTag", Ptr(5))];
    assert forall t | t in table :: ElemsFit(table, t);
    table
  }

  /** `&lengthTag{Slice: []uint16{1, 2}, Str: "abcd", Array: [5]byte{1, 2, 3, 4, 0}}`, its struct in cell 0. */
  function LengthTagHeap(): Heap
  {
    map[0 := VStruct([
      VSlice(false, 2, [VUint(1), VUint(2)]),
      VString([0x61, 0x62, 0x63, 0x64]),
      VArray([VUint(1), VUint(2), VUint(3), VUint(4), VUint(0)])])]
  }

  /**
   * Marshalling the test value with the caches the program starts with
   * writes the bytes the test expects. `typeFields` reads the `json` key
   * of the tags (codec.go:1106), so the `bytecodec` lengths are not
   * looked at; the fields happen to have those lengths anyway.
   */
  lemma MarshalLengthTag(tx: Transcoders)
    ensures Api.Marshalled(Env(LengthTagTable(), tx), Lists(LengthTagTable(), map[]), LengthTagHeap(), Some(Boxed(6, VPtr(Some(0))))) ==
            Done([0x00, 0x01, 0x00, 0x02, 0x61, 0x62, 0x63, 0x64, 0x01, 0x02, 0x03, 0x04, 0x00])
  {
    TableFacts();
    MarshalWith(Env(LengthTagTable(), tx));
  }

  /** The shapes of the types of `LengthTagTable`. */
  ghost predicate LengthTagTypes(table: TypeTable)
  {
    table.Keys == {0, 1, 2, 3, 4, 5, 6} &&
    table[0].shape == Uint16 && table[1].shape == Slice(0) && table[2].shape == String &&
    table[3].shape == Uint8 && table[4].shape == Array(5, 3) && table[6].shape == Ptr(5) &&
    table[5].shape == Struct([
      StructField("Slice", true, false, [("bytecodec", "length:4")], 1),
      StructField("Str", true, false, [("bytecodec", "length:4")], 2),
      StructField("Array", true, false, [("bytecodec", "length:5")], 4)])
  }

  lemma TableFacts()
    ensures LengthTagTypes(LengthTagTable())
  {
  }

  /** `MarshalLengthTag` for any table with those shapes. */
  lemma MarshalWith(env: Env)
    requires WellFormed(env.table) && LengthTagTypes(env.table)
    ensures Api.Marshalled(env, Lists(env.table, map[]), LengthTagHeap(), Some(Boxed(6, VPtr(Some(0))))) ==
            Done([0x00, 0x01, 0x00, 0x02, 0x61, 0x62, 0x63, 0x64, 0x01, 0x02, 0x03, 0x04, 0x00])
  {
    var lists := Lists(env.table, map[]);
    ListsFacts(env.table);
    StructValue(env, lists);
    PointerStep(env, lists, LengthTagHeap(), [0x00, 0x01, 0x00, 0x02, 0x61, 0x62, 0x63, 0x64, 0x01, 0x02, 0x03, 0x04, 0x00]);
  }

  /** Through the pointer, at level 0 with nothing recorded, the struct is written as it is. */
  lemma PointerStep(env: Env, lists: FieldLists, heap: Heap, b: seq<Byte>)
    requires WellFormed(env.table) && LengthTagTypes(env.table) && 0 in heap
    requires Enc(env, lists, heap, 5, heap[0], NoOptions, 1, {}) == Done(b)
    ensures Enc(env, lists, heap, 6, VPtr(Some(0)), NoOptions, 0, {}) == Done(b)
  {
    assert Deeper(0, {}, 6, 0) == {};
    assert EncPointee(env, lists, heap, 6, 0, NoOptions, 0, {}) == Enc(env, lists, heap, 5, heap[0], NoOptions, 1, {});
  }

  /** The struct of the test value writes its three fields in order. */
  lemma StructValue(env: Env, lists: FieldLists)
    requires WellFormed(env.table) && LengthTagTypes(env.table)
    requires lists == map[5 := [FieldInfo("Slice", 0, NoOptions), FieldInfo("Str", 1, NoOptions), FieldInfo("Array", 2, NoOptions)]]
    ensures Enc(env, lists, LengthTagHeap(), 5, LengthTagHeap()[0], NoOptions, 1, {}) ==
            Done([0x00, 0x01, 0x00, 0x02, 0x61, 0x62, 0x63, 0x64, 0x01, 0x02, 0x03, 0x04, 0x00])
  {
    var heap := LengthTagHeap();
    var fields := heap[0].fields;
    var bs: seq<seq<Byte>> := [[0x00, 0x01, 0x00, 0x02], [0x61, 0x62, 0x63, 0x64], [0x01, 0x02, 0x03, 0x04, 0x00]];
    SliceField(env, lists, heap, fields[0]);
    StringField(env, lists, heap, fields[1]);
    ArrayField(env, lists, heap, fields[2]);
    StructBytes(env, lists, heap, fields, bs);
    assert bs[0] + bs[1] + bs[2] == [0x00, 0x01, 0x00, 0x02, 0x61, 0x62, 0x63, 0x64, 0x01, 0x02, 0x03, 0x04, 0x00];
  }

  /** The field list of the struct: all three fields, without options. */
  lemma ListsFacts(table: TypeTable)
    requires LengthTagTypes(table)
    ensures Lists(table, map[]) ==
      map[5 := [FieldInfo("Slice", 0, NoOptions), FieldInfo("Str", 1, NoOptions), FieldInfo("Array", 2, NoOptions)]]
  {
    UntaggedInfos(table[5].shape.fields);
    assert forall t | t in table :: table[t].shape.Struct? <==> t == 5;
  }

  /** Three fields without a `json` tag are all kept, with no options. */
  lemma UntaggedInfos(fs: seq<StructField>)
    requires |fs| == 3
    requires forall i | 0 <= i < 3 :: fs[i].exported && !fs[i].anonymous && |fs[i].tag| == 1 && fs[i].tag[0].0 == "bytecodec"
    ensures FieldInfosUpTo(fs, 3) ==
      [FieldInfo(fs[0].name, 0, NoOptions), FieldInfo(fs[1].name, 1, NoOptions), FieldInfo(fs[2].name, 2, NoOptions)]
  {
    UntaggedField(fs[0], 0);
    UntaggedField(fs[1], 1);
    UntaggedField(fs[2], 2);
    assert FieldInfosUpTo(fs, 0) == [];
    assert FieldInfosUpTo(fs, 1) == [FieldInfo(fs[0].name, 0, NoOptions)];
    assert FieldInfosUpTo(fs, 2) == [FieldInfo(fs[0].name, 0, NoOptions), FieldInfo(fs[1].name, 1, NoOptions)];
  }

  /** An exported field with only a `bytecodec` annotation is kept, with no options. */
  lemma UntaggedField(sf: StructField, i: nat)
    requires sf.exported && !sf.anonymous && |sf.tag| == 1 && sf.tag[0].0 == "bytecodec"
    ensures Kept(sf) && InfoOf(sf, i) == FieldInfo(sf.name, i, NoOptions)
  {
    assert TagGet(sf.tag, "json") == "";
    EmptyTag();
  }

  /** The `Str` field writes its bytes as they are. */
  lemma StringField(env: Env, lists: FieldLists, heap: Heap, v: Value)
    requires WellFormed(env.table) && 2 in env.table && env.table[2].shape == String && v == VString([0x61, 0x62, 0x63, 0x64])
    ensures Enc(env, lists, heap, 2, v, NoOptions, 1, {}) == Done([0x61, 0x62, 0x63, 0x64])
  {
    EncProps.RawStringLength(env.tx, v.s, NoOptions);
  }

  /** The struct writes its three fields in order. */
  lemma StructBytes(env: Env, lists: FieldLists, heap: Heap, fields: seq<Value>, bs: seq<seq<Byte>>)
    requires WellFormed(env.table) && LengthTagTypes(env.table)
    requires lists == map[5 := [FieldInfo("Slice", 0, NoOptions), FieldInfo("Str", 1, NoOptions), FieldInfo("Array", 2, NoOptions)]]
    requires |fields| == 3 && |bs| == 3
    requires Enc(env, lists, heap, 1, fields[0], NoOptions, 1, {}) == Done(bs[0])
    requires Enc(env, lists, heap, 2, fields[1], NoOptions, 1, {}) == Done(bs[1])
    requires Enc(env, lists, heap, 4, fields[2], NoOptions, 1, {}) == Done(bs[2])
    ensures Enc(env, lists, heap, 5, VStruct(fields), NoOptions, 1, {}) == Done(bs[0] + bs[1] + bs[2])
  {
    var list := lists[5];
    assert EncProps.Plain(list);
    assert forall j :: 0 <= j < 3 ==> list[j].index == j && list[j].opts == NoOptions;
    EncProps.PlainStruct(env, lists, heap, 5, fields, 1, {}, bs);
    ConcatThree(bs);
  }

  lemma ConcatThree(bs: seq<seq<Byte>>)
    requires |bs| == 3
    ensures Concat(bs) == bs[0] + bs[1] + bs[2]
  {
    assert Concat(bs[2..]) == bs[2] by { assert |bs[2..][1..]| == 0; }
    assert Concat(bs[1..]) == bs[1] + bs[2] by { assert bs[1..][1..] == bs[2..]; }
    assert bs[0..][1..] == bs[1..];
  }

  /** The `Slice` field writes its two `uint16` elements. */
  lemma SliceField(env: Env, lists: FieldLists, heap: Heap, v: Value)
    requires WellFormed(env.table) && 0 in env.table && 1 in env.table
    requires env.table[0].shape == Uint16 && env.table[1].shape == Slice(0)
    requires v == VSlice(false, 2, [VUint(1), VUint(2)])
    ensures Enc(env, lists, heap, 1, v, NoOptions, 1, {}) == Done([0x00, 0x01, 0x00, 0x02])
  {
    SliceElems(env, lists, heap, v.backing);
    SliceOf(env, lists, heap, 1, v, [0x00, 0x01, 0x00, 0x02]);
  }

  /** A slice without tag options writes the bytes of its first `len` elements. */
  lemma SliceOf(env: Env, lists: FieldLists, heap: Heap, t: TypeId, v: Value, b: seq<Byte>)
    requires WellFormed(env.table) && t in env.table && env.table[t].shape.Slice? && env.table[t].shape.elem in env.table
    requires v.VSlice? && v.len <= |v.backing|
    requires EncElems(env, lists, heap, env.table[t].shape.elem, v.backing, v.len, NoOptions, 0, 1, {}) == Done(b)
    ensures Enc(env, lists, heap, t, v, NoOptions, 1, {}) == Done(b)
  {
    EncProps.SeqLength(env, lists, heap, t, v, v.backing, v.len, NoOptions, SliceSite, 1, {}, b);
  }

  lemma SliceElems(env: Env, lists: FieldLists, heap: Heap, es: seq<Value>)
    requires WellFormed(env.table) && 0 in env.table && env.table[0].shape == Uint16
    requires es == [VUint(1), VUint(2)]
    ensures EncElems(env, lists, heap, 0, es, 2, NoOptions, 0, 1, {}) == Done([0x00, 0x01, 0x00, 0x02])
  {
    U16Bytes();
    EncProps.IntEnc(env, lists, heap, 0, U16, 1, NoOptions, 1, {});
    EncProps.IntEnc(env, lists, heap, 0, U16, 2, NoOptions, 1, {});
    var bs: seq<seq<Byte>> := [[0x00, 0x01], [0x00, 0x02]];
    EncProps.ElemsConcat(env, lists, heap, 0, es, 2, NoOptions, 0, 1, {}, bs);
    assert Concat(bs[0..]) == [0x00, 0x01, 0x00, 0x02] by {
      assert bs[0..][1..] == bs[1..] && |bs[1..][1..]| == 0;
    }
  }


  lemma U16Bytes()
    ensures EncodeInt(U16, 1) == [0, 1] && EncodeInt(U16, 2) == [0, 2]
  {
    Pow256Values();
    assert Truncate(1, 2) == 1 && Truncate(2, 2) == 2;
  }

  lemma U8Bytes(x: int)
    requires 0 <= x < 256
    ensures EncodeInt(U8, x) == [x]
  {
    Pow256Values();
    assert Truncate(x, 1) == x;
  }

  /** The `Array` field writes its five bytes. */
  lemma ArrayField(env: Env, lists: FieldLists, heap: Heap, v: Value)
    requires WellFormed(env.table) && 3 in env.table && 4 in env.table
    requires env.table[3].shape == Uint8 && env.table[4].shape == Array(5, 3)
    requires v == VArray([VUint(1), VUint(2), VUint(3), VUint(4), VUint(0)])
    ensures Enc(env, lists, heap, 4, v, NoOptions, 1, {}) == Done([0x01, 0x02, 0x03, 0x04, 0x00])
  {
    ArrayBytes(env, lists, heap, v.elems);
    ArrayOf(env, lists, heap, 4, v, [0x01, 0x02, 0x03, 0x04, 0x00]);
  }

  /** An array without tag options writes its elements' bytes. */
  lemma ArrayOf(env: Env, lists: FieldLists, heap: Heap, t: TypeId, v: Value, b: seq<Byte>)
    requires WellFormed(env.table) && t in env.table && env.table[t].shape.Array? && env.table[t].shape.elem in env.table
    requires v.VArray? && |v.elems| == env.table[t].shape.len
    requires EncElems(env, lists, heap, env.table[t].shape.elem, v.elems, |v.elems|, NoOptions, 0, 1, {}) == Done(b)
    ensures Enc(env, lists, heap, t, v, NoOptions, 1, {}) == Done(b)
  {
    EncProps.SeqLength(env, lists, heap, t, v, v.elems, |v.elems|, NoOptions, ArraySite, 1, {}, b);
  }

  lemma ArrayBytes(env: Env, lists: FieldLists, heap: Heap, es: seq<Value>)
    requires WellFormed(env.table) && 3 in env.table && env.table[3].shape == Uint8
    requires es == [VUint(1), VUint(2), VUint(3), VUint(4), VUint(0)]
    ensures EncElems(env, lists, heap, 3, es, 5, NoOptions, 0, 1, {}) == Done([0x01, 0x02, 0x03, 0x04, 0x00])
  {
    var bs: seq<seq<Byte>> := [[0x01], [0x02], [0x03], [0x04], [0x00]];
    ArrayElems(env, lists, heap, es, bs);
    EncProps.ElemsConcat(env, lists, heap, 3, es, 5, NoOptions, 0, 1, {}, bs);
    ConcatFive(bs);
  }

  /** Each element of the `Array` field writes its one byte. */
  lemma ArrayElems(env: Env, lists: FieldLists, heap: Heap, es: seq<Value>, bs: seq<seq<Byte>>)
    requires WellFormed(env.table) && 3 in env.table && env.table[3].shape == Uint8
    requires es == [VUint(1), VUint(2), VUint(3), VUint(4), VUint(0)] && bs == [[0x01], [0x02], [0x03], [0x04], [0x00]]
    ensures forall j :: 0 <= j < 5 ==> Enc(env, lists, heap, 3, es[j], NoOptions, 1, {}) == Done(bs[j])
  {
    forall j | 0 <= j < 5
      ensures Enc(env, lists, heap, 3, es[j], NoOptions, 1, {}) == Done(bs[j])
    {
      ByteElement(env, lists, heap, es[j].u);
    }
  }

  lemma ConcatFive(bs: seq<seq<Byte>>)
    requires bs == [[0x01], [0x02], [0x03], [0x04], [0x00]]
    ensures Concat(bs[0..]) == [0x01, 0x02, 0x03, 0x04, 0x00]
  {
    assert Concat(bs[4..]) == [0x00] by { assert |bs[4..][1..]| == 0; }
    assert Concat(bs[3..]) == [0x04, 0x00] by { assert bs[3..][1..] == bs[4..]; }
    assert Concat(bs[2..]) == [0x03, 0x04, 0x00] by { assert bs[2..][1..] == bs[3..]; }
    assert Concat(bs[1..]) == [0x02, 0x03, 0x04, 0x00] by { assert bs[1..][1..] == bs[2..]; }
    assert bs[0..][1..] == bs[1..];
  }

  /** A `byte` writes itself. */
  lemma ByteElement(env: Env, lists: FieldLists, heap: Heap, x: int)
    requires WellFormed(env.table) && 3 in env.table && env.table[3].shape == Uint8 && 0 <= x < 256
    ensures Enc(env, lists, heap, 3, VUint(x), NoOptions, 1, {}) == Done([x])
  {
    U8Bytes(x);
    EncProps.IntEnc(env, lists, heap, 3, U8, x, NoOptions, 1, {});
  }
}
