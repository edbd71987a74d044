/**
 * The codec cache and field cache (codec.go:163, 200-280, 888-891, 1097-1131),
 * modelled sequentially: `typeCodec` stores a placeholder for a type before
 * building its codec, so that a type that refers to itself finds the
 * placeholder instead of being built again.
 */
module Registry {
  import opened Wrappers
  import opened Types
  import opened Tags
  import opened StructFields
  import opened Codecs

  /**
   * The caches are consistent: every cached codec fits its type, except the
   * placeholders of the types whose codec is still being built (`pending`),
   * and every cached field list fits its struct type.
   */
  ghost predicate CachesFit(table: TypeTable, codecs: map<TypeId, Codec>, fields: map<TypeId, seq<Field>>, pending: set<TypeId>)
  {
    WellFormed(table) &&
    codecs.Keys <= table.Keys && fields.Keys <= table.Keys && pending <= codecs.Keys &&
    (forall t :: t in pending ==> codecs[t] == RecursiveWrap(t)) &&
    (forall t :: t in codecs && t !in pending ==>
       !codecs[t].RecursiveWrap? && Fits(table, codecs.Keys, fields.Keys, codecs[t], t)) &&
    (forall t :: t in fields ==> table[t].shape.Struct? && FieldsFit(table, codecs.Keys, fields.Keys, t, fields[t]))
  }

  /** Adding a placeholder keeps the caches consistent. */
  lemma AddPlaceholder(table: TypeTable, codecs: map<TypeId, Codec>, fields: map<TypeId, seq<Field>>, pending: set<TypeId>, t: TypeId)
    requires CachesFit(table, codecs, fields, pending) && t in table && t !in codecs
    ensures CachesFit(table, codecs[t := RecursiveWrap(t)], fields, pending + {t})
  {
    var codecs' := codecs[t := RecursiveWrap(t)];
    forall u | u in codecs' && u !in pending + {t}
      ensures Fits(table, codecs'.Keys, fields.Keys, codecs'[u], u)
    {
      FitsGrow(table, codecs.Keys, fields.Keys, codecs'.Keys, fields.Keys, codecs[u], u);
    }
    forall u | u in fields
      ensures FieldsFit(table, codecs'.Keys, fields.Keys, u, fields[u])
    {
      FieldsFitGrow(table, codecs.Keys, fields.Keys, codecs'.Keys, fields.Keys, u, fields[u]);
    }
  }

  /** Replacing a placeholder by a codec that fits its type ends that type's pending state. */
  lemma ReplacePlaceholder(table: TypeTable, codecs: map<TypeId, Codec>, fields: map<TypeId, seq<Field>>, pending: set<TypeId>, t: TypeId, c: Codec)
    requires CachesFit(table, codecs, fields, pending + {t}) && t !in pending
    requires !c.RecursiveWrap? && Fits(table, codecs.Keys, fields.Keys, c, t)
    ensures CachesFit(table, codecs[t := c], fields, pending)
  {
    assert codecs[t := c].Keys == codecs.Keys;
  }

  /** Adding a field list that fits keeps the caches consistent. */
  lemma AddFields(table: TypeTable, codecs: map<TypeId, Codec>, fields: map<TypeId, seq<Field>>, pending: set<TypeId>, t: TypeId, list: seq<Field>)
    requires CachesFit(table, codecs, fields, pending) && t in table && table[t].shape.Struct? && t !in fields
    requires FieldsFit(table, codecs.Keys, fields.Keys, t, list)
    ensures CachesFit(table, codecs, fields[t := list], pending)
  {
    var fields' := fields[t := list];
    forall u | u in codecs && u !in pending
      ensures Fits(table, codecs.Keys, fields'.Keys, codecs[u], u)
    {
      FitsGrow(table, codecs.Keys, fields.Keys, codecs.Keys, fields'.Keys, codecs[u], u);
    }
    forall u | u in fields'
      ensures FieldsFit(table, codecs.Keys, fields'.Keys, u, fields'[u])
    {
      FieldsFitGrow(table, codecs.Keys, fields.Keys, codecs.Keys, fields'.Keys, u, fields'[u]);
    }
  }

  /**
   * The field list every struct type's codec uses: the cached one, or the
   * one `typeFields` would build.
   */
  ghost function Lists(table: TypeTable, fields: map<TypeId, seq<Field>>): map<TypeId, seq<FieldInfo>>
  {
    map t | t in table && table[t].shape.Struct? ::
      if t in fields then Infos(fields[t]) else FieldInfos(table, t)
  }

  /** Caching the list `typeFields` builds changes no struct type's list. */
  lemma CachingKeepsLists(table: TypeTable, fields: map<TypeId, seq<Field>>, t: TypeId, list: seq<Field>)
    requires t in table && table[t].shape.Struct? && t !in fields && Infos(list) == FieldInfos(table, t)
    ensures Lists(table, fields[t := list]) == Lists(table, fields)
  {
    var a, b := Lists(table, fields[t := list]), Lists(table, fields);
    assert a.Keys == b.Keys;
    forall u | u in a.Keys ensures a[u] == b[u] {
      if u == t {
        assert a[u] == Infos(list);
      }
    }
  }

  /** The caches `c`, `f` hold at least what `oc`, `of` held, unchanged. */
  ghost predicate Grows(oc: map<TypeId, Codec>, of: map<TypeId, seq<Field>>, c: map<TypeId, Codec>, f: map<TypeId, seq<Field>>)
  {
    oc.Keys <= c.Keys && of.Keys <= f.Keys &&
    (forall t :: t in oc ==> c[t] == oc[t]) &&
    (forall t :: t in of ==> f[t] == of[t])
  }

  lemma GrowsTrans(c1: map<TypeId, Codec>, f1: map<TypeId, seq<Field>>, c2: map<TypeId, Codec>, f2: map<TypeId, seq<Field>>, c3: map<TypeId, Codec>, f3: map<TypeId, seq<Field>>)
    requires Grows(c1, f1, c2, f2) && Grows(c2, f2, c3, f3)
    ensures Grows(c1, f1, c3, f3)
  {
  }

  /** A kept struct field adds its entry to the list `typeFields` is building. */
  lemma KeepField(fs: seq<StructField>, i: nat, list: seq<Field>, f: Field)
    requires i < |fs| && Infos(list) == FieldInfosUpTo(fs, i)
    requires Kept(fs[i]) && f.info == InfoOf(fs[i], i)
    ensures Infos(list + [f]) == FieldInfosUpTo(fs, i + 1)
  {
    InfosSnoc(list, f);
  }

  /** Any other struct field is skipped. */
  lemma SkipField(fs: seq<StructField>, i: nat, list: seq<Field>)
    requires i < |fs| && Infos(list) == FieldInfosUpTo(fs, i)
    requires !(fs[i].exported && !fs[i].anonymous && TagGet(fs[i].tag, "json") != "-")
    ensures Infos(list) == FieldInfosUpTo(fs, i + 1)
  {
  }

  lemma FieldsFitSnoc(table: TypeTable, ck: set<TypeId>, fk: set<TypeId>, t: TypeId, list: seq<Field>, f: Field)
    requires t in table && table[t].shape.Struct? && FieldsFit(table, ck, fk, t, list)
    requires f.info.index < |table[t].shape.fields|
    requires Fits(table, ck, fk, f.codec, table[t].shape.fields[f.info.index].typ)
    ensures FieldsFit(table, ck, fk, t, list + [f])
  {
  }

  lemma DifferenceShrinks(a: set<TypeId>, b: set<TypeId>, t: TypeId)
    requires t in a && t !in b
    ensures |a - (b + {t})| < |a - b|
  {
    assert a - b == (a - (b + {t})) + {t};
  }

  lemma DifferenceMonotone(a: set<TypeId>, b: set<TypeId>, b': set<TypeId>)
    requires b <= b'
    ensures |a - b'| <= |a - b|
  {
    assert a - b == (a - b') + ((a - b) * b');
  }

  /**
   * The two package-level caches, `codecCache` (codec.go:163) and
   * `fieldCache` (codec.go:1122), threaded through the calls that fill them.
   */
  datatype Caches = Caches(codecs: map<TypeId, Codec>, fields: map<TypeId, seq<Field>>)

  /** Both caches are empty when the program starts. */
  const Empty := Caches(map[], map[])

  /** The caches are consistent and no codec is being built. */
  ghost predicate Valid(table: TypeTable, s: Caches)
  {
    CachesFit(table, s.codecs, s.fields, {})
  }

  lemma EmptyValid(table: TypeTable)
    requires WellFormed(table)
    ensures Valid(table, Empty)
  {
  }

  /**
   * `s'` is what the caches `s` become while codecs are being built: still
   * consistent, holding at least what `s` held, with the same field list
   * for every struct type and no fewer types with a cached codec.
   */
  ghost predicate Refines(table: TypeTable, s: Caches, s': Caches, pending: set<TypeId>)
  {
    CachesFit(table, s'.codecs, s'.fields, pending) &&
    Grows(s.codecs, s.fields, s'.codecs, s'.fields) &&
    Lists(table, s'.fields) == Lists(table, s.fields) &&
    |table.Keys - s'.codecs.Keys| <= |table.Keys - s.codecs.Keys|
  }

  lemma RefinesTrans(table: TypeTable, s1: Caches, s2: Caches, s3: Caches, pending: set<TypeId>)
    requires Refines(table, s1, s2, pending) && Refines(table, s2, s3, pending)
    ensures Refines(table, s1, s3, pending)
  {
  }

  /**
   * After `i` iterations of the loop of typeFields over struct type `t`,
   * which started from the caches `s`: the caches are now `s'` and `list`
   * holds the kept fields among the first `i`, each with a codec that fits.
   */
  ghost predicate Building(table: TypeTable, s: Caches, s': Caches, t: TypeId, i: nat, list: seq<Field>, pending: set<TypeId>)
  {
    t in table && table[t].shape.Struct? && i <= |table[t].shape.fields| &&
    Refines(table, s, s', pending) &&
    Infos(list) == FieldInfosUpTo(table[t].shape.fields, i) &&
    FieldsFit(table, s'.codecs.Keys, s'.fields.Keys, t, list)
  }

  lemma BuildingStarts(table: TypeTable, s: Caches, t: TypeId, pending: set<TypeId>)
    requires CachesFit(table, s.codecs, s.fields, pending) && t in table && table[t].shape.Struct?
    ensures Building(table, s, s, t, 0, [], pending)
  {
  }

  lemma BuildingEnds(table: TypeTable, s: Caches, s': Caches, t: TypeId, list: seq<Field>, pending: set<TypeId>)
    requires t in table && table[t].shape.Struct?
    requires Building(table, s, s', t, |table[t].shape.fields|, list, pending)
    ensures CachesFit(table, s'.codecs, s'.fields, pending)
    ensures Grows(s.codecs, s.fields, s'.codecs, s'.fields)
    ensures Lists(table, s'.fields) == Lists(table, s.fields)
    ensures Infos(list) == FieldInfos(table, t)
    ensures FieldsFit(table, s'.codecs.Keys, s'.fields.Keys, t, list)
  {
  }

  /** A kept field: its codec was built, turning the caches `s` into `s'`. */
  lemma KeepStep(table: TypeTable, s0: Caches, s: Caches, s': Caches, t: TypeId, i: nat, list: seq<Field>, fc: Codec, pending: set<TypeId>)
    requires Building(table, s0, s, t, i, list, pending) && i < |table[t].shape.fields|
    requires Kept(table[t].shape.fields[i])
    requires Refines(table, s, s', pending)
    requires Fits(table, s'.codecs.Keys, s'.fields.Keys, fc, table[t].shape.fields[i].typ)
    ensures Building(table, s0, s', t, i + 1, list + [Field(InfoOf(table[t].shape.fields[i], i), fc)], pending)
  {
    var fs := table[t].shape.fields;
    var f := Field(InfoOf(fs[i], i), fc);
    RefinesTrans(table, s0, s, s', pending);
    FieldsFitGrow(table, s.codecs.Keys, s.fields.Keys, s'.codecs.Keys, s'.fields.Keys, t, list);
    KeepField(fs, i, list, f);
    FieldsFitSnoc(table, s'.codecs.Keys, s'.fields.Keys, t, list, f);
  }

  /** A skipped field leaves list and caches as they are. */
  lemma SkipStep(table: TypeTable, s0: Caches, s: Caches, t: TypeId, i: nat, list: seq<Field>, pending: set<TypeId>)
    requires Building(table, s0, s, t, i, list, pending) && i < |table[t].shape.fields|
    requires !Kept(table[t].shape.fields[i])
    ensures Building(table, s0, s, t, i + 1, list, pending)
  {
    SkipField(table[t].shape.fields, i, list);
  }

  /** typeCodec (codec.go:200-225) */
  method TypeCodec(table: TypeTable, s: Caches, t: TypeId, ghost pending: set<TypeId>) returns (c: Codec, s': Caches)
    requires CachesFit(table, s.codecs, s.fields, pending) && t in table
    ensures CachesFit(table, s'.codecs, s'.fields, pending)
    ensures Grows(s.codecs, s.fields, s'.codecs, s'.fields)
    ensures Lists(table, s'.fields) == Lists(table, s.fields)
    ensures t in s'.codecs && s'.codecs[t] == c
    ensures t in s.codecs ==> c == s.codecs[t]
    ensures t !in pending ==> !c.RecursiveWrap?
    ensures Fits(table, s'.codecs.Keys, s'.fields.Keys, c, t)
    decreases |table.Keys - s.codecs.Keys|, 0
  {
    if t in s.codecs {
      return s.codecs[t], s;
    }
    AddPlaceholder(table, s.codecs, s.fields, pending, t);
    DifferenceShrinks(table.Keys, s.codecs.Keys, t);
    var s1 := Caches(s.codecs[t := RecursiveWrap(t)], s.fields);
    var s2;
    c, s2 := NewTypeCodec(table, s1, t, pending + {t});
    ReplacePlaceholder(table, s2.codecs, s2.fields, pending, t, c);
    GrowsTrans(s.codecs, s.fields, s1.codecs, s1.fields, s2.codecs, s2.fields);
    s' := Caches(s2.codecs[t := c], s2.fields);
  }

  /** newTypeCodec (codec.go:231-280), without the `ByteCoder` hooks. */
  method NewTypeCodec(table: TypeTable, s: Caches, t: TypeId, ghost pending: set<TypeId>) returns (c: Codec, s': Caches)
    requires CachesFit(table, s.codecs, s.fields, pending) && t in pending && t in table
    ensures CachesFit(table, s'.codecs, s'.fields, pending)
    ensures Grows(s.codecs, s.fields, s'.codecs, s'.fields)
    ensures Lists(table, s'.fields) == Lists(table, s.fields)
    ensures !c.RecursiveWrap? && Fits(table, s'.codecs.Keys, s'.fields.Keys, c, t)
    decreases |table.Keys - s.codecs.Keys|, 4
  {
    s' := s;
    match table[t].shape
    case Bool => c := BoolCoder;
    case Int8 => c := IntCoder(Binary.I8);
    case Int16 => c := IntCoder(Binary.I16);
    case Int32 => c := IntCoder(Binary.I32);
    case Int | Int64 => c := IntCoder(Binary.I64);
    case Uint8 => c := IntCoder(Binary.U8);
    case Uint16 => c := IntCoder(Binary.U16);
    case Uint32 => c := IntCoder(Binary.U32);
    case Uint | Uint64 | Uintptr => c := IntCoder(Binary.U64);
    case String => c := StringCoder;
    case Interface => c := InterfaceCoder;
    case Struct(_) =>
      var _, s1 := CachedTypeFields(table, s, t, pending);
      s' := s1;
      c := StructCoder(t);
    case Array(_, e) =>
      ElemType(table, t);
      var ec, s1 := TypeCodec(table, s, e, pending);
      s' := s1;
      c := ArrayCoder(ec);
    case Slice(e) =>
      ElemType(table, t);
      var ec, s1 := TypeCodec(table, s, e, pending);
      s' := s1;
      c := SliceCoder(ec);
    case Ptr(e) =>
      ElemType(table, t);
      var ec, s1 := TypeCodec(table, s, e, pending);
      s' := s1;
      c := PtrCoder(ec);
    case Unsupported => c := UnsupportedTypeCoder;
  }

  /** cachedTypeFields (codec.go:1125-1131) */
  method CachedTypeFields(table: TypeTable, s: Caches, t: TypeId, ghost pending: set<TypeId>) returns (list: seq<Field>, s': Caches)
    requires CachesFit(table, s.codecs, s.fields, pending) && t in table && table[t].shape.Struct?
    ensures CachesFit(table, s'.codecs, s'.fields, pending)
    ensures Grows(s.codecs, s.fields, s'.codecs, s'.fields)
    ensures Lists(table, s'.fields) == Lists(table, s.fields)
    ensures t in s'.fields && list == s'.fields[t] && Infos(list) == Lists(table, s.fields)[t]
    ensures t in s.fields ==> list == s.fields[t]
    decreases |table.Keys - s.codecs.Keys|, 3
  {
    if t in s.fields {
      return s.fields[t], s;
    }
    var built, s1 := TypeFields(table, s, t, pending);
    if t !in s1.fields {
      AddFields(table, s1.codecs, s1.fields, pending, t, built);
      CachingKeepsLists(table, s1.fields, t, built);
      s1 := Caches(s1.codecs, s1.fields[t := built]);
    }
    list, s' := s1.fields[t], s1;
  }

  /** typeFields (codec.go:1097-1120) */
  method TypeFields(table: TypeTable, s: Caches, t: TypeId, ghost pending: set<TypeId>) returns (list: seq<Field>, s': Caches)
    requires CachesFit(table, s.codecs, s.fields, pending) && t in table && table[t].shape.Struct?
    ensures CachesFit(table, s'.codecs, s'.fields, pending)
    ensures Grows(s.codecs, s.fields, s'.codecs, s'.fields)
    ensures Lists(table, s'.fields) == Lists(table, s.fields)
    ensures Infos(list) == FieldInfos(table, t)
    ensures FieldsFit(table, s'.codecs.Keys, s'.fields.Keys, t, list)
    decreases |table.Keys - s.codecs.Keys|, 2
  {
    var fs := table[t].shape.fields;
    list, s' := [], s;
    BuildingStarts(table, s, t, pending);
    for i := 0 to |fs|
      invariant Building(table, s, s', t, i, list, pending)
    {
      list, s' := AddField(table, s, s', t, i, list, pending);
    }
    BuildingEnds(table, s, s', t, list, pending);
  }

  /** One iteration of the loop of typeFields: field `i` of struct type `t`. */
  method AddField(table: TypeTable, ghost s0: Caches, s: Caches, t: TypeId, i: nat, list: seq<Field>, ghost pending: set<TypeId>)
    returns (list': seq<Field>, s': Caches)
    requires Building(table, s0, s, t, i, list, pending) && i < |table[t].shape.fields|
    ensures Building(table, s0, s', t, i + 1, list', pending)
    decreases |table.Keys - s.codecs.Keys|, 1
  {
    var sf := table[t].shape.fields[i];
    var tag := TagGet(sf.tag, "json");
    if sf.exported && !sf.anonymous && tag != "-" {
      var opts := ParseTag(tag);
      FieldType(table, t, i);
      var fc;
      fc, s' := TypeCodec(table, s, sf.typ, pending);
      DifferenceMonotone(table.Keys, s.codecs.Keys, s'.codecs.Keys);
      list' := list + [Field(FieldInfo(sf.name, i, opts), fc)];
      KeepStep(table, s0, s, s', t, i, list, fc, pending);
    } else {
      SkipStep(table, s0, s, t, i, list, pending);
      list', s' := list, s;
    }
  }
}
