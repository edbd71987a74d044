/**
 * The codec values `newTypeCodec` builds (codec.go:157-161, 231-280) and the
 * relation `Fits` saying that a codec is the one built for a type.
 */
module Codecs {
  import opened Wrappers
  import opened Binary
  import opened Types
  import opened StructFields

  /**
   * A struct codec names its type: its field list is the one cached for that
   * type, which it shares with the field cache (codec.go:888-891). A
   * `RecursiveWrap` is the placeholder `typeCodec` stores while the real
   * codec of that type is being built (codec.go:181-225).
   */
  datatype Codec =
    | InvalidValueCoder
    | BoolCoder
    | IntCoder(kind: IntKind)
    | StringCoder
    | InterfaceCoder
    | StructCoder(typ: TypeId)
    | ArrayCoder(elem: Codec)
    | SliceCoder(elem: Codec)
    | PtrCoder(elem: Codec)
    | UnsupportedTypeCoder
    | RecursiveWrap(typ: TypeId)

  /** A `field` of a struct codec (codec.go:725-730). */
  datatype Field = Field(info: FieldInfo, codec: Codec)

  function Infos(list: seq<Field>): (r: seq<FieldInfo>)
    ensures |r| == |list| && forall i :: 0 <= i < |list| ==> r[i] == list[i].info
  {
    seq(|list|, i requires 0 <= i < |list| => list[i].info)
  }

  lemma InfosSnoc(list: seq<Field>, f: Field)
    ensures Infos(list + [f]) == Infos(list) + [f.info]
  {
  }

  /**
   * `c` is the codec built for type `t`, given the keys of the codec cache
   * and of the field cache: it dispatches on `t`'s kind as `newTypeCodec`
   * does, and its parts are the codecs of `t`'s parts.
   */
  ghost predicate Fits(table: TypeTable, ckeys: set<TypeId>, fkeys: set<TypeId>, c: Codec, t: TypeId)
    decreases c
  {
    t in table &&
    var s := table[t].shape;
    match c
    case InvalidValueCoder => false
    case BoolCoder => s.Bool?
    case IntCoder(k) => IntKindOf(s) == Some(k)
    case StringCoder => s.String?
    case InterfaceCoder => s.Interface?
    case StructCoder(u) => u == t && s.Struct? && t in fkeys
    case ArrayCoder(e) => s.Array? && Fits(table, ckeys, fkeys, e, s.elem)
    case SliceCoder(e) => s.Slice? && Fits(table, ckeys, fkeys, e, s.elem)
    case PtrCoder(e) => s.Ptr? && Fits(table, ckeys, fkeys, e, s.elem)
    case UnsupportedTypeCoder => s.Unsupported?
    case RecursiveWrap(u) => u == t && t in ckeys
  }

  /** The caches only grow, so a codec that fits keeps fitting. */
  lemma {:induction false} FitsGrow(table: TypeTable, ck: set<TypeId>, fk: set<TypeId>, ck': set<TypeId>, fk': set<TypeId>, c: Codec, t: TypeId)
    requires Fits(table, ck, fk, c, t) && ck <= ck' && fk <= fk'
    ensures Fits(table, ck', fk', c, t)
    decreases c
  {
    match c
    case ArrayCoder(e) => FitsGrow(table, ck, fk, ck', fk', e, table[t].shape.elem);
    case SliceCoder(e) => FitsGrow(table, ck, fk, ck', fk', e, table[t].shape.elem);
    case PtrCoder(e) => FitsGrow(table, ck, fk, ck', fk', e, table[t].shape.elem);
    case _ =>
  }

  /** Each field's codec fits the type of the struct field it names. */
  ghost predicate FieldsFit(table: TypeTable, ckeys: set<TypeId>, fkeys: set<TypeId>, t: TypeId, list: seq<Field>)
    requires t in table && table[t].shape.Struct?
  {
    var fs := table[t].shape.fields;
    forall i :: 0 <= i < |list| ==>
      list[i].info.index < |fs| && Fits(table, ckeys, fkeys, list[i].codec, fs[list[i].info.index].typ)
  }

  lemma FieldsFitGrow(table: TypeTable, ck: set<TypeId>, fk: set<TypeId>, ck': set<TypeId>, fk': set<TypeId>, t: TypeId, list: seq<Field>)
    requires t in table && table[t].shape.Struct?
    requires FieldsFit(table, ck, fk, t, list) && ck <= ck' && fk <= fk'
    ensures FieldsFit(table, ck', fk', t, list)
  {
    var fs := table[t].shape.fields;
    forall i | 0 <= i < |list|
      ensures Fits(table, ck', fk', list[i].codec, fs[list[i].info.index].typ)
    {
      FitsGrow(table, ck, fk, ck', fk', list[i].codec, fs[list[i].info.index].typ);
    }
  }

  /**
   * The integer kind `typ()` reports for a codec, looking through a
   * placeholder to the codec it stands for; `None` for every other kind.
   */
  function CodecIntKind(c: Codec, codecs: map<TypeId, Codec>): Option<IntKind>
  {
    match c
    case IntCoder(k) => Some(k)
    case RecursiveWrap(u) => if u in codecs && codecs[u].IntCoder? then Some(codecs[u].kind) else None
    case _ => None
  }

  /** Two field lists that differ at most in `length` options. */
  predicate SameCodecs(a: seq<Field>, b: seq<Field>)
  {
    |a| == |b| && SameButLengths(Infos(a), Infos(b)) &&
    forall i :: 0 <= i < |a| ==> a[i].codec == b[i].codec
  }
}
