/**
 * The package's entry points: `Marshal` (encode.go:3-14), `Unmarshal`
 * (decode.go:22-37) and the error `Unmarshal` returns for an argument it
 * cannot decode into (decode.go:5-20).
 *
 * A Go `interface{}` argument is an `Option<Boxed>`: `None` is nil, else
 * its dynamic type and value. The caches Go keeps in package variables go
 * in and come out; so does the memory `Unmarshal` writes through the
 * pointer it is given.
 */
module Api {
  import opened Wrappers
  import opened Binary
  import opened Types
  import opened Tags
  import opened StructFields
  import opened Outcomes
  import opened Cursor
  import opened Codecs
  import opened Registry
  import opened EncSpec
  import opened DecSpec
  import opened Encoder
  import opened Decoder

  /** Every dynamic type an argument carries is a type of the program. */
  predicate ArgFits(table: TypeTable, arg: Option<Boxed>)
  {
    arg.Some? ==> arg.value.typ in table
  }

  /**
   * What `Marshal` returns, in terms of the field lists struct types use:
   * nothing for nil (`invalidValueCoder`, codec.go:289-290), else the
   * encoding of the dynamic value as its dynamic type, with no tag options
   * and an empty pointer track.
   */
  function Marshalled(env: Env, lists: FieldLists, heap: Heap, arg: Option<Boxed>): Outcome<seq<Byte>>
    requires WellFormed(env.table) && ArgFits(env.table, arg)
  {
    match arg
    case None => Done([])
    case Some(b) => Enc(env, lists, heap, b.typ, b.val, NoOptions, 0, {})
  }

  /**
   * `Marshal` (encode.go:3-14, with codec.go:106-109, 119-133): a fresh
   * `CodecState`, the codec of the value's type, and the bytes written, or
   * no bytes and the error.
   */
  method Marshal(env: Env, s: Caches, heap: Heap, arg: Option<Boxed>) returns (buf: seq<Byte>, err: Option<Failure>, s': Caches)
    requires WellFormed(env.table) && Valid(env.table, s) && ArgFits(env.table, arg)
    ensures Valid(env.table, s') && Grows(s.codecs, s.fields, s'.codecs, s'.fields)
    ensures Lists(env.table, s'.fields) == Lists(env.table, s.fields)
    ensures match Marshalled(env, Lists(env.table, s.fields), heap, arg)
            case Done(b) => err.None? && buf == b
            case Failed(f) => err == Some(f) && buf == []
  {
    s', err := s, None;
    buf := [];
    if arg.Some? {
      buf, err, s' := MarshalValue(env, s, heap, arg.value);
    }
  }

  /** `Marshal` of a non-nil argument: `newCodecState`, then `marshal` (encode.go:4-13, codec.go:106-109). */
  method MarshalValue(env: Env, s: Caches, heap: Heap, b: Boxed) returns (buf: seq<Byte>, err: Option<Failure>, s': Caches)
    requires WellFormed(env.table) && Valid(env.table, s) && b.typ in env.table
    ensures Valid(env.table, s') && Grows(s.codecs, s.fields, s'.codecs, s'.fields)
    ensures Lists(env.table, s'.fields) == Lists(env.table, s.fields)
    ensures match Enc(env, Lists(env.table, s.fields), heap, b.typ, b.val, NoOptions, 0, {})
            case Done(bytes) => err.None? && buf == bytes
            case Failed(f) => err == Some(f) && buf == []
  {
    var e := new CodecState.New();
    ghost var lists := Lists(env.table, s.fields);
    ListsAgree(env.table, s.fields);
    var codec, s1 := TypeCodec(env.table, s, b.typ, {});
    AgreesKept(env.table, s, s1, lists);
    err, s' := Encode(env, s1, lists, heap, e, codec, b.typ, b.val, NoOptions);
    AgreeingLists(env.table, s'.fields, s.fields);
    GrowsTrans(s.codecs, s.fields, s1.codecs, s1.fields, s'.codecs, s'.fields);
    buf := if err.None? then e.Bytes() else [];
    Written(Enc(env, lists, heap, b.typ, b.val, NoOptions, 0, {}), err, e.unread, buf);
  }

  /** The bytes a fresh state holds after an encode are what the encode wrote. */
  lemma Written(r: Outcome<seq<Byte>>, err: Option<Failure>, after: seq<Byte>, buf: seq<Byte>)
    requires match r
             case Done(b) => err.None? && after == [] + b
             case Failed(f) => err == Some(f)
    requires buf == if err.None? then after else []
    ensures match r
            case Done(bytes) => err.None? && buf == bytes
            case Failed(f) => err == Some(f) && buf == []
  {
  }

  /** Field caches that agree with the lists of other caches have those lists. */
  lemma AgreeingLists(table: TypeTable, f: map<TypeId, seq<Field>>, g: map<TypeId, seq<Field>>)
    requires Agrees(table, f, Lists(table, g))
    ensures Lists(table, f) == Lists(table, g)
  {
    var a, b := Lists(table, f), Lists(table, g);
    assert a.Keys == b.Keys;
    forall u | u in a.Keys ensures a[u] == b[u] {
    }
  }

  /** `InvalidUnmarshalError` (decode.go:5-9): the argument's type, or none for nil. */
  datatype InvalidUnmarshalError = InvalidUnmarshalError(typ: Option<TypeId>)

  /** `InvalidUnmarshalError.Error` (decode.go:11-20). */
  function ErrorText(table: TypeTable, e: InvalidUnmarshalError): (msg: string)
    requires e.typ.Some? ==> e.typ.value in table
    ensures |msg| > |"bytecodec: Unmarshal("| && msg[..|"bytecodec: Unmarshal("|] == "bytecodec: Unmarshal(" && msg[|msg| - 1] == ')'
    ensures msg == "bytecodec: Unmarshal(nil)" <==> e.typ.None?
    ensures e.typ.Some? ==> msg == "bytecodec: Unmarshal(" + (if table[e.typ.value].shape.Ptr? then "nil " else "non-pointer ")
                                   + table[e.typ.value].name + ")"
  {
    match e.typ
    case None => "bytecodec: Unmarshal(nil)"
    case Some(t) =>
      var what := if table[t].shape.Ptr? then "nil " else "non-pointer ";
      TypedText(what, table[t].name);
      "bytecodec: Unmarshal(" + what + table[t].name + ")"
  }

  /** The text for a type differs from the text for no type at the fourth character after the parenthesis. */
  lemma TypedText(what: string, name: string)
    requires what == "nil " || what == "non-pointer "
    ensures var msg := "bytecodec: Unmarshal(" + what + name + ")";
      |msg| > 22 && msg[..21] == "bytecodec: Unmarshal(" && msg[|msg| - 1] == ')' && msg != "bytecodec: Unmarshal(nil)"
  {
    var prefix := "bytecodec: Unmarshal(";
    var msg := prefix + what + name + ")";
    assert |prefix| == 21;
    assert msg[24] == what[3] != ')';
    assert "bytecodec: Unmarshal(nil)"[24] == ')';
    assert msg[..21] == prefix;
  }

  /**
   * The argument check of `Unmarshal` (decode.go:23-26): anything but a
   * non-nil pointer is refused with its type.
   */
  function InvalidArgument(table: TypeTable, arg: Option<Boxed>): (r: Option<InvalidUnmarshalError>)
    requires ArgFits(table, arg)
    ensures r.None? <==> arg.Some? && table[arg.value.typ].shape.Ptr? && arg.value.val != VPtr(None)
    ensures r.Some? ==> r.value.typ == if arg.Some? then Some(arg.value.typ) else None
  {
    match arg
    case None => Some(InvalidUnmarshalError(None))
    case Some(b) =>
      if table[b.typ].shape.Ptr? && b.val != VPtr(None) then None else Some(InvalidUnmarshalError(Some(b.typ)))
  }

  /**
   * The text of a refused argument (decode.go:11-26): "nil" for no
   * argument, "non-pointer T" for a value of a non-pointer type T, and
   * "nil T" for a nil pointer of type T.
   */
  lemma RefusalText(table: TypeTable, arg: Option<Boxed>)
    requires ArgFits(table, arg)
    ensures var r := InvalidArgument(table, arg);
      r.Some? ==>
        (arg.None? ==> ErrorText(table, r.value) == "bytecodec: Unmarshal(nil)") &&
        (arg.Some? && !table[arg.value.typ].shape.Ptr? ==>
           ErrorText(table, r.value) == "bytecodec: Unmarshal(non-pointer " + table[arg.value.typ].name + ")") &&
        (arg.Some? && table[arg.value.typ].shape.Ptr? ==>
           arg.value.val == VPtr(None) && ErrorText(table, r.value) == "bytecodec: Unmarshal(nil " + table[arg.value.typ].name + ")")
  {
    match arg
    case None =>
    case Some(b) =>
      assert InvalidArgument(table, arg) == if table[b.typ].shape.Ptr? && b.val != VPtr(None) then None else Some(InvalidUnmarshalError(Some(b.typ)));
  }

  /**
   * What decoding `data` through an accepted pointer leaves behind: the
   * pointer's codec on a `CodecState` holding `data`, with no tag options, a
   * destination that is not settable (`reflect.ValueOf` of the argument) and
   * an empty pointer track. Bytes left unread are no error.
   */
  function Unmarshalled(env: Env, lists: FieldLists, fuel: nat, data: seq<Byte>, arg: Option<Boxed>, mem: Memory): Outcome<DState>
    requires WellFormed(env.table) && ArgFits(env.table, arg) && InvalidArgument(env.table, arg).None?
  {
    var b := arg.value;
    var d :- Dec(env, fuel, b.typ, b.val, NoOptions, false, DState(data, mem, lists), 0, {});
    Done(d.1)
  }

  /**
   * `Unmarshal` (decode.go:22-37, with codec.go:111-133): the argument
   * check, then the decode. `fuel` bounds the decode as in `DecSpec`.
   */
  method Unmarshal(env: Env, s: Caches, data: seq<Byte>, arg: Option<Boxed>, mem: Memory, fuel: nat)
    returns (invalid: Option<InvalidUnmarshalError>, err: Option<Failure>, mem': Memory, s': Caches)
    requires WellFormed(env.table) && Valid(env.table, s) && ArgFits(env.table, arg)
    ensures invalid == InvalidArgument(env.table, arg)
    ensures Stays(env.table, s, s')
    ensures invalid.Some? ==> err.None? && mem' == mem && s' == s
    ensures invalid.None? ==>
      match Unmarshalled(env, Lists(env.table, s.fields), fuel, data, arg, mem)
      case Done(st) => err.None? && mem' == st.mem && Agrees(env.table, s'.fields, st.lists)
      case Failed(f) => err == Some(f)
  {
    invalid := InvalidArgument(env.table, arg);
    err, mem', s' := None, mem, s;
    if invalid.None? {
      err, mem', s' := UnmarshalInto(env, s, data, arg.value, mem, fuel);
    }
  }

  /** `Unmarshal` past the argument check (decode.go:28-36). */
  method UnmarshalInto(env: Env, s: Caches, data: seq<Byte>, b: Boxed, mem: Memory, fuel: nat)
    returns (err: Option<Failure>, mem': Memory, s': Caches)
    requires WellFormed(env.table) && Valid(env.table, s) && ArgFits(env.table, Some(b))
    requires InvalidArgument(env.table, Some(b)).None?
    ensures Stays(env.table, s, s')
    ensures match Unmarshalled(env, Lists(env.table, s.fields), fuel, data, Some(b), mem)
            case Done(st) => err.None? && mem' == st.mem && Agrees(env.table, s'.fields, st.lists)
            case Failed(f) => err == Some(f)
  {
    ghost var lists := Lists(env.table, s.fields);
    ListsAgree(env.table, s.fields);
    var codec, s1 := TypeCodec(env.table, s, b.typ, {});
    AgreesKept(env.table, s, s1, lists);
    GrowsStays(env.table, s, s1);
    var d := new CodecState.New();
    d.Write(data);
    assert d.unread == data && d.pt.level == 0 && d.pt.seen == {};
    var v';
    ghost var lists';
    err, v', mem', s', lists' := Decode(env, s1, lists, d, codec, b.typ, b.val, NoOptions, false, fuel, mem);
    StaysTrans(env.table, s, s1, s');
    UnmarshalledSound(env, lists, fuel, data, b, mem, err, v', d.unread, mem', s'.fields, lists', d.pt.level, d.pt.seen);
  }

  /** A decode that did what `Dec` says did what `Unmarshalled` says. */
  lemma UnmarshalledSound(env: Env, lists: FieldLists, fuel: nat, data: seq<Byte>, b: Boxed, mem: Memory,
                          err: Option<Failure>, v': Value, unread': seq<Byte>, mem': Memory,
                          fields': map<TypeId, seq<Field>>, lists': FieldLists, level': nat, seen': set<(TypeId, Addr)>)
    requires WellFormed(env.table) && ArgFits(env.table, Some(b)) && InvalidArgument(env.table, Some(b)).None?
    requires DSound(env.table, Dec(env, fuel, b.typ, b.val, NoOptions, false, DState(data, mem, lists), 0, {}),
                    err, v', unread', mem', fields', lists', 0, level', {}, seen')
    ensures match Unmarshalled(env, lists, fuel, data, Some(b), mem)
            case Done(st) => err.None? && mem' == st.mem && Agrees(env.table, fields', st.lists)
            case Failed(f) => err == Some(f)
  {
  }
}
