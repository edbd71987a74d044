/**
 * The field list of a struct codec (codec.go:725-734) and the searches
 * `findref` and `existLengthref` over it (codec.go:776-794).
 */
module StructFields {
  import opened Wrappers
  import opened Types
  import opened Tags

  /** A `field` without its codec: name, index in the struct and tag options. */
  datatype FieldInfo = FieldInfo(name: string, index: nat, opts: TagOptions)

  /** The field list of each struct type, as the struct codecs see it. */
  type FieldLists = map<TypeId, seq<FieldInfo>>

  /** `typeFields` keeps exported, non-embedded fields whose `json` tag is not "-" (codec.go:1100-1109). */
  predicate Kept(sf: StructField)
  {
    sf.exported && !sf.anonymous && TagGet(sf.tag, "json") != "-"
  }

  function InfoOf(sf: StructField, i: nat): FieldInfo
  {
    FieldInfo(sf.name, i, TagOptionsOf(TagGet(sf.tag, "json")))
  }

  /** The infos `typeFields` builds from the first `n` struct fields, in order. */
  function FieldInfosUpTo(fs: seq<StructField>, n: nat): (r: seq<FieldInfo>)
    requires n <= |fs|
    ensures forall j :: 0 <= j < |r| ==> r[j].index < n && Kept(fs[r[j].index])
  {
    if n == 0 then []
    else
      var prev := FieldInfosUpTo(fs, n - 1);
      if Kept(fs[n - 1]) then prev + [InfoOf(fs[n - 1], n - 1)] else prev
  }

  /** The list keeps the fields in struct order. */
  lemma {:induction false} FieldInfosOrdered(fs: seq<StructField>, n: nat, j: nat, k: nat)
    requires n <= |fs| && j < k < |FieldInfosUpTo(fs, n)|
    ensures FieldInfosUpTo(fs, n)[j].index < FieldInfosUpTo(fs, n)[k].index
  {
    var prev := FieldInfosUpTo(fs, n - 1);
    if k < |prev| {
      FieldInfosOrdered(fs, n - 1, j, k);
    }
  }

  /** Each entry carries the name, index and parsed `json` tag of its struct field. */
  lemma {:induction false} FieldInfosEntries(fs: seq<StructField>, n: nat, j: nat)
    requires n <= |fs| && j < |FieldInfosUpTo(fs, n)|
    ensures FieldInfosUpTo(fs, n)[j] == InfoOf(fs[FieldInfosUpTo(fs, n)[j].index], FieldInfosUpTo(fs, n)[j].index)
  {
    var prev := FieldInfosUpTo(fs, n - 1);
    if j < |prev| {
      FieldInfosEntries(fs, n - 1, j);
    }
  }

  /** Every kept field is in the list: the filter drops exactly the other fields. */
  lemma {:induction false} FieldInfosComplete(fs: seq<StructField>, n: nat, i: nat)
    requires i < n <= |fs| && Kept(fs[i])
    ensures exists j :: 0 <= j < |FieldInfosUpTo(fs, n)| && FieldInfosUpTo(fs, n)[j].index == i
  {
    var prev := FieldInfosUpTo(fs, n - 1);
    if i < n - 1 {
      FieldInfosComplete(fs, n - 1, i);
      var j :| 0 <= j < |prev| && prev[j].index == i;
      assert FieldInfosUpTo(fs, n)[j] == prev[j];
    } else {
      assert FieldInfosUpTo(fs, n)[|prev|].index == i;
    }
  }

  /** The infos of all fields of a struct type. */
  function FieldInfos(table: TypeTable, t: TypeId): seq<FieldInfo>
    requires t in table && table[t].shape.Struct?
  {
    FieldInfosUpTo(table[t].shape.fields, |table[t].shape.fields|)
  }

  /**
   * `findref`, over the first `n` entries: the last index whose `lengthref`
   * equals `key`. (Go loops forward and overwrites its result on each match,
   * which leaves the last match.)
   */
  function FindRefUpTo(list: seq<FieldInfo>, key: string, n: nat): (r: Option<nat>)
    requires n <= |list|
    ensures r.Some? ==> r.value < n && list[r.value].opts.lengthref == key &&
                        forall j :: r.value < j < n ==> list[j].opts.lengthref != key
    ensures r.None? ==> forall j :: 0 <= j < n ==> list[j].opts.lengthref != key
  {
    if n == 0 then None
    else if list[n - 1].opts.lengthref == key then Some(n - 1)
    else FindRefUpTo(list, key, n - 1)
  }

  /** `findref(f)`: `found` and `refindex` together; it compares `f`'s lengthref with each entry's lengthref (codec.go:778). */
  function FindRef(list: seq<FieldInfo>, f: FieldInfo): (r: Option<nat>)
    ensures r.Some? ==> r.value < |list|
  {
    FindRefUpTo(list, f.opts.lengthref, |list|)
  }

  /** `existLengthref(f)`: some entry's lengthref is `f`'s name (codec.go:787-794). */
  function ExistLengthref(list: seq<FieldInfo>, f: FieldInfo): (r: bool)
    ensures r <==> exists j :: 0 <= j < |list| && list[j].opts.lengthref == f.name
  {
    if |list| == 0 then false
    else if list[0].opts.lengthref == f.name then true
    else
      var rest := ExistLengthref(list[1..], f);
      assert forall j :: 1 <= j < |list| ==> list[j] == list[1..][j - 1];
      rest
  }

  /**
   * `findref` on a member of the list always finds, at or after the member
   * itself, so its "not found" error can never be raised.
   */
  lemma FindRefAlwaysFound(list: seq<FieldInfo>, i: nat)
    requires i < |list|
    ensures FindRef(list, list[i]).Some?
    ensures i <= FindRef(list, list[i]).value < |list|
    ensures list[FindRef(list, list[i]).value].opts.lengthref == list[i].opts.lengthref
  {
  }

  /** The equal lists that `list` has with only `length` options differing. */
  predicate SameButLengths(a: seq<FieldInfo>, b: seq<FieldInfo>)
  {
    |a| == |b| &&
    forall i :: 0 <= i < |a| ==>
      a[i].name == b[i].name && a[i].index == b[i].index && a[i].opts.(length := 0) == b[i].opts.(length := 0)
  }
}
