/**
 * Field annotations (tags.go). A tag is a `;`-separated list of `key:value`
 * tokens; `parseTag` collects them into a map, later keys overriding earlier
 * ones, and then reads four keys into a `tagOptions` record.
 */
module Tags {
  import opened GoStrings
  import opened GoStrconv

  /** `tagOptions` (tags.go:8-14). */
  datatype TagOptions = TagOptions(length: int, lengthref: string, gbk: bool, gbk18030: bool, bcd: int)

  /** The options of a field without annotation: Go's zero `tagOptions{}`. */
  const NoOptions: TagOptions := TagOptions(0, "", false, false, 0)

  /** The effect of one token on the settings map (tags.go:20-24). */
  function AddToken(m: map<string, string>, token: string): map<string, string>
  {
    var s := Split(token, ':');
    if |s| < 2 then m else m[s[0] := s[1]]
  }

  /** The settings map after the tokens, processed left to right. */
  function Settings(tokens: seq<string>): map<string, string>
    decreases |tokens|
  {
    if |tokens| == 0 then map[]
    else AddToken(Settings(tokens[..|tokens| - 1]), tokens[|tokens| - 1])
  }

  /** Go's map index: the value for `k`, or "" when absent. */
  function Lookup(m: map<string, string>, k: string): string
  {
    if k in m then m[k] else ""
  }

  /** The options the keys of a settings map give (tags.go:26-46). */
  function OptionsOf(m: map<string, string>): TagOptions
  {
    var lengthText := Lookup(m, "length");
    var l := Atoi(lengthText);
    var bcd := Atoi(Lookup(m, "bcd"));
    TagOptions(
      length := if l.err != NoError then l.value else 0,
      lengthref := if l.err != NoError then "" else lengthText,
      gbk := Lookup(m, "gbk") != "",
      gbk18030 := Lookup(m, "gbk18030") != "",
      bcd := if bcd.err == NoError then bcd.value else 0)
  }

  /** What `parseTag(tag)` returns. */
  function TagOptionsOf(tag: string): TagOptions
  {
    OptionsOf(Settings(Split(tag, ';')))
  }

  /** `parseTag` (tags.go:16-48): the token loop filling `settings`, then the field assignments. */
  method ParseTag(tag: string) returns (to: TagOptions)
    ensures to == TagOptionsOf(tag)
  {
    var settings: map<string, string> := map[];
    var names := Split(tag, ';');
    var i := 0;
    while i < |names|
      invariant 0 <= i <= |names|
      invariant settings == Settings(names[..i])
    {
      var s := Split(names[i], ':');
      if |s| >= 2 {
        settings := settings[s[0] := s[1]];
      }
      assert names[..i + 1][..i] == names[..i];
      i := i + 1;
    }
    assert names[..i] == names;
    to := NoOptions;
    var lengthref := Lookup(settings, "length");
    var l := Atoi(lengthref);
    if l.err != NoError {
      to := to.(length := l.value);
    } else {
      to := to.(lengthref := lengthref);
    }
    if Lookup(settings, "gbk") != "" {
      to := to.(gbk := true);
    }
    if Lookup(settings, "gbk18030") != "" {
      to := to.(gbk18030 := true);
    }
    var bcdlength := Atoi(Lookup(settings, "bcd"));
    if bcdlength.err == NoError {
      to := to.(bcd := bcdlength.value);
    }
  }

  // ---------------------------------------------------------------------------
  // Properties of parseTag

  /** An empty tag yields the zero options. */
  lemma EmptyTag()
    ensures TagOptionsOf("") == NoOptions
  {
    assert Split("", ';') == [""];
    assert Settings([""]) == map[];
  }

  /** A token without `:` changes nothing. */
  lemma TokenWithoutColonIgnored(tokens: seq<string>, t: string)
    requires ':' !in t
    ensures Settings(tokens + [t]) == Settings(tokens)
  {
    assert (tokens + [t])[..|tokens|] == tokens;
    SplitLength(t, ':');
    CountAbsent(t, ':');
  }

  lemma {:induction false} CountAbsent(s: string, c: char)
    requires c !in s
    ensures Count(s, c) == 0
    decreases |s|
  {
    if |s| > 0 {
      assert c !in s[1..];
      CountAbsent(s[1..], c);
    }
  }

  /** Text without the separator splits into itself. */
  lemma {:induction false} SplitAbsent(t: string, c: char)
    requires c !in t
    ensures Split(t, c) == [t]
    decreases |t|
  {
    if |t| > 0 {
      assert c !in t[1..];
      SplitAbsent(t[1..], c);
      assert [t[0]] + t[1..] == t;
    }
  }

  /** A bare `gbk` or `gbk18030` token (without a value) sets nothing. */
  lemma BareGbkIgnored()
    ensures !TagOptionsOf("gbk").gbk && !TagOptionsOf("gbk18030").gbk18030
    ensures TagOptionsOf("gbk") == NoOptions && TagOptionsOf("gbk18030") == NoOptions
  {
    BareToken("gbk");
    BareToken("gbk18030");
  }

  lemma BareToken(t: string)
    requires ':' !in t && ';' !in t
    ensures TagOptionsOf(t) == NoOptions
  {
    SplitAbsent(t, ';');
    TokenWithoutColonIgnored([], t);
    assert [] + [t] == [t];
    AtoiEmpty();
  }

  /**
   * A token `k:v...` sets `k` to the text between its first and second `:`,
   * overriding any earlier value of `k`.
   */
  lemma LaterTokenOverrides(tokens: seq<string>, k: string, v: string, rest: string)
    requires ':' !in k && ':' !in v
    requires |rest| == 0 || rest[0] == ':'
    ensures Settings(tokens + [k + ":" + v + rest]) == Settings(tokens)[k := v]
  {
    var t := k + ":" + v + rest;
    assert (tokens + [t])[..|tokens|] == tokens;
    SplitPrefix(k, v, rest);
  }

  /** Splitting `k:v...` on `:` gives `k` then `v` first. */
  lemma {:induction false} SplitPrefix(k: string, v: string, rest: string)
    requires ':' !in k && ':' !in v
    requires |rest| == 0 || rest[0] == ':'
    ensures |Split(k + ":" + v + rest, ':')| >= 2
    ensures Split(k + ":" + v + rest, ':')[0] == k
    ensures Split(k + ":" + v + rest, ':')[1] == v
    decreases |k|
  {
    var t := k + ":" + v + rest;
    if |k| == 0 {
      assert t == [':'] + (v + rest);
      assert t[1..] == v + rest;
      SplitHead(v, rest);
    } else {
      assert t[1..] == k[1..] + ":" + v + rest;
      assert ':' !in k[1..];
      SplitPrefix(k[1..], v, rest);
      assert t[0] == k[0] && k[0] != ':';
      assert [k[0]] + k[1..] == k;
    }
  }

  /** The first piece of `v + rest` is `v` when `rest` is empty or starts with `:`, and starts with `v` otherwise. */
  lemma {:induction false} SplitHead(v: string, rest: string)
    requires ':' !in v
    ensures |Split(v + rest, ':')| >= 1
    ensures |rest| == 0 || rest[0] == ':' ==> Split(v + rest, ':')[0] == v
    decreases |v|
  {
    if |v| > 0 {
      assert (v + rest)[1..] == v[1..] + rest;
      assert ':' !in v[1..];
      SplitHead(v[1..], rest);
      assert [v[0]] + v[1..] == v;
    } else {
      assert v + rest == rest;
    }
  }

  /**
   * The four keys `parseTag` reads (tags.go:28-46): a `length` value that
   * parses as an integer is kept as text in `lengthref` with `length` 0,
   * any other gives `length` the value Atoi fails with (0 for a syntax
   * error); the flags are set by non-empty values; `bcd` takes a value
   * that parses and is 0 otherwise.
   */
  lemma OptionsOfKeys(m: map<string, string>)
    ensures var text := Lookup(m, "length");
      var to := OptionsOf(m);
      (Atoi(text).err == NoError ==> to.lengthref == text && to.length == 0) &&
      (Atoi(text).err == ErrSyntax ==> to.lengthref == "" && to.length == 0) &&
      (Atoi(text).err == ErrRange ==> to.lengthref == "" && to.length == Atoi(text).value && to.length != 0) &&
      (to.gbk <==> Lookup(m, "gbk") != "") && (to.gbk18030 <==> Lookup(m, "gbk18030") != "") &&
      (to.bcd == if Atoi(Lookup(m, "bcd")).err == NoError then Atoi(Lookup(m, "bcd")).value else 0)
  {
    AtoiFailureValue(Lookup(m, "length"));
  }

  /**
   * Only the keys `length`, `gbk`, `gbk18030` and `bcd` matter: a
   * `lengthref:` or `bcd8421:` token, like any other key, changes nothing.
   */
  lemma OtherKeysIgnored(m: map<string, string>, k: string, v: string)
    requires k != "length" && k != "gbk" && k != "gbk18030" && k != "bcd"
    ensures OptionsOf(m[k := v]) == OptionsOf(m)
  {
    assert Lookup(m[k := v], "length") == Lookup(m, "length");
    assert Lookup(m[k := v], "gbk") == Lookup(m, "gbk");
    assert Lookup(m[k := v], "gbk18030") == Lookup(m, "gbk18030");
    assert Lookup(m[k := v], "bcd") == Lookup(m, "bcd");
  }

  /**
   * `length:4` does not set a length: "4" parses, so it lands in
   * `lengthref` and `length` stays 0 (tags.go:28-34).
   */
  lemma NumericLengthGoesToLengthref()
    ensures TagOptionsOf("length:4") == TagOptions(0, "4", false, false, 0)
  {
    SplitAbsent("length:4", ';');
    SettingsOfLength4();
    AtoiFour();
    AtoiEmpty();
  }

  lemma SettingsOfLength4()
    ensures Settings(["length:4"]) == map["length" := "4"]
  {
    SplitPrefix("length", "4", "");
    assert "length" + ":" + "4" + "" == "length:4";
    assert ["length:4"][..0] == [];
  }

  lemma AtoiFour()
    ensures Atoi("4") == Parsed(4, NoError)
  {
    assert AllDigits("4");
    FastLoopValue("4", 0);
  }

  lemma AtoiEmpty()
    ensures Atoi("") == Parsed(0, ErrSyntax)
  {
  }
}
