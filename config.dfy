/** `ProjectConfig.parse`: turning the S-expression list of an `.ensime` file into a dictionary
    with string keys, and the read-only mapping built on it. */
module Config {
  import opened Wrappers
  import opened Sexps

  /** A dictionary value: a datum stored as it was read, or a one-element list holding the
      dictionary made of a nested property list (a one-element Python list holding that dictionary). */
  datatype Value =
    | Atom(datum: Sexp)
    | Nested(section: map<string, Value>)

  /** `paired`: consecutive elements taken two at a time; a trailing odd element is dropped. */
  function Paired<T>(s: seq<T>): (r: seq<(T, T)>)
    ensures |r| == |s| / 2
    ensures forall i {:trigger r[i]} :: 0 <= i < |r| ==> r[i] == (s[2 * i], s[2 * i + 1])
  {
    if |s| < 2 then [] else [(s[0], s[1])] + Paired(s[2..])
  }

  /** Whether a value is a non-empty list whose head is a list: such a value is converted
      recursively, keeping only its head. */
  predicate NestsSection(v: Sexp)
  {
    v.List? && |v.items| > 0 && v.items[0].List?
  }

  /** The value stored for one pair. */
  function Convert(v: Sexp): Value
    decreases v, 0
  {
    if NestsSection(v) then
      var head := v.items[0];
      assert head == List(head.items);
      Nested(ToDict(head.items))
    else Atom(v)
  }

  /** The normalised key and the converted value of pair `j`. */
  function Entry(sexps: seq<Sexp>, j: nat): (string, Value)
    requires j < |sexps| / 2
    decreases List(sexps), 1
  {
    var p := Paired(sexps)[j];
    assert p.1 == sexps[2 * j + 1];
    (NormKey(p.0), Convert(p.1))
  }

  /** The entries of all pairs, in order. */
  function Entries(sexps: seq<Sexp>): (es: seq<(string, Value)>)
    ensures |es| == |sexps| / 2
    decreases List(sexps), 2
  {
    seq(|sexps| / 2, j requires 0 <= j < |sexps| / 2 => Entry(sexps, j))
  }

  /** Assigning entries in order into an empty dictionary: a later entry overwrites an earlier
      one with the same key. */
  function Assign<V>(es: seq<(string, V)>): map<string, V>
  {
    if es == [] then map[] else Assign(es[..|es| - 1])[es[|es| - 1].0 := es[|es| - 1].1]
  }

  /** `sexp2dict` as a function. */
  function ToDict(sexps: seq<Sexp>): map<string, Value>
    decreases List(sexps), 3
  {
    Assign(Entries(sexps))
  }

  /** The normalised keys of all pairs. */
  function KeySet(sexps: seq<Sexp>): set<string>
  {
    set p | p in Paired(sexps) :: NormKey(p.0)
  }

  /** A nested property list is converted through its head; any other value is kept. */
  lemma ConvertCases(v: Sexp)
    ensures NestsSection(v) ==> Convert(v) == Nested(ToDict(v.items[0].items))
    ensures !NestsSection(v) ==> Convert(v) == Atom(v)
  {
  }

  /** Both halves of a pair come from the paired sequence. */
  lemma PairedFrom<T>(s: seq<T>, i: nat)
    requires i < |s| / 2
    ensures Paired(s)[i].0 in s && Paired(s)[i].1 in s
  {
    assert Paired(s)[i] == (s[2 * i], s[2 * i + 1]);
  }

  /** Entry `j` is pair `j`'s normalised key with its converted value. */
  lemma EntriesAt(sexps: seq<Sexp>, j: nat)
    requires j < |sexps| / 2
    ensures Entries(sexps)[j] == (NormKey(Paired(sexps)[j].0), Convert(Paired(sexps)[j].1))
  {
    assert Entries(sexps)[j] == Entry(sexps, j);
    assert Paired(sexps)[j].1 == sexps[2 * j + 1];
  }

  /** One more entry extends the dictionary by that entry. */
  lemma AssignNext<V>(es: seq<(string, V)>, i: nat)
    requires i < |es|
    ensures Assign(es[..i + 1]) == Assign(es[..i])[es[i].0 := es[i].1]
  {
    assert es[..i + 1][..i] == es[..i];
  }

  /** `sexp2dict`: fills a dictionary pair by pair. */
  method Sexp2Dict(sexps: seq<Sexp>) returns (d: map<string, Value>)
    ensures d == ToDict(sexps)
    decreases List(sexps)
  {
    d := map[];
    var pairs := Paired(sexps);
    ghost var es := Entries(sexps);
    for i := 0 to |pairs|
      invariant d == Assign(es[..i])
    {
      var key, value := pairs[i].0, pairs[i].1;
      PairedFrom(sexps, i);
      var converted := ConvertValue(value, sexps);
      EntriesAt(sexps, i);
      AssignNext(es, i);
      d := d[NormKey(key) := converted];
    }
    assert es[..|pairs|] == es;
  }

  /** The body of the loop in `sexp2dict` for one value: a nested property list is converted
      recursively, anything else is kept. The ghost `within`, the list the value was taken
      from, only serves the termination argument. */
  method ConvertValue(value: Sexp, ghost within: seq<Sexp>) returns (c: Value)
    requires value in within
    ensures c == Convert(value)
    decreases List(within), 0
  {
    ConvertCases(value);
    if value.List? && |value.items| > 0 && value.items[0].List? {
      var head := value.items[0];
      assert head == List(head.items);
      var inner := Sexp2Dict(head.items);
      c := Nested(inner);
    } else {
      c := Atom(value);
    }
  }

  /** The keys of an assignment are exactly the keys of its entries, and there are at most as
      many as entries. */
  lemma {:induction false} AssignKeys<V>(es: seq<(string, V)>)
    ensures Assign(es).Keys == set e | e in es :: e.0
    ensures |Assign(es)| <= |es|
  {
    if es != [] {
      var last := es[|es| - 1];
      AssignKeys(es[..|es| - 1]);
      assert es == es[..|es| - 1] + [last];
      assert (set e | e in es :: e.0) == (set e | e in es[..|es| - 1] :: e.0) + {last.0};
    }
  }

  /** An entry's key holds that entry's value when no later entry has the same key. */
  lemma {:induction false} AssignLastWins<V>(es: seq<(string, V)>, j: nat)
    requires j < |es|
    requires forall m :: j < m < |es| ==> es[m].0 != es[j].0
    ensures es[j].0 in Assign(es) && Assign(es)[es[j].0] == es[j].1
  {
    if j < |es| - 1 {
      var init := es[..|es| - 1];
      assert init[j] == es[j];
      AssignLastWins(init, j);
    }
  }

  /** The dictionary's key set is the set of normalised keys, so `len` counts distinct keys,
      never more than the number of pairs. */
  lemma ToDictKeys(sexps: seq<Sexp>)
    ensures ToDict(sexps).Keys == KeySet(sexps)
    ensures |ToDict(sexps)| == |KeySet(sexps)| <= |sexps| / 2
  {
    var es, pairs := Entries(sexps), Paired(sexps);
    AssignKeys(es);
    var fromEntries := set e | e in es :: e.0;
    forall k | k in KeySet(sexps) ensures k in fromEntries {
      var p :| p in pairs && NormKey(p.0) == k;
      var j :| 0 <= j < |pairs| && pairs[j] == p;
      EntriesAt(sexps, j);
      assert es[j] in es;
    }
    forall k | k in fromEntries ensures k in KeySet(sexps) {
      var e :| e in es && e.0 == k;
      var j :| 0 <= j < |es| && es[j] == e;
      EntriesAt(sexps, j);
      assert pairs[j] in pairs;
    }
    assert fromEntries == KeySet(sexps);
  }

  /** When a key repeats, the later pair wins: the entry of pair `j`'s key is made from pair
      `j`'s value when no later pair has that key. A value that is a non-empty list headed by a
      list becomes the dictionary of that head (later elements are dropped); any other value,
      including an empty list or a list of atoms, is stored unchanged. */
  lemma ToDictLastPairWins(sexps: seq<Sexp>, j: nat)
    requires j < |sexps| / 2
    requires forall m :: j < m < |sexps| / 2 ==> NormKey(sexps[2 * m]) != NormKey(sexps[2 * j])
    ensures NormKey(sexps[2 * j]) in ToDict(sexps)
    ensures var v := sexps[2 * j + 1];
      ToDict(sexps)[NormKey(sexps[2 * j])] ==
        if v.List? && |v.items| > 0 && v.items[0].List? then Nested(ToDict(v.items[0].items))
        else Atom(v)
  {
    var es, pairs := Entries(sexps), Paired(sexps);
    assert pairs[j] == (sexps[2 * j], sexps[2 * j + 1]);
    EntriesAt(sexps, j);
    forall m | j < m < |es|
      ensures es[m].0 != es[j].0
    {
      assert pairs[m].0 == sexps[2 * m];
      EntriesAt(sexps, m);
    }
    AssignLastWins(es, j);
    ConvertCases(sexps[2 * j + 1]);
  }

  /** A parsed project configuration: the canonical path of its file and the dictionary made of
      its contents. Being a value, it offers no way to assign an item. */
  datatype ProjectConfig = ProjectConfig(filepath: string, data: map<string, Value>)
  {
    /** `config[key]`; `None` stands for the `KeyError` a missing key raises. `config.get(key)`
        answers the same, with `None` as Python's default. */
    function Get(key: string): Option<Value>
    {
      if key in data then Some(data[key]) else None
    }

    /** `len(config)`: the number of distinct keys. */
    function Len(): nat
    {
      |data|
    }

    /** `repr(config)`: the class name and the quoted path. */
    function Repr(): (r: string)
      ensures |r| == |filepath| + 17
      ensures r[..15] == "ProjectConfig('" && r[|r| - 2..] == "')"
      ensures r[15..|r| - 2] == filepath
    {
      "ProjectConfig(" + Sexps.Repr(Sexp.Str(filepath)) + ")"
    }
  }

  /** Building the mapping for a file whose canonical path is `realPath` and whose contents the
      reader parsed into `parsed`; `None` stands for a reader error such as a missing closing
      bracket, which the constructor lets propagate. */
  function Load(realPath: string, parsed: Option<seq<Sexp>>): (r: Option<ProjectConfig>)
    ensures r.Some? <==> parsed.Some?
    ensures r.Some? ==> r.value.filepath == realPath
  {
    match parsed
    case None => None
    case Some(sexps) => Some(ProjectConfig(realPath, ToDict(sexps)))
  }

  /** A key can be looked up exactly when some pair normalises to it, and then gives the converted
      value of the last such pair; the length counts those keys. */
  lemma LoadedLookup(realPath: string, sexps: seq<Sexp>, key: string)
    ensures var c := Load(realPath, Some(sexps)).value;
      && (c.Get(key).Some? <==> key in KeySet(sexps))
      && c.Len() == |KeySet(sexps)| <= |sexps| / 2
  {
    ToDictKeys(sexps);
  }

  /** The value looked up under a key is the converted value of the last pair with that key. */
  lemma LoadedValue(realPath: string, sexps: seq<Sexp>, j: nat)
    requires j < |sexps| / 2
    requires forall m :: j < m < |sexps| / 2 ==> NormKey(sexps[2 * m]) != NormKey(sexps[2 * j])
    ensures Load(realPath, Some(sexps)).value.Get(NormKey(sexps[2 * j])) == Some(Convert(sexps[2 * j + 1]))
  {
    ToDictLastPairWins(sexps, j);
    ConvertCases(sexps[2 * j + 1]);
  }

  /** Two configurations print alike only when they have the same path. */
  lemma ReprDeterminesPath(a: ProjectConfig, b: ProjectConfig)
    requires a.Repr() == b.Repr()
    ensures a.filepath == b.filepath
  {
    assert a.filepath == a.Repr()[15..|a.Repr()| - 2];
  }

  /** Entry `j` of a pair keyed by the keyword symbol `:name`. */
  lemma KeywordEntry(sexps: seq<Sexp>, j: nat, name: string)
    requires j < |sexps| / 2
    requires sexps[2 * j] == Sym(":" + name)
    requires name == [] || name[0] != ':'
    ensures Entries(sexps)[j] == (name, Convert(sexps[2 * j + 1]))
  {
    EntriesAt(sexps, j);
    KeywordKey(name);
  }

  /** Entries with pairwise distinct keys make a dictionary with one key per entry. */
  lemma {:induction false} AssignDistinctSize<V>(es: seq<(string, V)>)
    requires forall i, j :: 0 <= i < j < |es| ==> es[i].0 != es[j].0
    ensures |Assign(es)| == |es|
  {
    if es != [] {
      var init, last := es[..|es| - 1], es[|es| - 1];
      AssignDistinctSize(init);
      AssignKeys(init);
      assert last.0 !in Assign(init);
    }
  }

  /** When no two pairs share a key, every pair has its own entry: each key maps to its pair's
      converted value and `len` is the number of pairs. */
  lemma ToDictDistinctKeys(sexps: seq<Sexp>)
    requires forall i, j :: 0 <= i < j < |sexps| / 2 ==> NormKey(sexps[2 * i]) != NormKey(sexps[2 * j])
    ensures |ToDict(sexps)| == |sexps| / 2
    ensures forall j :: 0 <= j < |sexps| / 2 ==>
      NormKey(sexps[2 * j]) in ToDict(sexps) && ToDict(sexps)[NormKey(sexps[2 * j])] == Convert(sexps[2 * j + 1])
  {
    var es := Entries(sexps);
    forall i, j | 0 <= i < j < |es| ensures es[i].0 != es[j].0 {
      EntriesAt(sexps, i);
      EntriesAt(sexps, j);
      assert Paired(sexps)[i].0 == sexps[2 * i] && Paired(sexps)[j].0 == sexps[2 * j];
    }
    AssignDistinctSize(es);
    forall j | 0 <= j < |sexps| / 2
      ensures NormKey(sexps[2 * j]) in ToDict(sexps)
      ensures ToDict(sexps)[NormKey(sexps[2 * j])] == Convert(sexps[2 * j + 1])
    {
      ToDictLastPairWins(sexps, j);
      ConvertCases(sexps[2 * j + 1]);
    }
  }

  /** Three entries assign their keys in order. */
  lemma AssignThree<V>(es: seq<(string, V)>)
    requires |es| == 3
    ensures Assign(es) == map[es[0].0 := es[0].1, es[1].0 := es[1].1, es[2].0 := es[2].1]
  {
    assert es[..0] == [] && es[..3] == es;
    AssignNext(es, 0);
    AssignNext(es, 1);
    AssignNext(es, 2);
  }

  /** Three pairs make the dictionary of their three entries, a later key overwriting an earlier. */
  lemma ThreePairs(k0: Sexp, v0: Sexp, k1: Sexp, v1: Sexp, k2: Sexp, v2: Sexp)
    ensures ToDict([k0, v0, k1, v1, k2, v2])
      == map[NormKey(k0) := Convert(v0), NormKey(k1) := Convert(v1), NormKey(k2) := Convert(v2)]
  {
    var conf := [k0, v0, k1, v1, k2, v2];
    var es := Entries(conf);
    EntriesAt(conf, 0);
    EntriesAt(conf, 1);
    EntriesAt(conf, 2);
    AssignThree(es);
  }

  /** The shape of the project file the configuration tests read: a name, a Scala version and a
      section of nested properties, each under a keyword symbol. Looking up the version gives its
      datum unchanged, the section becomes the dictionary of its head list (the first element Python stores),
      and the keys are the three names without their colons. */
  lemma KeywordConfigShape(name: string, version: string, section: string,
                            nameValue: Sexp, versionValue: Sexp, properties: seq<Sexp>)
    requires name != version && version != section && name != section
    requires name == [] || name[0] != ':'
    requires version == [] || version[0] != ':'
    requires section == [] || section[0] != ':'
    requires !NestsSection(nameValue) && !NestsSection(versionValue)
    ensures var c := Load("", Some([
        Sym(":" + name), nameValue,
        Sym(":" + version), versionValue,
        Sym(":" + section), List([List(properties)])])).value;
      && c.Get(version) == Some(Atom(versionValue))
      && c.Get(section) == Some(Nested(ToDict(properties)))
      && c.data.Keys == {name, version, section}
      && c.Len() == 3
  {
    var conf := [
      Sym(":" + name), nameValue,
      Sym(":" + version), versionValue,
      Sym(":" + section), List([List(properties)])];
    var d := map[name := Atom(nameValue), version := Atom(versionValue), section := Nested(ToDict(properties))];
    KeywordShapeDict(conf, name, version, section, nameValue, versionValue, properties);
    assert d.Keys == {name, version, section};
  }

  /** The dictionary of the shape above. */
  lemma KeywordShapeDict(conf: seq<Sexp>, name: string, version: string, section: string,
                         nameValue: Sexp, versionValue: Sexp, properties: seq<Sexp>)
    requires name == [] || name[0] != ':'
    requires version == [] || version[0] != ':'
    requires section == [] || section[0] != ':'
    requires !NestsSection(nameValue) && !NestsSection(versionValue)
    requires conf == [
      Sym(":" + name), nameValue,
      Sym(":" + version), versionValue,
      Sym(":" + section), List([List(properties)])]
    ensures ToDict(conf)
      == map[name := Atom(nameValue), version := Atom(versionValue), section := Nested(ToDict(properties))]
  {
    KeywordKey(name);
    KeywordKey(version);
    KeywordKey(section);
    ConvertCases(nameValue);
    ConvertCases(versionValue);
    ConvertCases(conf[5]);
    ThreePairs(conf[0], conf[1], conf[2], conf[3], conf[4], conf[5]);
  }
}
