/** The hash that ties a live ConfigMap to the StatefulSet rendered from it, stated on what is hashed. */
module ConfigHash {
  import opened Wrappers
  import opened Decimal
  import opened Encoding
  import opened Sorting

  type Data = map<string, string>

  const CONFIG_FILE := "config.yaml"

  // ---- The length-prefixed payload ----

  function Sized(s: string): string { Itoa(|s|) + ":" + s }

  function Entry(key: string, value: string): string { Sized(key) + Sized(value) }

  ghost function Entries(keys: seq<string>, data: Data): string
    requires forall i :: 0 <= i < |keys| ==> keys[i] in data
  {
    if keys == [] then ""
    else Entries(keys[..|keys| - 1], data) + Entry(keys[|keys| - 1], data[keys[|keys| - 1]])
  }

  /** Some listing of a set. */
  ghost function Listing(s: set<string>): (l: seq<string>)
    ensures multiset(l) == multiset(s)
  {
    if s == {} then []
    else
      var k :| k in s;
      Listing(s - {k}) + [k]
  }

  ghost function SortedKeys(data: Data): (keys: seq<string>)
    ensures Sorted(keys) && multiset(keys) == multiset(data.Keys)
    ensures forall i :: 0 <= i < |keys| ==> keys[i] in data
  {
    var l := Listing(data.Keys);
    SortSorts(l);
    assert forall i :: 0 <= i < |Sort(l)| ==> Sort(l)[i] in multiset(data.Keys);
    Sort(l)
  }

  ghost function Payload(data: Data): string {
    Entries(SortedKeys(data), data)
  }

  /** What is hashed: a lone config.yaml as it is, anything else length-prefixed. */
  ghost function Hashed(data: Data): string {
    if IsSingle(data) then data[CONFIG_FILE] else Payload(data)
  }

  predicate IsSingle(data: Data) {
    |data| == 1 && CONFIG_FILE in data
  }

  /** Collects the keys, in whatever order the map yields them. */
  method CollectKeys(data: Data) returns (keys: seq<string>)
    ensures multiset(keys) == multiset(data.Keys)
  {
    keys := [];
    var rest := data.Keys;
    while rest != {}
      invariant rest <= data.Keys && multiset(keys) + multiset(rest) == multiset(data.Keys)
      decreases |rest|
    {
      var key :| key in rest;
      keys, rest := keys + [key], rest - {key};
    }
  }

  /** configDataHash up to the hash function: sorts the keys and appends the entries. */
  method HashedText(data: Data) returns (text: string)
    ensures text == Hashed(data)
  {
    if |data| == 1 && CONFIG_FILE in data {
      return data[CONFIG_FILE];
    }
    var keys := CollectKeys(data);
    SortSorts(keys);
    keys := Sort(keys);
    SortedUnique(keys, SortedKeys(data));
    text := "";
    for i := 0 to |keys|
      invariant text == Entries(keys[..i], data)
    {
      assert keys[..i + 1][..i] == keys[..i];
      text := text + Entry(keys[i], data[keys[i]]);
    }
    assert keys[..|keys|] == keys;
  }

  // ---- Decoding ----

  ghost function EntriesForward(keys: seq<string>, data: Data): string
    requires forall i :: 0 <= i < |keys| ==> keys[i] in data
  {
    if keys == [] then ""
    else Entry(keys[0], data[keys[0]]) + EntriesForward(keys[1..], data)
  }

  lemma Associative(a: string, b: string, c: string)
    ensures a + (b + c) == a + b + c
  {
  }

  lemma {:induction false} ForwardSnoc(keys: seq<string>, data: Data, last: string)
    requires last in data && forall i :: 0 <= i < |keys| ==> keys[i] in data
    ensures EntriesForward(keys + [last], data) == EntriesForward(keys, data) + Entry(last, data[last])
  {
    if keys == [] {
      assert ([last])[1..] == [];
    } else {
      ForwardSnoc(keys[1..], data, last);
      assert (keys + [last])[1..] == keys[1..] + [last];
      Associative(Entry(keys[0], data[keys[0]]), EntriesForward(keys[1..], data), Entry(last, data[last]));
    }
  }

  lemma {:induction false} SameEntries(keys: seq<string>, data: Data)
    requires forall i :: 0 <= i < |keys| ==> keys[i] in data
    ensures Entries(keys, data) == EntriesForward(keys, data)
  {
    if keys != [] {
      SameEntries(keys[..|keys| - 1], data);
      ForwardSnoc(keys[..|keys| - 1], data, keys[|keys| - 1]);
      assert keys == keys[..|keys| - 1] + [keys[|keys| - 1]];
    }
  }

  /** A length-prefixed string shows where it ends. */
  lemma SizedSplits(a: string, x: string, b: string, y: string)
    requires Sized(a) + x == Sized(b) + y
    ensures a == b && x == y
  {
    assert Sized(a) + x == Itoa(|a|) + [':'] + (a + x);
    assert Sized(b) + y == Itoa(|b|) + [':'] + (b + y);
    assert forall n: nat, i :: 0 <= i < |Itoa(n)| ==> Itoa(n)[i] != ':';
    FirstField(':', Itoa(|a|), a + x, Itoa(|b|), b + y);
    ItoaInjective(|a|, |b|);
    assert a == (a + x)[..|a|] && b == (b + y)[..|b|];
    assert x == (a + x)[|a|..] && y == (b + y)[|b|..];
  }

  lemma EntrySplits(k: string, v: string, x: string, k': string, v': string, x': string)
    requires Entry(k, v) + x == Entry(k', v') + x'
    ensures k == k' && v == v' && x == x'
  {
    assert Entry(k, v) + x == Sized(k) + (Sized(v) + x);
    assert Entry(k', v') + x' == Sized(k') + (Sized(v') + x');
    SizedSplits(k, Sized(v) + x, k', Sized(v') + x');
    SizedSplits(v, x, v', x');
  }

  lemma {:induction false} EntriesSplit(keys: seq<string>, data: Data, keys': seq<string>, data': Data)
    requires forall i :: 0 <= i < |keys| ==> keys[i] in data
    requires forall i :: 0 <= i < |keys'| ==> keys'[i] in data'
    requires EntriesForward(keys, data) == EntriesForward(keys', data')
    ensures keys == keys' && forall i :: 0 <= i < |keys| ==> data[keys[i]] == data'[keys[i]]
  {
    if keys != [] && keys' != [] {
      EntrySplits(keys[0], data[keys[0]], EntriesForward(keys[1..], data),
                  keys'[0], data'[keys'[0]], EntriesForward(keys'[1..], data'));
      EntriesSplit(keys[1..], data, keys'[1..], data');
      assert keys == [keys[0]] + keys[1..] && keys' == [keys'[0]] + keys'[1..];
    }
  }

  /** The length-prefixed payload determines the whole map. */
  lemma PayloadInjective(data: Data, data': Data)
    requires Payload(data) == Payload(data')
    ensures data == data'
  {
    var keys, keys' := SortedKeys(data), SortedKeys(data');
    SameEntries(keys, data);
    SameEntries(keys', data');
    EntriesSplit(keys, data, keys', data');
    forall k ensures (k in data <==> k in keys) && (k in data' <==> k in keys) {
      KeysListed(data, k);
      KeysListed(data', k);
    }
    SameListing(keys, data, data');
  }

  lemma SameListing(keys: seq<string>, data: Data, data': Data)
    requires forall k :: (k in data <==> k in keys) && (k in data' <==> k in keys)
    requires forall i :: 0 <= i < |keys| ==> keys[i] in data && keys[i] in data' && data[keys[i]] == data'[keys[i]]
    ensures data == data'
  {
    assert data.Keys == data'.Keys;
  }

  lemma KeysListed(data: Data, k: string)
    ensures k in data <==> k in SortedKeys(data)
  {
    assert k in data <==> k in multiset(data.Keys);
  }

  lemma PayloadStartsWithDigit(data: Data)
    requires data != map[]
    ensures Payload(data) != "" && IsDigit(Payload(data)[0])
  {
    var keys := SortedKeys(data);
    var k :| k in data;
    KeysListed(data, k);
    SameEntries(keys, data);
    assert EntriesForward(keys, data)[0] == Itoa(|keys[0]|)[0];
  }

  // ---- Rendering and recovery ----

  /** A rendered configuration begins with its first field, chain_id. */
  predicate IsRendered(yaml: string) {
    yaml != "" && yaml[0] == 'c'
  }

  function PodFile(name: string, ordinal: nat): string {
    name + "-" + Itoa(ordinal) + ".yaml"
  }

  /** A signer configuration: whether the pod bootstraps raft, and everything else. */
  datatype Config = Config(bootstrap: bool, rest: string)

  /** The YAML library: what it renders it parses back. */
  datatype Yaml = Yaml(render: Config -> string, parse: string -> Option<Config>)

  ghost predicate RoundTrips(y: Yaml) {
    forall c :: y.parse(y.render(c)) == Some(c)
  }

  datatype Error = BadConfig

  /**
  configData: one file for a single replica; otherwise one more file per pod. The configuration of every
  pod is the rendered one, except that only ordinal 0 may bootstrap raft.
  */
  method ConfigData(y: Yaml, name: string, replicas: nat, yaml: string) returns (r: Result<Data, Error>)
    ensures r.Err? <==> replicas > 1 && y.parse(yaml).None?
    ensures r.Ok? ==> CONFIG_FILE in r.value && r.value[CONFIG_FILE] == yaml && (IsSingle(r.value) <==> replicas <= 1)
    ensures r.Ok? ==> forall k :: k in r.value <==>
              k == CONFIG_FILE || (replicas > 1 && exists i: nat :: i < replicas && k == PodFile(name, i))
    ensures r.Ok? && replicas > 1 ==> r.value[PodFile(name, 0)] == yaml
    ensures r.Ok? && replicas > 1 && RoundTrips(y) ==> forall i: nat :: i < replicas ==>
              var c := y.parse(yaml).value;
              y.parse(r.value[PodFile(name, i)]) == Some(c.(bootstrap := c.bootstrap && i == 0))
  {
    var data := map[CONFIG_FILE := yaml];
    if replicas <= 1 {
      return Ok(data);
    }
    PodFilesDiffer(name, 0);
    data := data[name + "-0.yaml" := yaml];
    assert Itoa(0) == "0";
    assert PodFile(name, 0) == name + "-0.yaml";
    var parsed := y.parse(yaml);
    if parsed.None? {
      return Err(BadConfig);
    }
    var follower := y.render(parsed.value.(bootstrap := false));
    for i := 1 to replicas
      invariant forall k :: k in data <==> k == CONFIG_FILE || exists j: nat :: j < i && k == PodFile(name, j)
      invariant data[CONFIG_FILE] == yaml
      invariant forall j: nat :: j < i ==>
                  PodFile(name, j) in data && data[PodFile(name, j)] == if j == 0 then yaml else follower
    {
      PodFilesDiffer(name, i);
      data := data[PodFile(name, i) := follower];
    }
    TwoKeys(data, CONFIG_FILE, PodFile(name, 0));
    return Ok(data);
  }

  lemma TwoKeys(data: Data, a: string, b: string)
    requires a in data && b in data && a != b
    ensures |data| != 1
  {
    assert b in data.Keys - {a};
    assert |data.Keys| == |data.Keys - {a}| + 1;
  }

  /** Pod files are told apart from one another and from the shared file. */
  lemma PodFilesDiffer(name: string, i: nat)
    ensures PodFile(name, i) != CONFIG_FILE
    ensures forall j: nat :: PodFile(name, j) == PodFile(name, i) ==> j == i
  {
    var f := PodFile(name, i);
    assert IsDigit(f[|f| - 6]) by {
      var d := Itoa(i);
      assert f[|f| - 6] == d[|d| - 1];
    }
    assert CONFIG_FILE[|CONFIG_FILE| - 6] == 'g';
    forall j: nat | PodFile(name, j) == f ensures j == i {
      assert Itoa(j) == f[|name| + 1..|f| - 5];
      assert Itoa(i) == f[|name| + 1..|f| - 5];
      ItoaInjective(i, j);
    }
  }

  /**
  Recovery accepts a live ConfigMap when what is hashed agrees with what was rendered. Exactly two maps
  do: the rendered one, and, if that has several files, the single file whose text is their payload.
  */
  lemma RecoveryAccepts(rendered: Data, live: Data)
    requires CONFIG_FILE in rendered && IsRendered(rendered[CONFIG_FILE])
    ensures Hashed(live) == Hashed(rendered) <==>
            live == rendered || (!IsSingle(rendered) && live == map[CONFIG_FILE := Payload(rendered)])
  {
    assert |map[CONFIG_FILE := Payload(rendered)]| == 1;
    if Hashed(live) == Hashed(rendered) {
      PayloadStartsWithDigit(rendered);
      if IsSingle(live) {
        SingleIs(live);
        if IsSingle(rendered) {
          SingleIs(rendered);
        }
      } else if IsSingle(rendered) {
        if live != map[] {
          PayloadStartsWithDigit(live);
        }
      } else {
        PayloadInjective(live, rendered);
      }
    }
  }

  lemma SingleIs(data: Data)
    requires IsSingle(data)
    ensures data == map[CONFIG_FILE := data[CONFIG_FILE]]
  {
    assert |data.Keys| == 1;
    assert |data.Keys - {CONFIG_FILE}| == 0;
    assert data.Keys == {CONFIG_FILE};
  }

  /** A live map whose config.yaml is itself a rendered configuration is accepted only if it is the rendered one. */
  lemma RecoveryIsExact(rendered: Data, live: Data)
    requires CONFIG_FILE in rendered && IsRendered(rendered[CONFIG_FILE])
    requires CONFIG_FILE in live && IsRendered(live[CONFIG_FILE])
    ensures Hashed(live) == Hashed(rendered) <==> live == rendered
  {
    RecoveryAccepts(rendered, live);
    PayloadStartsWithDigit(rendered);
  }
}
