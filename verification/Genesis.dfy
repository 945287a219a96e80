/** What accepted updates may do to the validators that a created genesis holds. */
module Genesis {
  import opened Wrappers
  import opened Text
  import opened Encoding
  import opened NodeSets
  import opened Admission
  import SigningKeys

  /** Go's JSON encoding: deterministic, and a NUL is always written escaped. */
  datatype Json = Json(marshalInit: GenesisInit -> string)

  ghost predicate Sound(json: Json) {
    && (forall x :: NulFree(json.marshalInit(x)) && json.marshalInit(x) != "")
    && (forall x, y :: json.marshalInit(x) == json.marshalInit(y) ==> x == y)
  }

  // ---- Fingerprints ----

  /** The fields that shape genesis apart from signing material; info is kept as its JSON text. */
  function ConfigurationFields(json: Json, v: Validator): seq<string> {
    [v.accountPrefix, v.valPrefix, v.accountHDPath, v.info.GetOr(""),
     if v.init.Some? then json.marshalInit(v.init.value) else ""]
  }

  function ConfigurationFingerprint(json: Json, v: Validator): string {
    NulJoin(ConfigurationFields(json, v))
  }

  function TmKmsFields(v: Validator): (fields: seq<string>)
    ensures fields != []
  {
    if v.tmKms.Some? && SigningKeys.Configured(v.tmKms.value)
    then ["hashicorp", v.tmKms.value.hashicorp.value.address, v.tmKms.value.hashicorp.value.key]
    else [""]
  }

  function MaterialFields(v: Validator, default: string): seq<string> {
    [v.privateKeySecret.GetOr(default)] + TmKmsFields(v)
  }

  /** genesisSigningFingerprint */
  function SigningFingerprint(json: Json, v: Validator, default: string): string {
    NulJoin([v.privateKeySecret.GetOr(default), NulJoin(TmKmsFields(v)), ConfigurationFingerprint(json, v)])
  }

  ghost predicate Clean(json: Json, v: Validator, default: string) {
    AllNulFree(MaterialFields(v, default)) && AllNulFree(ConfigurationFields(json, v))
  }

  lemma SigningFingerprintIsJoined(json: Json, v: Validator, default: string)
    ensures SigningFingerprint(json, v, default) ==
            NulJoin(MaterialFields(v, default)) + "\0" + ConfigurationFingerprint(json, v)
    ensures SigningFingerprint(json, v, default) == NulJoin(MaterialFields(v, default) + ConfigurationFields(json, v))
  {
    var secret, tm := v.privateKeySecret.GetOr(default), NulJoin(TmKmsFields(v));
    var config := ConfigurationFingerprint(json, v);
    NulJoinCons(secret, [tm, config]);
    assert [secret] + [tm, config] == [secret, tm, config];
    NulJoinCons(tm, [config]);
    assert [tm] + [config] == [tm, config];
    NulJoinCons(secret, TmKmsFields(v));
    assert secret + "\0" + (tm + "\0" + config) == secret + "\0" + tm + "\0" + config;
    NulJoinAppend(MaterialFields(v, default), ConfigurationFields(json, v));
  }

  /** The full comparison is at least as strict as the configuration-only one. */
  lemma SigningFingerprintFixesConfiguration(json: Json, v: Validator, w: Validator, default: string)
    requires Clean(json, v, default) && Clean(json, w, default)
    requires SigningFingerprint(json, v, default) == SigningFingerprint(json, w, default)
    ensures ConfigurationFingerprint(json, v) == ConfigurationFingerprint(json, w)
  {
    SigningFingerprintIsJoined(json, v, default);
    SigningFingerprintIsJoined(json, w, default);
    var a := MaterialFields(v, default) + ConfigurationFields(json, v);
    var b := MaterialFields(w, default) + ConfigurationFields(json, w);
    NulJoinInjective(a, b);
    assert ConfigurationFields(json, v) == a[|a| - 5..];
    assert ConfigurationFields(json, w) == b[|b| - 5..];
  }

  /** Equal configuration fingerprints mean equal genesis parameters. */
  lemma ConfigurationFingerprintInjective(json: Json, v: Validator, w: Validator)
    requires Sound(json) && AllNulFree(ConfigurationFields(json, v)) && AllNulFree(ConfigurationFields(json, w))
    requires v.init.Some? && w.init.Some?
    requires ConfigurationFingerprint(json, v) == ConfigurationFingerprint(json, w)
    ensures v.init == w.init && v.accountPrefix == w.accountPrefix
    ensures v.valPrefix == w.valPrefix && v.accountHDPath == w.accountHDPath
  {
    var a, b := ConfigurationFields(json, v), ConfigurationFields(json, w);
    NulJoinInjective(a, b);
    assert a[0] == b[0] && a[1] == b[1] && a[2] == b[2] && a[4] == b[4];
  }

  // ---- Refreshing a recorded fingerprint ----

  const EXTERNAL := "external"

  /** A signer targets the group, or status records one that has served it. */
  predicate Managed(ns: NodeSet, group: string) {
    || Targeted(ns, group)
    || exists i :: 0 <= i < |ns.signers| && Served(ns.signers[i], group)
  }

  predicate Served(st: SignerStatus, group: string) {
    st.servingGroup == group && st.appliedDigest != "" && st.publicKey != ""
  }

  /** GenesisSigningDigestAllowsRefresh */
  predicate AllowsRefresh(json: Json, ns: NodeSet, group: string, v: Option<Validator>, recorded: string) {
    && v.Some? && recorded != "" && recorded != EXTERNAL && Managed(ns, group)
    && HasSuffix(recorded, "\0" + ConfigurationFingerprint(json, v.value))
  }

  /** A NUL in a joined text is one of its separators. */
  lemma {:induction false} SplitAtNul(head: string, rest: string, a: seq<string>) returns (i: nat)
    requires a != [] && AllNulFree(a) && NulJoin(a) == head + "\0" + rest
    ensures 0 < i < |a| && rest == NulJoin(a[i..])
  {
    var whole := NulJoin(a);
    assert whole[|head|] == '\0';
    if |a| > 1 {
      var later := NulJoin(a[1..]);
      assert whole == a[0] + "\0" + later;
      assert forall k :: 0 <= k < |a[0]| ==> whole[k] == a[0][k];
      if |head| == |a[0]| {
        i := 1;
        assert rest == whole[|head| + 1..] && later == whole[|a[0]| + 1..];
      } else {
        var head' := head[|a[0]| + 1..];
        assert later == whole[|a[0]| + 1..] == head' + "\0" + rest;
        i := SplitAtNul(head', rest, a[1..]);
        i := i + 1;
        assert a[1..][i - 1..] == a[i..];
      }
    }
  }

  /**
  A recorded fingerprint lets the baseline be refreshed exactly when a signer is, or is recorded as, the
  group's and the genesis configuration it was taken from is the current one: matching a suffix confuses
  nothing.
  */
  lemma RefreshNeedsSameConfiguration(json: Json, ns: NodeSet, group: string, u: Validator, v: Validator,
                                      default: string)
    requires Clean(json, u, default) && AllNulFree(ConfigurationFields(json, v))
    ensures AllowsRefresh(json, ns, group, Some(v), SigningFingerprint(json, u, default)) <==>
            && (GroupCosmosigner(ns, group).Some? || exists i :: 0 <= i < |ns.signers| && Served(ns.signers[i], group))
            && ConfigurationFingerprint(json, u) == ConfigurationFingerprint(json, v)
  {
    var a, b := MaterialFields(u, default) + ConfigurationFields(json, u), ConfigurationFields(json, v);
    SigningFingerprintIsJoined(json, u, default);
    OneFieldHoldsNoNul("", a);
    OneFieldHoldsNoNul(EXTERNAL, a);
    TailIsSuffix(MaterialFields(u, default), ConfigurationFields(json, u));
    if HasSuffix(NulJoin(a), "\0" + NulJoin(b)) {
      SuffixIsTail(a, b);
      assert a[|a| - |b|..] == ConfigurationFields(json, u);
    }
  }

  lemma SuffixIsTail(a: seq<string>, b: seq<string>)
    requires |a| > |b| > 0 && AllNulFree(a) && AllNulFree(b) && HasSuffix(NulJoin(a), "\0" + NulJoin(b))
    ensures a[|a| - |b|..] == b
  {
    var whole, tail := NulJoin(a), "\0" + NulJoin(b);
    var head := whole[..|whole| - |tail|];
    assert whole == head + "\0" + NulJoin(b);
    var i := SplitAtNul(head, NulJoin(b), a);
    NulJoinInjective(a[i..], b);
  }

  lemma TailIsSuffix(front: seq<string>, b: seq<string>)
    requires front != [] && b != []
    ensures HasSuffix(NulJoin(front + b), "\0" + NulJoin(b))
  {
    var head, tail := NulJoin(front), "\0" + NulJoin(b);
    NulJoinAppend(front, b);
    assert NulJoin(front + b) == head + tail;
    assert (head + tail)[|head|..] == tail;
  }

  // ---- Updates ----

  /** The map of groups by name, where a later entry wins. */
  function GroupNamed(nodes: seq<Group>, name: string): Option<Group> {
    if nodes == [] then None
    else if nodes[|nodes| - 1].name == name then Some(nodes[|nodes| - 1])
    else GroupNamed(nodes[..|nodes| - 1], name)
  }

  predicate Initialises(v: Option<Validator>) { v.Some? && v.value.init.Some? }

  /** Whether the update changes what the group put into genesis; with a managed signer the key may change. */
  predicate Changed(json: Json, prev: NodeSet, ns: NodeSet, group: string, v: Validator, w: Validator,
                    default: string)
  {
    if Targeted(prev, group) || Targeted(ns, group)
    then ConfigurationFingerprint(json, v) != ConfigurationFingerprint(json, w)
    else SigningFingerprint(json, v, default) != SigningFingerprint(json, w, default)
  }

  predicate KeepsLegacy(json: Json, prev: NodeSet, ns: NodeSet) {
    && (Initialises(prev.validator) <==> Initialises(ns.validator))
    && (Initialises(ns.validator) ==>
          !Changed(json, prev, ns, VALIDATOR, prev.validator.value, ns.validator.value, LegacyDefaultSecret(ns)))
  }

  predicate KeepsGroup(json: Json, prev: NodeSet, ns: NodeSet, g: Group) {
    Initialises(g.validator) ==>
      var found := GroupNamed(prev.nodes, g.name);
      && found.Some? && Initialises(found.value.validator)
      && (var og, was, now := found.value, Targeted(prev, g.name), Targeted(ns, g.name);
          && !(og.instances > 1 && was != now)
          && !(g.instances > og.instances && !(was && now))
          && !(g.instances < og.instances && !(was && now && g.instances >= 1))
          && !Changed(json, prev, ns, g.name, og.validator.value, g.validator.value, DefaultSecret(ns, g.name, 0)))
  }

  predicate KeepsOld(og: Group, ns: NodeSet) {
    Initialises(og.validator) && og.instances != 0 ==>
      var found := GroupNamed(ns.nodes, og.name); found.Some? && Initialises(found.value.validator)
  }

  /** The genesis guards of an update once the chain ID is recorded. */
  predicate KeepsGenesis(json: Json, prev: NodeSet, ns: NodeSet) {
    prev.chainID != "" ==>
      && KeepsLegacy(json, prev, ns)
      && (forall i :: 0 <= i < |ns.nodes| ==> KeepsGroup(json, prev, ns, ns.nodes[i]))
      && (forall i :: 0 <= i < |prev.nodes| ==> KeepsOld(prev.nodes[i], ns))
  }

  // ---- Genesis members ----

  /** The initialising validator of a group name; the reserved name is the legacy singleton's. */
  function InitValidator(ns: NodeSet, group: string): Option<Validator> {
    if group == VALIDATOR then (if Initialises(ns.validator) then ns.validator else None)
    else
      match GroupNamed(ns.nodes, group)
      case None => None
      case Some(g) => if Initialises(g.validator) then g.validator else None
  }

  /** How many instances of the group are genesis validators: instance 0 alone behind a signer, else all. */
  function Seats(ns: NodeSet, group: string): int {
    if InitValidator(ns, group).None? then 0
    else if group == VALIDATOR || Targeted(ns, group) then 1
    else GroupNamed(ns.nodes, group).value.instances
  }

  datatype Member = Member(group: string, ordinal: nat)

  predicate IsMember(ns: NodeSet, m: Member) { m.ordinal < Seats(ns, m.group) }

  ghost predicate CleanSpec(json: Json, ns: NodeSet, name: string) {
    && (ns.validator.Some? ==> Clean(json, ns.validator.value, name + "-validator-priv-key"))
    && ns.name == name
    && forall i :: 0 <= i < |ns.nodes| && ns.nodes[i].validator.Some? ==>
        Clean(json, ns.nodes[i].validator.value, DefaultSecret(ns, ns.nodes[i].name, 0))
  }

  lemma {:induction false} GroupNamedFound(nodes: seq<Group>, name: string) returns (i: nat)
    requires GroupNamed(nodes, name).Some?
    ensures i < |nodes| && nodes[i] == GroupNamed(nodes, name).value && nodes[i].name == name
  {
    if nodes[|nodes| - 1].name == name {
      i := |nodes| - 1;
    } else {
      i := GroupNamedFound(nodes[..|nodes| - 1], name);
    }
  }

  lemma UnchangedConfiguration(json: Json, prev: NodeSet, ns: NodeSet, group: string,
                               v: Validator, w: Validator, default: string)
    requires Clean(json, v, default) && Clean(json, w, default) && !Changed(json, prev, ns, group, v, w, default)
    ensures ConfigurationFingerprint(json, v) == ConfigurationFingerprint(json, w)
  {
    if !(Targeted(prev, group) || Targeted(ns, group)) {
      SigningFingerprintFixesConfiguration(json, v, w, default);
    }
  }

  /** One accepted update keeps every seat and every configuration fingerprint. */
  lemma UpdateKeepsGenesis(json: Json, prev: NodeSet, ns: NodeSet, group: string)
    requires Accepts(prev) && Accepts(ns) && KeepsGenesis(json, prev, ns) && prev.chainID != ""
    requires CleanSpec(json, prev, ns.name) && CleanSpec(json, ns, ns.name)
    ensures Seats(prev, group) == Seats(ns, group)
    ensures InitValidator(prev, group).Some? <==> InitValidator(ns, group).Some?
    ensures InitValidator(ns, group).Some? ==>
              ConfigurationFingerprint(json, InitValidator(prev, group).value) ==
              ConfigurationFingerprint(json, InitValidator(ns, group).value)
  {
    if group == VALIDATOR {
      if Initialises(ns.validator) {
        UnchangedConfiguration(json, prev, ns, VALIDATOR, prev.validator.value, ns.validator.value,
                               LegacyDefaultSecret(ns));
      }
    } else if InitValidator(ns, group).Some? {
      var i := GroupNamedFound(ns.nodes, group);
      assert KeepsGroup(json, prev, ns, ns.nodes[i]) && AcceptsGroup(ns, ns.nodes[i]);
      var j := GroupNamedFound(prev.nodes, group);
      assert AcceptsGroup(prev, prev.nodes[j]);
      UnchangedConfiguration(json, prev, ns, group, prev.nodes[j].validator.value, ns.nodes[i].validator.value,
                             DefaultSecret(ns, group, 0));
    } else if InitValidator(prev, group).Some? {
      var j := GroupNamedFound(prev.nodes, group);
      assert AcceptsGroup(prev, prev.nodes[j]);
      assert KeepsOld(prev.nodes[j], ns);
    }
  }

  /** A run of accepted updates of one node set, the chain ID recorded throughout. */
  ghost predicate AcceptedRun(json: Json, specs: seq<NodeSet>) {
    && specs != []
    && (forall i :: 0 <= i < |specs| ==>
          Accepts(specs[i]) && CleanSpec(json, specs[i], specs[0].name) && specs[i].chainID != "")
    && (forall i :: 0 <= i < |specs| - 1 ==> KeepsGenesis(json, specs[i], specs[i + 1]))
  }

  /**
  Over every run of accepted updates after the chain ID is set, the genesis members and each one's
  configuration stay what they were, whichever comparison the individual steps made.
  */
  lemma {:induction false} GenesisIsFixed(json: Json, specs: seq<NodeSet>, n: nat, group: string)
    requires AcceptedRun(json, specs) && n < |specs|
    ensures forall k: nat :: IsMember(specs[n], Member(group, k)) <==> IsMember(specs[0], Member(group, k))
    ensures Seats(specs[n], group) == Seats(specs[0], group)
    ensures InitValidator(specs[n], group).Some? <==> InitValidator(specs[0], group).Some?
    ensures InitValidator(specs[n], group).Some? ==>
              ConfigurationFingerprint(json, InitValidator(specs[n], group).value) ==
              ConfigurationFingerprint(json, InitValidator(specs[0], group).value)
  {
    if n > 0 {
      GenesisIsFixed(json, specs, n - 1, group);
      assert KeepsGenesis(json, specs[n - 1], specs[n - 1 + 1]);
      UpdateKeepsGenesis(json, specs[n - 1], specs[n], group);
    }
  }

  lemma {:induction false} CleanMember(json: Json, ns: NodeSet, group: string)
    requires CleanSpec(json, ns, ns.name) && InitValidator(ns, group).Some?
    ensures AllNulFree(ConfigurationFields(json, InitValidator(ns, group).value))
  {
    if group != VALIDATOR {
      var i := GroupNamedFound(ns.nodes, group);
    }
  }

  /** In particular the genesis parameters and the preserved genesis validators themselves are fixed. */
  lemma GenesisParametersAreFixed(json: Json, specs: seq<NodeSet>, n: nat, group: string)
    requires Sound(json) && AcceptedRun(json, specs) && n < |specs| && InitValidator(specs[0], group).Some?
    ensures InitValidator(specs[n], group).Some?
    ensures InitValidator(specs[n], group).value.init == InitValidator(specs[0], group).value.init
  {
    GenesisIsFixed(json, specs, n, group);
    CleanMember(json, specs[0], group);
    CleanMember(json, specs[n], group);
    ConfigurationFingerprintInjective(json, InitValidator(specs[n], group).value, InitValidator(specs[0], group).value);
  }

  // ---- What the guards admit ----

  /** The genesis-shaping configuration is the same; an absent info block reads as an empty one. */
  predicate SameConfiguration(v: Validator, w: Validator) {
    && v.accountPrefix == w.accountPrefix && v.valPrefix == w.valPrefix && v.accountHDPath == w.accountHDPath
    && v.init == w.init && (v.info == w.info || {v.info, w.info} == {None, Some("")})
  }

  predicate NamesTmKmsKey(v: Validator) {
    && v.tmKms.Some? && v.tmKms.value.hashicorp.Some?
    && v.tmKms.value.hashicorp.value.address != "" && v.tmKms.value.hashicorp.value.key != ""
  }

  /** The signing material is the same: the secret, and the tmKMS key if one is named. */
  predicate SameMaterial(v: Validator, w: Validator, default: string) {
    && (if v.privateKeySecret.Some? then v.privateKeySecret.value else default) ==
       (if w.privateKeySecret.Some? then w.privateKeySecret.value else default)
    && (NamesTmKmsKey(v) <==> NamesTmKmsKey(w))
    && (NamesTmKmsKey(v) ==>
          var h, k := v.tmKms.value.hashicorp.value, w.tmKms.value.hashicorp.value;
          h.address == k.address && h.key == k.key)
  }

  lemma ConfigurationExact(json: Json, v: Validator, w: Validator)
    requires Sound(json) && AllNulFree(ConfigurationFields(json, v)) && AllNulFree(ConfigurationFields(json, w))
    ensures ConfigurationFingerprint(json, v) == ConfigurationFingerprint(json, w) <==> SameConfiguration(v, w)
  {
    var a, b := ConfigurationFields(json, v), ConfigurationFields(json, w);
    if ConfigurationFingerprint(json, v) == ConfigurationFingerprint(json, w) {
      NulJoinInjective(a, b);
      assert a[0] == b[0] && a[1] == b[1] && a[2] == b[2] && a[3] == b[3] && a[4] == b[4];
    }
    if SameConfiguration(v, w) {
      assert a == b;
    }
  }

  lemma MaterialExact(v: Validator, w: Validator, default: string)
    ensures MaterialFields(v, default) == MaterialFields(w, default) <==> SameMaterial(v, w, default)
  {
    var a, b := MaterialFields(v, default), MaterialFields(w, default);
    if a == b {
      assert |a| == |b| && a[0] == b[0];
      if NamesTmKmsKey(v) {
        assert a[2] == b[2] && a[3] == b[3];
      }
    }
  }

  lemma SigningExact(json: Json, v: Validator, w: Validator, default: string)
    requires Sound(json) && Clean(json, v, default) && Clean(json, w, default)
    ensures SigningFingerprint(json, v, default) == SigningFingerprint(json, w, default) <==>
            SameConfiguration(v, w) && SameMaterial(v, w, default)
  {
    var m, n := MaterialFields(v, default), MaterialFields(w, default);
    var c, d := ConfigurationFields(json, v), ConfigurationFields(json, w);
    SigningFingerprintIsJoined(json, v, default);
    SigningFingerprintIsJoined(json, w, default);
    MaterialExact(v, w, default);
    ConfigurationExact(json, v, w);
    if NulJoin(m + c) == NulJoin(n + d) {
      NulJoinInjective(m + c, n + d);
      assert m == (m + c)[..|m + c| - 5] && n == (n + d)[..|n + d| - 5];
      assert c == (m + c)[|m + c| - 5..] && d == (n + d)[|n + d| - 5..];
    }
    if SameConfiguration(v, w) && SameMaterial(v, w, default) {
      NulJoinInjective(c, d);
    }
  }

  /** With a signer before or after, the key may change; without one nothing may. */
  predicate ValidatorAdmitted(prev: NodeSet, ns: NodeSet, group: string, v: Validator, w: Validator, default: string) {
    SameConfiguration(v, w) && (Targeted(prev, group) || Targeted(ns, group) || SameMaterial(v, w, default))
  }

  lemma ChangedExact(json: Json, prev: NodeSet, ns: NodeSet, group: string, v: Validator, w: Validator,
                     default: string)
    requires Sound(json) && Clean(json, v, default) && Clean(json, w, default)
    ensures Changed(json, prev, ns, group, v, w, default) <==> !ValidatorAdmitted(prev, ns, group, v, w, default)
  {
    ConfigurationExact(json, v, w);
    SigningExact(json, v, w, default);
  }

  /** Behind a signer on both sides a group may be scaled; otherwise its instances, and what they are, stay. */
  predicate GroupAdmitted(prev: NodeSet, ns: NodeSet, og: Group, g: Group) {
    && og.name == g.name && Initialises(og.validator) && Initialises(g.validator)
    && ValidatorAdmitted(prev, ns, g.name, og.validator.value, g.validator.value, DefaultSecret(ns, g.name, 0))
    && (var was, now := Targeted(prev, g.name), Targeted(ns, g.name);
        (was && now) || (og.instances == g.instances && (og.instances <= 1 || was == now)))
  }

  lemma {:induction false} GroupNamedIs(nodes: seq<Group>, i: nat)
    requires UniqueNames(nodes) && i < |nodes|
    ensures GroupNamed(nodes, nodes[i].name) == Some(nodes[i])
  {
    if i < |nodes| - 1 {
      assert nodes[..|nodes| - 1][i] == nodes[i];
      GroupNamedIs(nodes[..|nodes| - 1], i);
    }
  }

  lemma KeepsGroupExact(json: Json, prev: NodeSet, ns: NodeSet, i: nat)
    requires Sound(json) && Accepts(prev) && Accepts(ns) && i < |ns.nodes|
    requires CleanSpec(json, prev, ns.name) && CleanSpec(json, ns, ns.name)
    ensures KeepsGroup(json, prev, ns, ns.nodes[i]) <==>
            (Initialises(ns.nodes[i].validator) ==>
               exists og :: og in prev.nodes && GroupAdmitted(prev, ns, og, ns.nodes[i]))
  {
    var g := ns.nodes[i];
    assert AcceptsGroup(ns, g);
    if Initialises(g.validator) {
      forall j | 0 <= j < |prev.nodes| && prev.nodes[j].name == g.name && Initialises(prev.nodes[j].validator)
        ensures GroupNamed(prev.nodes, g.name) == Some(prev.nodes[j])
        ensures KeepsGroup(json, prev, ns, g) <==> GroupAdmitted(prev, ns, prev.nodes[j], g)
      {
        GroupNamedIs(prev.nodes, j);
        ChangedExact(json, prev, ns, g.name, prev.nodes[j].validator.value, g.validator.value,
                     DefaultSecret(ns, g.name, 0));
      }
      if KeepsGroup(json, prev, ns, g) {
        var j := GroupNamedFound(prev.nodes, g.name);
        assert prev.nodes[j] in prev.nodes;
      }
      if og :| og in prev.nodes && GroupAdmitted(prev, ns, og, g) {
        var j :| 0 <= j < |prev.nodes| && prev.nodes[j] == og;
      }
    }
  }

  /** What becomes of the legacy validator. */
  predicate LegacyAdmitted(prev: NodeSet, ns: NodeSet) {
    && (Initialises(prev.validator) <==> Initialises(ns.validator))
    && (Initialises(ns.validator) ==>
          ValidatorAdmitted(prev, ns, VALIDATOR, prev.validator.value, ns.validator.value,
                            ns.name + "-validator-priv-key"))
  }

  /**
  After genesis an update is admitted exactly when the validators that initialise it are the same, each
  with its configuration, with its signing material unless a signer is in front of it before or after, and
  with its instances, and behind a signer or not as before if there are several, unless one is in front of
  it before and after.
  */
  lemma UpdatesAdmittedExactly(json: Json, prev: NodeSet, ns: NodeSet)
    requires Sound(json) && Accepts(prev) && Accepts(ns) && prev.chainID != ""
    requires CleanSpec(json, prev, ns.name) && CleanSpec(json, ns, ns.name)
    ensures KeepsGenesis(json, prev, ns) <==>
            && LegacyAdmitted(prev, ns)
            && (forall g :: g in ns.nodes && Initialises(g.validator) ==>
                  exists og :: og in prev.nodes && GroupAdmitted(prev, ns, og, g))
            && (forall og :: og in prev.nodes && Initialises(og.validator) ==>
                  exists g :: g in ns.nodes && g.name == og.name && Initialises(g.validator))
  {
    if Initialises(prev.validator) && Initialises(ns.validator) {
      ChangedExact(json, prev, ns, VALIDATOR, prev.validator.value, ns.validator.value, LegacyDefaultSecret(ns));
    }
    forall i | 0 <= i < |ns.nodes|
      ensures KeepsGroup(json, prev, ns, ns.nodes[i]) <==>
              (Initialises(ns.nodes[i].validator) ==>
                 exists og :: og in prev.nodes && GroupAdmitted(prev, ns, og, ns.nodes[i]))
    {
      KeepsGroupExact(json, prev, ns, i);
    }
    forall i | 0 <= i < |prev.nodes|
      ensures KeepsOld(prev.nodes[i], ns) <==>
              (Initialises(prev.nodes[i].validator) ==>
                 exists g :: g in ns.nodes && g.name == prev.nodes[i].name && Initialises(g.validator))
    {
      KeepsOldExact(prev, ns, i);
    }
  }

  lemma KeepsOldExact(prev: NodeSet, ns: NodeSet, i: nat)
    requires Accepts(prev) && Accepts(ns) && i < |prev.nodes|
    ensures KeepsOld(prev.nodes[i], ns) <==>
            (Initialises(prev.nodes[i].validator) ==>
               exists g :: g in ns.nodes && g.name == prev.nodes[i].name && Initialises(g.validator))
  {
    var og := prev.nodes[i];
    assert AcceptsGroup(prev, og);
    if GroupNamed(ns.nodes, og.name).Some? {
      var j := GroupNamedFound(ns.nodes, og.name);
      assert ns.nodes[j] in ns.nodes;
    }
    if g :| g in ns.nodes && g.name == og.name && Initialises(g.validator) {
      var j :| 0 <= j < |ns.nodes| && ns.nodes[j] == g;
      GroupNamedIs(ns.nodes, j);
    }
  }
}
