/** The lifecycle digest of a resolved signer, and the order-free comparison of target groups. */
module Digests {
  import opened Wrappers
  import opened Decimal
  import opened Encoding
  import opened Sorting
  import opened NodeSets
  import KmsImport

  /** What Digest hashes. */
  function Preimage(s: ResolvedSigner): string {
    var groups := Sort(s.targets);
    s.Identity() + "\0" + PrintInt(s.spec.replicas) + "\0" + Itoa(|groups|) + "\0" +
    NulJoin(groups) + "\0" + s.validatorGroup
  }

  /** The spec holds no NUL. */
  ghost predicate Clean(s: ResolvedSigner) {
    AllNulFree(s.Fields()) && AllNulFree(s.targets) && NulFree(s.validatorGroup)
  }

  /** The fields of the preimage; an empty group list leaves one empty field behind. */
  function DigestFields(s: ResolvedSigner): seq<string> {
    s.Fields() + Trailer(s.spec.replicas, Sort(s.targets), s.validatorGroup)
  }

  function Trailer(replicas: int, groups: seq<string>, validatorGroup: string): seq<string> {
    [PrintInt(replicas)] + ([Itoa(|groups|)] + ((if groups == [] then [""] else groups) + [validatorGroup]))
  }

  lemma TrailerJoined(replicas: int, groups: seq<string>, validatorGroup: string)
    ensures NulJoin(Trailer(replicas, groups, validatorGroup)) ==
            PrintInt(replicas) + "\0" + (Itoa(|groups|) + "\0" + (NulJoin(groups) + "\0" + validatorGroup))
  {
    var middle := if groups == [] then [""] else groups;
    var tail := middle + [validatorGroup];
    NulJoinAppend(middle, [validatorGroup]);
    NulJoinCons(Itoa(|groups|), tail);
    NulJoinCons(PrintInt(replicas), [Itoa(|groups|)] + tail);
  }

  lemma Regroup(i: string, r: string, c: string, m: string, v: string)
    ensures i + "\0" + (r + "\0" + (c + "\0" + (m + "\0" + v))) == i + "\0" + r + "\0" + c + "\0" + m + "\0" + v
  {
    assert c + "\0" + (m + "\0" + v) == c + "\0" + m + "\0" + v;
    var cmv := c + "\0" + m + "\0" + v;
    assert i + "\0" + (r + "\0" + cmv) == i + "\0" + r + "\0" + cmv;
    var ir := i + "\0" + r + "\0";
    assert ir + (c + "\0" + m + "\0" + v) == ir + c + "\0" + m + "\0" + v;
  }

  lemma PreimageIsJoined(s: ResolvedSigner)
    ensures Preimage(s) == NulJoin(DigestFields(s))
  {
    var groups := Sort(s.targets);
    TrailerJoined(s.spec.replicas, groups, s.validatorGroup);
    NulJoinAppend(s.Fields(), Trailer(s.spec.replicas, groups, s.validatorGroup));
    Regroup(s.Identity(), PrintInt(s.spec.replicas), Itoa(|groups|), NulJoin(groups), s.validatorGroup);
  }

  lemma {:induction false} CleanFields(s: ResolvedSigner)
    requires Clean(s)
    ensures AllNulFree(DigestFields(s))
  {
    var groups := Sort(s.targets);
    SortSorts(s.targets);
    PrintIntInjective(s.spec.replicas, 0);
    forall i | 0 <= i < |groups| ensures NulFree(groups[i]) {
      assert groups[i] in multiset(s.targets);
    }
    var digits := Itoa(|groups|);
    assert forall i :: 0 <= i < |digits| ==> digits[i] != '\0';
  }

  lemma TrailersAgree(r: int, groups: seq<string>, v: string, r': int, groups': seq<string>, v': string)
    requires Trailer(r, groups, v) == Trailer(r', groups', v')
    ensures r == r' && groups == groups' && v == v'
  {
    var a, b := Trailer(r, groups, v), Trailer(r', groups', v');
    PrintIntInjective(r, r');
    assert a[0] == b[0] && a[1] == b[1] && a[|a| - 1] == b[|b| - 1];
    ItoaInjective(|groups|, |groups'|);
    if groups != [] {
      assert a[2..|a| - 1] == groups && b[2..|b| - 1] == groups';
    }
  }

  // ---- One signing key ----

  /** An unset or empty value stands for its default. */
  function Effective(value: Option<string>, default: string): string {
    if value.Some? && value.value != "" then value.value else default
  }

  /** The two signers sign with one key: every coordinate of one kind of backend agrees. */
  predicate SameSigningKey(s: ResolvedSigner, t: ResolvedSigner) {
    match (s.spec.backend, t.spec.backend)
    case (Vault(a, n, m, k, v, _), Vault(a', n', m', k', v', _)) =>
      && a == a' && k == k' && Effective(n, "") == Effective(n', "")
      && Effective(m, "transit") == Effective(m', "transit")
      && (if v.Some? then v.value else 1) == (if v'.Some? then v'.value else 1)
    case (GcpKms(v, d), GcpKms(v', d')) =>
      if d.Some? && d'.Some? then KmsImport.SameDestination(d.value, d'.value)
      else d.None? && d'.None? && v == v'
    case (Software(_), Software(_)) => s.keySecret == t.keySecret
    case _ => false
  }

  lemma FieldsExact(s: ResolvedSigner, t: ResolvedSigner)
    ensures s.Fields() == t.Fields() <==> SameSigningKey(s, t)
  {
    var a, b := s.Fields(), t.Fields();
    if s.spec.backend.Vault? && t.spec.backend.Vault? {
      PrintIntInjective(s.spec.backend.version.GetOr(1), t.spec.backend.version.GetOr(1));
      if a == b {
        assert a[1] == b[1] && a[2] == b[2] && a[3] == b[3] && a[4] == b[4] && a[5] == b[5];
      }
    } else if s.spec.backend.GcpKms? && t.spec.backend.GcpKms? {
      GcpFieldsExact(s, t);
    } else {
      assert a == b ==> a[0] == b[0] && a[1] == b[1];
      if !(s.spec.backend.Software? && t.spec.backend.Software?) {
        TagsDiffer(s, t);
      }
    }
  }

  lemma GcpFieldsExact(s: ResolvedSigner, t: ResolvedSigner)
    requires s.spec.backend.GcpKms? && t.spec.backend.GcpKms?
    ensures s.Fields() == t.Fields() <==> SameSigningKey(s, t)
  {
    var a, b := s.Fields(), t.Fields();
    var d, e := s.spec.backend.managed, t.spec.backend.managed;
    if d.Some? && e.Some? {
      KmsImport.ImportIdentityExact(d.value, e.value);
      assert KmsImport.ImportIdentity(d.value) == a[1..] && KmsImport.ImportIdentity(e.value) == b[1..];
    } else if d.None? && e.None? {
      assert a == b ==> a[1] == b[1];
    } else {
      assert |a| != |b|;
    }
  }

  lemma TagsDiffer(s: ResolvedSigner, t: ResolvedSigner)
    requires s.spec.backend.Vault? != t.spec.backend.Vault? || s.spec.backend.Software? != t.spec.backend.Software?
    ensures s.Fields()[0] != t.Fields()[0]
  {
    assert "vault"[0] == 'v' && "gcpkms"[0] == 'g' && "gcpkms-import"[0] == 'g' && "software"[0] == 's';
  }

  /** Identities agree exactly when the keys are the same, whatever kind of backend holds them. */
  lemma IdentitiesAgree(s: ResolvedSigner, t: ResolvedSigner)
    requires AllNulFree(s.Fields()) && AllNulFree(t.Fields())
    ensures s.Identity() == t.Identity() <==> SameSigningKey(s, t)
  {
    FieldsExact(s, t);
    if s.Identity() == t.Identity() {
      NulJoinInjective(s.Fields(), t.Fields());
    }
  }

  /**
  Two resolved signers have the same digest preimage exactly when key, replica count and served
  validator group agree and their target groups are the same up to order.
  */
  lemma PreimagesAgree(s: ResolvedSigner, t: ResolvedSigner)
    requires Clean(s) && Clean(t)
    ensures Preimage(s) == Preimage(t) <==>
            && SameSigningKey(s, t) && s.spec.replicas == t.spec.replicas
            && s.validatorGroup == t.validatorGroup && multiset(s.targets) == multiset(t.targets)
  {
    SortCanonical(s.targets, t.targets);
    IdentitiesAgree(s, t);
    if Preimage(s) == Preimage(t) {
      PreimageIsJoined(s);
      PreimageIsJoined(t);
      CleanFields(s);
      CleanFields(t);
      var a, b := DigestFields(s), DigestFields(t);
      NulJoinInjective(a, b);
      assert s.Fields()[0] == a[0] && t.Fields()[0] == b[0];
      IdentityShape(s.spec.backend, s.keySecret, t.spec.backend, t.keySecret);
      var n := |s.Fields()|;
      assert s.Fields() == a[..n] && t.Fields() == b[..n];
      TrailersAgree(s.spec.replicas, Sort(s.targets), s.validatorGroup,
                    t.spec.replicas, Sort(t.targets), t.validatorGroup) by {
        assert Trailer(s.spec.replicas, Sort(s.targets), s.validatorGroup) == a[n..];
        assert Trailer(t.spec.replicas, Sort(t.targets), t.validatorGroup) == b[n..];
      }
    }
  }

  function Count(counts: map<string, int>, g: string): int {
    if g in counts then counts[g] else 0
  }

  method CountGroups(a: seq<string>) returns (counts: map<string, int>)
    ensures forall g :: Count(counts, g) == multiset(a)[g]
  {
    counts := map[];
    for i := 0 to |a|
      invariant forall g :: Count(counts, g) == multiset(a[..i])[g]
    {
      assert a[..i + 1] == a[..i] + [a[i]];
      counts := counts[a[i] := Count(counts, a[i]) + 1];
    }
    assert a[..|a|] == a;
  }

  /** equalGroupMultiset: counts up over one list and down over the other. */
  method EqualGroupMultiset(a: seq<string>, b: seq<string>) returns (equal: bool)
    ensures equal <==> multiset(a) == multiset(b)
  {
    if |a| != |b| {
      assert |multiset(a)| == |a| && |multiset(b)| == |b|;
      return false;
    }
    var counts := CountGroups(a);
    for i := 0 to |b|
      invariant forall g :: Count(counts, g) + multiset(b[..i])[g] == multiset(a)[g]
      invariant forall g :: Count(counts, g) >= 0
    {
      assert b[..i + 1] == b[..i] + [b[i]];
      assert b == b[..i + 1] + b[i + 1..];
      if Count(counts, b[i]) == 0 {
        assert multiset(b)[b[i]] == multiset(b[..i + 1])[b[i]] + multiset(b[i + 1..])[b[i]];
        return false;
      }
      counts := counts[b[i] := Count(counts, b[i]) - 1];
    }
    assert b[..|b|] == b;
    ContainedSameSize(multiset(b), multiset(a));
    return true;
  }

  lemma ContainedSameSize(x: multiset<string>, y: multiset<string>)
    requires x <= y && |x| == |y|
    ensures x == y
  {
    assert |y - x| == |y| - |x|;
    assert y == x + (y - x);
  }
}
