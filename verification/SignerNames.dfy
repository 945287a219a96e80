/** Names of a signer's replica pods and raft-state claims, and the parsers that read them back. */
module SignerNames {
  import opened Wrappers
  import opened Decimal
  import opened Text

  const DATA_VOLUME := "data"

  function ClaimName(sts: string, ordinal: nat): string {
    DATA_VOLUME + "-" + sts + "-" + Itoa(ordinal)
  }

  function PodName(sts: string, ordinal: nat): string {
    sts + "-" + Itoa(ordinal)
  }

  /** statefulSetDataPVCOrdinal */
  function ClaimOrdinal(claim: string, sts: string): Option<nat> {
    var prefix := DATA_VOLUME + "-" + sts + "-";
    if !HasPrefix(claim, prefix) then None
    else CanonicalOrdinal(claim[|prefix|..])
  }

  /** isStatefulSetDataPVC */
  predicate IsDataClaim(claim: string, sts: string) {
    ClaimOrdinal(claim, sts).Some?
  }

  /** isStatefulSetReplicaPodName */
  predicate IsReplicaPodName(pod: string, sts: string) {
    HasPrefix(pod, sts + "-") && CanonicalOrdinal(pod[|sts| + 1..]).Some?
  }

  /** strings.LastIndex of a one-byte separator; -1 when it does not occur. */
  function LastIndex(s: string, c: char): (i: int)
    ensures -1 <= i < |s|
    ensures i >= 0 ==> s[i] == c
    ensures forall k :: i < k < |s| ==> s[k] != c
  {
    if s == "" then -1
    else if s[|s| - 1] == c then |s| - 1
    else LastIndex(s[..|s| - 1], c)
  }

  /** statefulSetNameFromDataPVC */
  function SetNameFromClaim(claim: string): Option<string> {
    var prefix := DATA_VOLUME + "-";
    if !HasPrefix(claim, prefix) then None
    else
      var rest := claim[|prefix|..];
      var separator := LastIndex(rest, '-');
      if separator <= 0 then None
      else
        var name := rest[..separator];
        if IsDataClaim(claim, name) then Some(name) else None
  }

  /** The ordinal parser is exactly the inverse of the claim printer, up to the 64-bit range. */
  lemma ClaimOrdinalExact(claim: string, sts: string, n: nat)
    ensures ClaimOrdinal(claim, sts) == Some(n) <==> n <= MAX_INT && claim == ClaimName(sts, n)
  {
    var prefix := DATA_VOLUME + "-" + sts + "-";
    if HasPrefix(claim, prefix) {
      CanonicalOrdinalExact(claim[|prefix|..], n);
      assert claim == prefix + claim[|prefix|..];
    }
    if claim == ClaimName(sts, n) {
      assert claim[|prefix|..] == Itoa(n);
    }
  }

  lemma ReplicaPodNameExact(pod: string, sts: string)
    ensures IsReplicaPodName(pod, sts) <==> exists n: nat :: n <= MAX_INT && pod == PodName(sts, n)
  {
    if HasPrefix(pod, sts + "-") {
      var rest := pod[|sts| + 1..];
      assert pod == sts + "-" + rest;
      if CanonicalOrdinal(rest).Some? {
        CanonicalOrdinalExact(rest, CanonicalOrdinal(rest).value);
        assert pod == PodName(sts, CanonicalOrdinal(rest).value);
      }
    }
    forall n: nat | n <= MAX_INT && pod == PodName(sts, n)
      ensures IsReplicaPodName(pod, sts)
    {
      assert pod[|sts| + 1..] == Itoa(n);
      CanonicalOrdinalExact(pod[|sts| + 1..], n);
    }
  }

  /** Digits hold no dash, so the last dash of a printed name is the separator. */
  lemma {:induction false} LastDashSplits(name: string, n: nat)
    ensures LastIndex(name + "-" + Itoa(n), '-') == |name|
  {
    var digits := Itoa(n);
    var s := name + "-" + digits;
    assert s[|name|] == '-';
    forall k | |name| < k < |s|
      ensures s[k] != '-'
    {
      assert s[k] == digits[k - |name| - 1];
    }
  }

  lemma SplitUnique(name: string, n: nat, name': string, n': nat)
    requires name + "-" + Itoa(n) == name' + "-" + Itoa(n')
    ensures name == name' && n == n'
  {
    var s := name + "-" + Itoa(n);
    LastDashSplits(name, n);
    LastDashSplits(name', n');
    assert name == s[..|name|] == name';
    assert Itoa(n) == s[|name| + 1..] == Itoa(n');
    ItoaInjective(n, n');
  }

  /** No claim belongs to two signers, and no signer has one claim for two ordinals. */
  lemma ClaimNameInjective(sts: string, n: nat, sts': string, n': nat)
    requires ClaimName(sts, n) == ClaimName(sts', n')
    ensures sts == sts' && n == n'
  {
    var a, b := sts + "-" + Itoa(n), sts' + "-" + Itoa(n');
    assert a == ClaimName(sts, n)[|DATA_VOLUME| + 1..];
    assert b == ClaimName(sts', n')[|DATA_VOLUME| + 1..];
    SplitUnique(sts, n, sts', n');
  }

  lemma ClaimHasOneSigner(claim: string, sts: string, sts': string)
    requires IsDataClaim(claim, sts) && IsDataClaim(claim, sts')
    ensures sts == sts'
  {
    var n, n' := ClaimOrdinal(claim, sts).value, ClaimOrdinal(claim, sts').value;
    ClaimOrdinalExact(claim, sts, n);
    ClaimOrdinalExact(claim, sts', n');
    ClaimNameInjective(sts, n, sts', n');
  }

  lemma SetNameOfPrinted(sts: string, n: nat)
    requires sts != "" && n <= MAX_INT
    ensures SetNameFromClaim(ClaimName(sts, n)) == Some(sts)
  {
    var claim := ClaimName(sts, n);
    var rest := sts + "-" + Itoa(n);
    assert claim[..|DATA_VOLUME| + 1] == DATA_VOLUME + "-";
    assert claim[|DATA_VOLUME| + 1..] == rest;
    LastDashSplits(sts, n);
    assert rest[..|sts|] == sts;
    ClaimOrdinalExact(claim, sts, n);
  }

  /** The name parser recovers the signer of every printed claim and accepts nothing else. */
  lemma SetNameFromClaimExact(claim: string, sts: string)
    ensures SetNameFromClaim(claim) == Some(sts) <==> sts != "" && IsDataClaim(claim, sts)
  {
    if sts != "" && IsDataClaim(claim, sts) {
      var n := ClaimOrdinal(claim, sts).value;
      ClaimOrdinalExact(claim, sts, n);
      SetNameOfPrinted(sts, n);
    }
  }

  // ---- Names as they are read back ----

  /** An object name as the operator understands it: the ordinal-th child of a set, or anything else. */
  datatype ObjectName = Child(sts: string, ordinal: nat) | Plain(name: string)

  /** The set and ordinal a name of the form <set>-<ordinal> stands for. */
  function ReadPodName(s: string): ObjectName {
    var dash := LastIndex(s, '-');
    if dash < 0 then Plain(s)
    else match CanonicalOrdinal(s[dash + 1..])
      case Some(n) => Child(s[..dash], n)
      case None => Plain(s)
  }

  function ReadClaimName(s: string): ObjectName {
    if !HasPrefix(s, DATA_VOLUME + "-") then Plain(s)
    else match ReadPodName(s[|DATA_VOLUME| + 1..])
      case Child(sts, n) => Child(sts, n)
      case Plain(_) => Plain(s)
  }

  lemma ReadPrintedPod(sts: string, n: nat)
    requires n <= MAX_INT
    ensures ReadPodName(PodName(sts, n)) == Child(sts, n)
  {
    var s := PodName(sts, n);
    LastDashSplits(sts, n);
    assert s[..|sts|] == sts;
    assert s[|sts| + 1..] == Itoa(n);
    CanonicalOrdinalExact(Itoa(n), n);
  }

  lemma ReadPodIsPrinted(s: string)
    requires ReadPodName(s).Child?
    ensures var Child(sts, n) := ReadPodName(s); n <= MAX_INT && s == PodName(sts, n)
  {
    var dash := LastIndex(s, '-');
    CanonicalOrdinalExact(s[dash + 1..], ReadPodName(s).ordinal);
    assert s == s[..dash] + "-" + s[dash + 1..];
  }

  lemma ReadPodNameExact(s: string, sts: string, n: nat)
    ensures ReadPodName(s) == Child(sts, n) <==> n <= MAX_INT && s == PodName(sts, n)
  {
    if ReadPodName(s).Child? {
      ReadPodIsPrinted(s);
    }
    if n <= MAX_INT {
      ReadPrintedPod(sts, n);
    }
  }

  lemma ReadPrintedClaim(sts: string, n: nat)
    requires n <= MAX_INT
    ensures ReadClaimName(ClaimName(sts, n)) == Child(sts, n)
  {
    var s := ClaimName(sts, n);
    assert s[..|DATA_VOLUME| + 1] == DATA_VOLUME + "-";
    assert s[|DATA_VOLUME| + 1..] == PodName(sts, n);
    ReadPrintedPod(sts, n);
  }

  lemma ReadClaimIsPrinted(s: string)
    requires ReadClaimName(s).Child?
    ensures var Child(sts, n) := ReadClaimName(s); n <= MAX_INT && s == ClaimName(sts, n)
  {
    var rest := s[|DATA_VOLUME| + 1..];
    ReadPodIsPrinted(rest);
    assert s == DATA_VOLUME + "-" + rest;
    var Child(sts, n) := ReadClaimName(s);
    assert DATA_VOLUME + "-" + PodName(sts, n) == ClaimName(sts, n);
  }

  /** Reading a claim name yields a set's child exactly when the claim test accepts it for that set. */
  lemma ReadClaimNameExact(s: string, sts: string, n: nat)
    ensures ReadClaimName(s) == Child(sts, n) <==> ClaimOrdinal(s, sts) == Some(n)
  {
    ClaimOrdinalExact(s, sts, n);
    if ReadClaimName(s).Child? {
      ReadClaimIsPrinted(s);
    }
    if n <= MAX_INT {
      ReadPrintedClaim(sts, n);
    }
  }

  /** Two names that read alike are the same name, so a namespace may be keyed by what is read. */
  lemma ReadingIsInjective(s: string, t: string)
    ensures ReadPodName(s) == ReadPodName(t) ==> s == t
    ensures ReadClaimName(s) == ReadClaimName(t) ==> s == t
  {
    if ReadPodName(s) == ReadPodName(t) && ReadPodName(s).Child? {
      ReadPodNameExact(s, ReadPodName(s).sts, ReadPodName(s).ordinal);
      ReadPodNameExact(t, ReadPodName(s).sts, ReadPodName(s).ordinal);
    }
    if ReadClaimName(s) == ReadClaimName(t) && ReadClaimName(s).Child? {
      var Child(sts, n) := ReadClaimName(s);
      ReadClaimNameExact(s, sts, n);
      ReadClaimNameExact(t, sts, n);
      ClaimOrdinalExact(s, sts, n);
      ClaimOrdinalExact(t, sts, n);
    }
  }
}
