/**
Managed imports of a consensus key into Cloud KMS: what a key version of a destination is, how an
import pod's output is read, how the next step is classified from status alone, and what holds in
every run of import, verification, crash, loss and source change.
*/
module KmsImport {
  import opened Wrappers
  import opened Decimal
  import opened Text
  import opened Encoding

  datatype Destination = Destination(project: string, location: Option<string>, keyRing: string, key: string)

  /** A GCP KMS backend: a pre-provisioned version, or a managed import into a destination. */
  datatype Backend = Backend(keyVersion: string, managed: Option<Destination>)

  function Location(d: Destination): string {
    if d.location.Some? && d.location.value != "" then d.location.value else "global"
  }

  function CryptoKeyName(d: Destination): (name: string)
    ensures name != "" && !IsSpace(name[0])
  {
    var keys := d.keyRing + ("/cryptoKeys/" + d.key);
    "projects/" + (d.project + ("/locations/" + (Location(d) + ("/keyRings/" + keys))))
  }

  const VERSIONS := "/cryptoKeyVersions/"

  predicate OwnsKeyVersion(d: Destination, version: string) {
    match CutPrefix(version, CryptoKeyName(d) + VERSIONS)
    case None => false
    case Some(number) => number != "" && Trim(number, IsDigit) == ""
  }

  /** The version the signer is configured with: nothing until it provably belongs to the destination. */
  function ResolvedKeyVersion(b: Backend, recorded: string): string {
    if b.managed.None? then b.keyVersion
    else if OwnsKeyVersion(b.managed.value, recorded) then recorded
    else ""
  }

  // ---- Import pod output ----

  const MARKER := "imported key version:"

  function ParseLine(line: string, cryptoKeyName: string): Option<string>
    requires HasPrefix(TrimSpace(line), MARKER)
  {
    var version := TrimSpace(TrimSpace(line)[|MARKER|..]);
    match CutPrefix(version, cryptoKeyName + VERSIONS)
    case None => None
    case Some(number) =>
      if cryptoKeyName == "" || number == "" || Trim(number, IsDigit) != "" then None else Some(version)
  }

  /** ParseImportedKeyVersion: the first marked line decides. */
  function ParseLines(lines: seq<string>, cryptoKeyName: string): Option<string> {
    if lines == [] then None
    else if HasPrefix(TrimSpace(lines[0]), MARKER) then ParseLine(lines[0], cryptoKeyName)
    else ParseLines(lines[1..], cryptoKeyName)
  }

  function ParseImportedKeyVersion(out: string, cryptoKeyName: string): Option<string> {
    ParseLines(Lines(out), cryptoKeyName)
  }

  lemma {:induction false} ParsedLinesAreOwned(lines: seq<string>, d: Destination)
    ensures ParseLines(lines, CryptoKeyName(d)).Some? ==> OwnsKeyVersion(d, ParseLines(lines, CryptoKeyName(d)).value)
  {
    if lines != [] && !HasPrefix(TrimSpace(lines[0]), MARKER) {
      ParsedLinesAreOwned(lines[1..], d);
    }
  }

  /** Every version the output parser accepts is one the containment check accepts for that destination. */
  lemma ParsedVersionsAreOwned(out: string, d: Destination)
    ensures var parsed := ParseImportedKeyVersion(out, CryptoKeyName(d));
            parsed.Some? ==> OwnsKeyVersion(d, parsed.value)
  {
    ParsedLinesAreOwned(Lines(out), d);
  }

  /** An owned version is the destination's name, the separator and a number, and nothing else. */
  lemma OwnedVersionShape(d: Destination, version: string)
    ensures OwnsKeyVersion(d, version) <==>
            exists number :: number != "" && AllDigits(number) && version == CryptoKeyName(d) + VERSIONS + number
  {
    var prefix := CryptoKeyName(d) + VERSIONS;
    if HasPrefix(version, prefix) {
      var number := version[|prefix|..];
      TrimDigitsEmpty(number);
      assert version == prefix + number;
    }
    forall number | number != "" && AllDigits(number) && version == prefix + number
      ensures OwnsKeyVersion(d, version)
    {
      assert version[|prefix|..] == number;
      TrimDigitsEmpty(number);
    }
  }

  // ---- Fingerprints and records ----

  /** SHA-256, JSON canonicalisation and the public key of key material. */
  datatype Crypto = Crypto(hash: string -> string, canonical: string -> string, publicKey: string -> string)

  /** Idealised: hashes do not collide and hold no dot; formatting does not change the key. */
  ghost predicate Sound(c: Crypto) {
    && (forall x, y :: c.hash(x) == c.hash(y) ==> x == y)
    && (forall x :: '.' !in c.hash(x))
    && (forall x :: c.canonical(c.canonical(x)) == c.canonical(x))
    && (forall x :: c.publicKey(c.canonical(x)) == c.publicKey(x))
  }

  /** The addressing coordinates only: import job and protection level do not change the key. */
  function ImportIdentity(d: Destination): seq<string> {
    [d.project, Location(d), d.keyRing, d.key]
  }

  /** Two descriptions of one crypto key: no location, or an empty one, means global. */
  predicate SameDestination(d: Destination, e: Destination) {
    && d.project == e.project && d.keyRing == e.keyRing && d.key == e.key
    && (d.location == e.location || {d.location, e.location} <= {None, Some(""), Some("global")})
  }

  lemma ImportIdentityExact(d: Destination, e: Destination)
    ensures ImportIdentity(d) == ImportIdentity(e) <==> SameDestination(d, e)
  {
    var a, b := ImportIdentity(d), ImportIdentity(e);
    if a == b {
      assert a[0] == b[0] && a[1] == b[1] && a[2] == b[2] && a[3] == b[3];
    }
  }

  function TargetPreimage(d: Destination, secret: string): seq<string> {
    ["gcpkms"] + ImportIdentity(d) + [secret]
  }

  function TargetFingerprint(c: Crypto, d: Destination, secret: string): string {
    c.hash(NulJoin(TargetPreimage(d, secret)))
  }

  function ImportFingerprint(c: Crypto, d: Destination, secret: string, material: string): string {
    TargetFingerprint(c, d, secret) + "." + c.hash(c.canonical(material))
  }

  predicate RecordMatchesTarget(c: Crypto, d: Destination, secret: string, record: string) {
    HasPrefix(record, TargetFingerprint(c, d, secret) + ".")
  }

  /** Also accepts records written before key JSON was canonicalised. */
  predicate RecordMatches(c: Crypto, d: Destination, secret: string, record: string, material: string) {
    || record == ImportFingerprint(c, d, secret, material)
    || record == TargetFingerprint(c, d, secret) + "." + c.hash(material)
  }

  datatype Step = RunImport | Verify | Complete | Mismatch | SourceMissing

  /** NextGcpImportStep */
  function NextStep(c: Crypto, b: Backend, record: string, version: string, secret: string, material: string): Step {
    if b.managed.None? then Complete
    else
      var d := b.managed.value;
      if material == "" then
        if RecordMatchesTarget(c, d, secret, record) && OwnsKeyVersion(d, version) then Complete else SourceMissing
      else if RecordMatches(c, d, secret, record, material) then
        if OwnsKeyVersion(d, version) then Complete else RunImport
      else if RecordMatchesTarget(c, d, secret, record) then Mismatch
      else if OwnsKeyVersion(d, version) then Verify
      else RunImport
  }

  /** What each answer means. */
  lemma NextStepExact(c: Crypto, b: Backend, record: string, version: string, secret: string, material: string)
    ensures var step := NextStep(c, b, record, version, secret, material);
            if b.managed.None? then step == Complete
            else
              var d := b.managed.value;
              var ours, owned := RecordMatchesTarget(c, d, secret, record), OwnsKeyVersion(d, version);
              var proven := if material == "" then ours else RecordMatches(c, d, secret, record, material);
              && (step == Complete <==> proven && owned)
              && (step == SourceMissing <==> material == "" && !(ours && owned))
              && (step == Mismatch <==> material != "" && ours && !proven)
              && (step == Verify <==> material != "" && !ours && owned)
              && (step == RunImport <==> material != "" && (proven || !ours) && !owned)
  {
    if b.managed.Some? {
      MatchingIsOfTheTarget(c, b.managed.value, secret, record, material);
    }
  }

  lemma MatchingIsOfTheTarget(c: Crypto, d: Destination, secret: string, record: string, m: string)
    ensures RecordMatches(c, d, secret, record, m) ==> RecordMatchesTarget(c, d, secret, record)
  {
    var t := TargetFingerprint(c, d, secret);
    if RecordMatches(c, d, secret, record, m) {
      assert record[..|t| + 1] == t + ".";
    }
  }

  /** A pre-provisioned version is served as it is; a managed one only once it is one of the destination. */
  lemma ResolvedVersionExact(b: Backend, recorded: string)
    ensures b.managed.None? ==> ResolvedKeyVersion(b, recorded) == b.keyVersion
    ensures b.managed.Some? && OwnsKeyVersion(b.managed.value, recorded) ==> ResolvedKeyVersion(b, recorded) == recorded
    ensures b.managed.Some? && !OwnsKeyVersion(b.managed.value, recorded) ==> ResolvedKeyVersion(b, recorded) == ""
  {
  }

  /** A record of the target's half and a hash matches exactly the material hashed, as it is or canonicalised. */
  lemma RecordMatchesExactly(c: Crypto, d: Destination, secret: string, hashed: string, material: string)
    requires Sound(c)
    ensures RecordMatches(c, d, secret, TargetFingerprint(c, d, secret) + "." + c.hash(hashed), material) <==>
            hashed == c.canonical(material) || hashed == material
  {
    var t := TargetFingerprint(c, d, secret);
    if t + "." + c.hash(hashed) == t + "." + c.hash(c.canonical(material)) {
      PrefixedEqual(t, c.hash(hashed), c.hash(c.canonical(material)));
    }
    if t + "." + c.hash(hashed) == t + "." + c.hash(material) {
      PrefixedEqual(t, c.hash(hashed), c.hash(material));
    }
  }

  lemma PrefixedEqual(t: string, a: string, b: string)
    requires t + "." + a == t + "." + b
    ensures a == b
  {
    assert a == (t + "." + a)[|t| + 1..];
    assert b == (t + "." + b)[|t| + 1..];
  }

  /** A record names one consensus key: whatever material it matches has the same public key. */
  lemma RecordNamesOneKey(c: Crypto, d: Destination, secret: string, record: string, m: string, m': string)
    requires Sound(c)
    requires RecordMatches(c, d, secret, record, m) && RecordMatches(c, d, secret, record, m')
    ensures c.publicKey(m) == c.publicKey(m')
  {
    var t := TargetFingerprint(c, d, secret);
    var x := if record == ImportFingerprint(c, d, secret, m) then c.canonical(m) else m;
    var x' := if record == ImportFingerprint(c, d, secret, m') then c.canonical(m') else m';
    PrefixedEqual(t, c.hash(x), c.hash(x'));
    assert x == x';
    assert c.publicKey(m) == c.publicKey(x) && c.publicKey(m') == c.publicKey(x');
  }

  /** A record shows where its target half ends. */
  lemma RecordsShowTheirTarget(t: string, x: string, t': string)
    requires '.' !in t && '.' !in t'
    ensures HasPrefix(t + "." + x, t' + ".") <==> t == t'
  {
    var record := t + "." + x;
    assert record[..|t| + 1] == t + ".";
    if HasPrefix(record, t' + ".") {
      FirstField('.', t, x, t', record[|t'| + 1..]);
    }
  }

  /** The record of one destination and source secret is never taken for another's. */
  lemma RecordsNameOneTarget(c: Crypto, d: Destination, secret: string, d': Destination, secret': string, m: string)
    requires Sound(c)
    requires AllNulFree(TargetPreimage(d, secret)) && AllNulFree(TargetPreimage(d', secret'))
    ensures RecordMatchesTarget(c, d', secret', ImportFingerprint(c, d, secret, m)) <==>
            SameDestination(d, d') && secret == secret'
  {
    ImportIdentityExact(d, d');
    var a, b := TargetPreimage(d, secret), TargetPreimage(d', secret');
    RecordsShowTheirTarget(TargetFingerprint(c, d, secret), c.hash(c.canonical(m)), TargetFingerprint(c, d', secret'));
    if NulJoin(a) == NulJoin(b) {
      NulJoinInjective(a, b);
      assert ImportIdentity(d) == a[1..5] && ImportIdentity(d') == b[1..5];
      assert secret == a[5] && secret' == b[5];
    }
  }

  /** The coordinates of a Vault import: address, namespace, mount, key name and pinned version. */
  datatype VaultTarget = VaultTarget(address: string, namespace: string, mount: string, key: string, version: nat)

  function VaultPreimage(v: VaultTarget, secret: string): seq<string> {
    [v.address, v.namespace, v.mount, v.key, Itoa(v.version), secret]
  }

  /** Written before Vault key versions were pinned. */
  function LegacyVaultPreimage(v: VaultTarget, secret: string): seq<string> {
    [v.address, v.namespace, v.mount, v.key, secret]
  }

  /** Vault targets are told apart by every coordinate; the old format does not tell versions apart. */
  lemma VaultTargetsExact(v: VaultTarget, secret: string, w: VaultTarget, secret': string)
    requires AllNulFree(VaultPreimage(v, secret)) && AllNulFree(VaultPreimage(w, secret'))
    requires AllNulFree(LegacyVaultPreimage(v, secret)) && AllNulFree(LegacyVaultPreimage(w, secret'))
    ensures NulJoin(VaultPreimage(v, secret)) == NulJoin(VaultPreimage(w, secret')) <==> v == w && secret == secret'
    ensures NulJoin(LegacyVaultPreimage(v, secret)) == NulJoin(LegacyVaultPreimage(w, secret')) <==>
            v.(version := 0) == w.(version := 0) && secret == secret'
  {
    var a, b := VaultPreimage(v, secret), VaultPreimage(w, secret');
    if NulJoin(a) == NulJoin(b) {
      NulJoinInjective(a, b);
      assert a[0] == b[0] && a[1] == b[1] && a[2] == b[2] && a[3] == b[3] && a[4] == b[4] && a[5] == b[5];
      ItoaInjective(v.version, w.version);
    }
    var x, y := LegacyVaultPreimage(v, secret), LegacyVaultPreimage(w, secret');
    if NulJoin(x) == NulJoin(y) {
      NulJoinInjective(x, y);
      assert x[0] == y[0] && x[1] == y[1] && x[2] == y[2] && x[3] == y[3] && x[4] == y[4];
    }
  }

  /**
  Vault and Cloud KMS records share one status field. A Vault record passes for a Cloud KMS record
  exactly when the address is the very word that marks a Cloud KMS target and the rest agrees; a
  record in the old Vault format never does.
  */
  lemma VaultRecordsAreNotKmsRecords(c: Crypto, d: Destination, secret: string, v: VaultTarget, secret': string)
    requires Sound(c) && AllNulFree(TargetPreimage(d, secret))
    requires AllNulFree(VaultPreimage(v, secret')) && AllNulFree(LegacyVaultPreimage(v, secret'))
    ensures c.hash(NulJoin(VaultPreimage(v, secret'))) == TargetFingerprint(c, d, secret) <==>
            && v.address == "gcpkms" && secret == secret'
            && ImportIdentity(d) == [v.namespace, v.mount, v.key, Itoa(v.version)]
    ensures c.hash(NulJoin(LegacyVaultPreimage(v, secret'))) != TargetFingerprint(c, d, secret)
  {
    var kms, vault, legacy := TargetPreimage(d, secret), VaultPreimage(v, secret'), LegacyVaultPreimage(v, secret');
    if NulJoin(vault) == NulJoin(kms) {
      NulJoinInjective(vault, kms);
      assert ImportIdentity(d) == kms[1..5] == vault[1..5];
      assert secret == kms[5] && secret' == vault[5] && kms[0] == vault[0];
    }
    if v.address == "gcpkms" && secret == secret'
       && ImportIdentity(d) == [v.namespace, v.mount, v.key, Itoa(v.version)] {
      assert vault == kms;
    }
    if NulJoin(legacy) == NulJoin(kms) {
      NulJoinInjective(legacy, kms);
    }
  }

  // ---- Reading back what an import prints ----

  /** A line that speaks of an imported version, and what it says. */
  predicate IsMarked(line: string) {
    HasPrefix(TrimSpace(line), "imported key version:")
  }

  ghost predicate Says(line: string, version: string) {
    exists text :: TrimSpace(line) == "imported key version:" + text && TrimSpace(text) == version
  }

  lemma {:induction false} ParsesLinesExactly(lines: seq<string>, d: Destination, version: string)
    ensures ParseLines(lines, CryptoKeyName(d)) == Some(version) <==>
            OwnsKeyVersion(d, version) && exists i :: SaysFirst(lines, i, version)
  {
    if lines == [] {
    } else if IsMarked(lines[0]) {
      MarkedLineParses(lines[0], d, version);
      assert SaysFirst(lines, 0, version) <==> Says(lines[0], version);
      assert forall i :: SaysFirst(lines, i, version) ==> i == 0;
    } else {
      ParsesLinesExactly(lines[1..], d, version);
      ShiftedLines(lines, version);
    }
  }

  lemma MarkedLineParses(line: string, d: Destination, version: string)
    requires IsMarked(line)
    ensures ParseLine(line, CryptoKeyName(d)) == Some(version) <==> OwnsKeyVersion(d, version) && Says(line, version)
  {
    var trimmed := TrimSpace(line);
    var text := trimmed[|MARKER|..];
    assert trimmed == MARKER + text;
    if other :| trimmed == "imported key version:" + other && TrimSpace(other) == version {
      assert other == trimmed[|MARKER|..];
    }
  }

  lemma UnmarkedSaysNothing(line: string, version: string)
    ensures Says(line, version) ==> IsMarked(line)
  {
    if text :| TrimSpace(line) == "imported key version:" + text && TrimSpace(text) == version {
      assert ("imported key version:" + text)[..|MARKER|] == MARKER;
    }
  }

  ghost predicate SaysFirst(lines: seq<string>, i: int, version: string) {
    0 <= i < |lines| && Says(lines[i], version) && forall j :: 0 <= j < i ==> !IsMarked(lines[j])
  }

  lemma ShiftedLines(lines: seq<string>, version: string)
    requires lines != [] && !IsMarked(lines[0])
    ensures (exists i :: SaysFirst(lines, i, version)) <==> exists i :: SaysFirst(lines[1..], i, version)
  {
    UnmarkedSaysNothing(lines[0], version);
    var rest := lines[1..];
    assert forall i :: 0 <= i < |rest| ==> rest[i] == lines[i + 1];
    if i :| SaysFirst(lines, i, version) {
      assert rest[i - 1] == lines[i];
      assert SaysFirst(rest, i - 1, version);
    }
    if i :| SaysFirst(rest, i, version) {
      forall j | 0 <= j < i + 1 ensures !IsMarked(lines[j]) {
        if j > 0 {
          assert rest[j - 1] == lines[j];
        }
      }
      assert SaysFirst(lines, i + 1, version);
    }
  }

  /** The first marked line of the output says it. */
  ghost predicate OutputSays(out: string, version: string) {
    var lines := Lines(out);
    exists i :: SaysFirst(lines, i, version)
  }

  /**
  The parser finds a version exactly when the first line that is marked says it, whatever lines come
  before and after, and it is a version of the destination.
  */
  lemma ParsesExactly(out: string, d: Destination, version: string)
    ensures ParseImportedKeyVersion(out, CryptoKeyName(d)) == Some(version) <==>
            OwnsKeyVersion(d, version) && OutputSays(out, version)
  {
    var lines := Lines(out);
    ParsesLinesExactly(lines, d, version);
    assert ParseImportedKeyVersion(out, CryptoKeyName(d)) == ParseLines(lines, CryptoKeyName(d));
  }

  lemma TrimKeepsEnds(s: string)
    requires s != "" ==> !IsSpace(s[0]) && !IsSpace(s[|s| - 1])
    ensures TrimSpace(s) == s
  {
  }

  lemma PrintedLineSays(d: Destination, version: string)
    requires OwnsKeyVersion(d, version)
    ensures Says(MARKER + " " + version, version)
  {
    var prefix := CryptoKeyName(d) + VERSIONS;
    var number := version[|prefix|..];
    TrimDigitsEmpty(number);
    assert IsDigit(number[|number| - 1]) && version[|version| - 1] == number[|number| - 1];
    assert !IsSpace(version[0]) by { assert version[0] == prefix[0]; }
    TrimKeepsEnds(version);
    var line := MARKER + " " + version;
    assert line[0] == MARKER[0] && line[|line| - 1] == version[|version| - 1];
    TrimKeepsEnds(line);
    assert line == "imported key version:" + (" " + version);
    assert TrimSpace(" " + version) == version by {
      assert (" " + version)[1..] == version;
      assert TrimLeft(" " + version, IsSpace) == TrimLeft(version, IsSpace);
    }
  }

  /** A version printed on a line of its own, after lines that are not marked and before anything, is read back. */
  lemma PrintedVersionParses(d: Destination, before: seq<string>, version: string, after: seq<string>)
    requires OwnsKeyVersion(d, version) && '\n' !in version && NoNewlines(before) && NoNewlines(after)
    requires forall j :: 0 <= j < |before| ==> !IsMarked(before[j])
    ensures var out := JoinLines(before + [MARKER + " " + version] + after);
            ParseImportedKeyVersion(out, CryptoKeyName(d)) == Some(version)
  {
    var line := MARKER + " " + version;
    var lines := before + [line] + after;
    PrintedLineSays(d, version);
    assert NoNewlines(lines) by {
      assert '\n' !in line;
    }
    JoinedLines(lines);
    assert lines[|before|] == line && forall j :: 0 <= j < |before| ==> lines[j] == before[j];
    assert SaysFirst(lines, |before|, version);
    ParsesExactly(JoinLines(lines), d, version);
  }
}
