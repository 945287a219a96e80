/**
A managed import into one Cloud KMS destination from one source secret, as a transition system: the
controller's writes, interleaved with the pod's progress, crashes, lost status and source changes.
Status is the only memory that survives a pass.
*/
module ImportMachine {
  import opened Wrappers
  import opened Text
  import opened Encoding
  import opened KmsImport

  datatype PodPhase = InFlight | Succeeded | Failed

  /** A pod under the import pod's name: whose it is, what it mounted, the version it made, its output. */
  datatype Pod = Pod(uid: string, ours: bool, target: string, mounted: Option<string>, made: Option<string>,
                     phase: PodPhase, logs: string, terminating: bool)

  /** What a pass over the resource remembers: the material it read, pod output, the key expected back. */
  datatype Pass = Pass(material: string, output: Option<string>, expected: Option<string>)

  datatype State = State(record: string, version: string, source: string, kms: map<string, string>,
                         pod: Option<Pod>, uids: set<string>, pass: Option<Pass>)

  /** One destination and one source secret. */
  datatype Setting = Setting(crypto: Crypto, dest: Destination, secret: string) {
    function Target(): string { CryptoKeyName(dest) }

    function Managed(): Backend { Backend("", Some(dest)) }

    function Next(s: State, material: string): Step {
      NextStep(crypto, Managed(), s.record, s.version, secret, material)
    }

    function Parsed(logs: string): Option<string> { ParseImportedKeyVersion(logs, Target()) }

    /** An import pod of this owner for the current destination. */
    predicate Ours(p: Pod) { p.ours && p.target == Target() }

    predicate Names(record: string, material: string) { RecordMatches(crypto, dest, secret, record, material) }

    predicate Owns(version: string) { OwnsKeyVersion(dest, version) }

    function Key(material: string): string { crypto.publicKey(material) }

    function RecordOf(material: string): string { ImportFingerprint(crypto, dest, secret, material) }
  }

  /**
  A found pod may be replaced: it is this owner's, and either belongs to another destination or has
  failed without logs that can be read and name a version. Anything else may be an accepted import.
  */
  predicate Replaceable(g: Setting, p: Pod, readable: bool) {
    && p.ours
    && (p.target != g.Target() || (p.phase == Failed && !(readable && g.Parsed(p.logs).Some?)))
  }

  /** The version named by the output the pass has read. */
  function Output(g: Setting, s: State): Option<string> {
    if s.pass.Some? && s.pass.value.output.Some? then g.Parsed(s.pass.value.output.value) else None
  }

  datatype Action =
    | Begin                         // a pass reads the source
    | Crash                         // or ends: its memory is gone
    | Replace(readable: bool)       // delete what may be replaced
    | Start(uid: string)
    | ReadLogs
    | RecordVersion
    | Expect                        // read the source's public key again, for comparison
    | WriteRecord                   // the version serves the expected key
    | Cleanup
    | Mount                         // the pod reads the secret
    | MakeVersion(v: string)
    | Progress(phase: PodPhase, logs: string)
    | Vanish
    | Appear(p: Pod)                // another owner takes the name
    | LoseVersion
    | LoseRecord
    | ChangeSource(material: string)

  predicate IsEnv(a: Action) {
    a.Mount? || a.MakeVersion? || a.Progress? || a.Vanish? || a.Appear? || a.ChangeSource?
  }

  predicate Does(g: Setting, a: Action, s: State, s': State) {
    match a
    case Begin => s.pass.None? && s' == s.(pass := Some(Pass(s.source, None, None)))
    case Crash => s' == s.(pass := None)
    case Replace(readable) =>
      && s.pass.Some? && g.Next(s, s.pass.value.material) == RunImport
      && s.pod.Some? && Replaceable(g, s.pod.value, readable)
      && s' == s.(pod := Some(s.pod.value.(terminating := true)))
    case Start(uid) =>
      && s.pass.Some? && Output(g, s).None? && g.Next(s, s.pass.value.material) == RunImport
      && s.pod.None? && uid !in s.uids
      && s' == s.(pod := Some(Pod(uid, true, g.Target(), None, None, InFlight, "", false)), uids := s.uids + {uid})
    case ReadLogs =>
      && s.pass.Some? && s.pod.Some? && g.Next(s, s.pass.value.material) == RunImport
      && s' == s.(pass := Some(s.pass.value.(output := Some(s.pod.value.logs))))
    case RecordVersion =>
      && s.pass.Some? && g.Next(s, s.pass.value.material) == RunImport
      && s.pass.value.output.Some? && g.Parsed(s.pass.value.output.value).Some?
      && s' == s.(version := g.Parsed(s.pass.value.output.value).value)
    case Expect =>
      && s.pass.Some? && s.pass.value.material != "" && g.Next(s, s.pass.value.material) in {Verify, Complete}
      && s' == s.(pass := Some(s.pass.value.(expected := Some(g.Key(s.source)))))
    case WriteRecord =>
      && s.pass.Some? && g.Next(s, s.pass.value.material) in {Verify, Complete}
      && s.pass.value.material != ""
      && s.version in s.kms && s.pass.value.expected == Some(g.Key(s.kms[s.version]))
      && s' == s.(record := g.RecordOf(s.pass.value.material))
    case Cleanup =>
      && s.pass.Some? && g.Owns(s.version) && s.pod.Some? && s.pod.value.ours
      && s' == s.(pod := Some(s.pod.value.(terminating := true)))
    case Mount =>
      && s.pod.Some? && g.Ours(s.pod.value) && s.pod.value.phase == InFlight && s.pod.value.mounted.None?
      && s.source != ""
      && s' == s.(pod := Some(s.pod.value.(mounted := Some(s.source))))
    case MakeVersion(v) =>
      && s.pod.Some? && g.Ours(s.pod.value) && s.pod.value.phase == InFlight
      && s.pod.value.mounted.Some? && s.pod.value.made.None? && g.Owns(v) && v !in s.kms
      && s' == s.(kms := s.kms[v := s.pod.value.mounted.value], pod := Some(s.pod.value.(made := Some(v))))
    case Progress(phase, logs) =>
      && s.pod.Some? && s.pod.value.phase == InFlight
      && Prints(g, s.pod.value, logs)
      && s' == s.(pod := Some(s.pod.value.(phase := phase, logs := logs)))
    case Vanish =>
      && s.pod.Some? && (s.pod.value.terminating || !s.pod.value.ours) && s' == s.(pod := None)
    case Appear(p) =>
      && s.pod.None? && !p.ours && p.uid !in s.uids && g.Parsed(p.logs).None?
      && s' == s.(pod := Some(p), uids := s.uids + {p.uid})
    case LoseVersion => s.pass.None? && s' == s.(version := "")
    case LoseRecord => s.pass.None? && s' == s.(record := "")
    case ChangeSource(material) => s' == s.(source := material)
  }

  /** Only an import of this destination names a version of it, and only the version it made. */
  predicate Prints(g: Setting, p: Pod, logs: string) {
    && (g.Parsed(logs).Some? ==> g.Ours(p) && p.made == g.Parsed(logs))
    && (g.Parsed(p.logs).Some? ==> g.Parsed(logs) == g.Parsed(p.logs))
  }

  /** Nothing imported or recorded for the destination; the name may be taken by an unrelated pod. */
  predicate Fresh(g: Setting, s: State) {
    && s.record == "" && s.version == "" && s.pass.None?
    && (s.pod.Some? ==> s.pod.value.uid in s.uids && !g.Ours(s.pod.value) && g.Parsed(s.pod.value.logs).None?)
  }

  /** A run: states and the actions between them. */
  datatype Run = Run(states: seq<State>, acts: seq<Action>) {
    ghost predicate Legal(g: Setting) {
      && |states| == |acts| + 1 && Fresh(g, states[0])
      && forall i :: 0 <= i < |acts| ==> Does(g, acts[i], states[i], states[i + 1])
    }

    function Last(): State
      requires states != []
    { states[|states| - 1] }

    function Init(): Run
      requires states != [] && acts != []
    { Run(states[..|states| - 1], acts[..|acts| - 1]) }

    function Then(a: Action, s: State): Run { Run(states + [s], acts + [a]) }

    /** No step of the run is a misstep. */
    ghost predicate Avoids(bad: (Action, State) -> bool)
      requires |states| == |acts| + 1
    { forall i :: 0 <= i < |acts| ==> !bad(acts[i], states[i]) }
  }

  lemma InitLegal(g: Setting, r: Run)
    requires r.Legal(g) && r.acts != []
    ensures r.Init().Legal(g)
    ensures var n := |r.acts| - 1;
            r.Init().Last() == r.states[n] && Does(g, r.acts[n], r.states[n], r.Last())
  {
    var init := r.Init();
    forall i | 0 <= i < |init.acts|
      ensures Does(g, init.acts[i], init.states[i], init.states[i + 1])
    {
      assert Does(g, r.acts[i], r.states[i], r.states[i + 1]);
    }
  }

  lemma ThenLegal(g: Setting, r: Run, a: Action, s: State)
    requires r.Legal(g) && Does(g, a, r.Last(), s)
    ensures r.Then(a, s).Legal(g) && r.Then(a, s).Last() == s
  {
  }

  // ---- What holds in every run ----

  /** Facts no source change can break. */
  ghost predicate Sane(g: Setting, s: State) {
    && (s.record == "" || exists m :: m != "" && s.record == g.RecordOf(m))
    && (s.pod.Some? ==> PodSane(g, s, s.pod.value))
    && (g.Owns(s.version) ==>
          s.version in s.kms && (s.pod.Some? && g.Ours(s.pod.value) ==> s.pod.value.made == Some(s.version)))
    && (s.pass.Some? && s.pass.value.output.Some? ==> OutputSane(g, s, g.Parsed(s.pass.value.output.value)))
  }

  ghost predicate PodSane(g: Setting, s: State, p: Pod) {
    && p.uid in s.uids
    && (g.Ours(p) && p.made.Some? ==> p.made.value in s.kms && p.mounted == Some(s.kms[p.made.value]))
    && (g.Parsed(p.logs).Some? ==> g.Ours(p) && p.made == g.Parsed(p.logs))
  }

  ghost predicate OutputSane(g: Setting, s: State, parsed: Option<string>) {
    && (parsed.Some? ==>
          parsed.value in s.kms && g.Owns(parsed.value) && (g.Owns(s.version) ==> s.version == parsed.value))
    && (parsed.Some? && s.pod.Some? && g.Ours(s.pod.value) ==> s.pod.value.made == parsed)
  }

  lemma NothingNamed(g: Setting)
    ensures forall m :: !g.Names("", m)
    ensures !RecordMatchesTarget(g.crypto, g.dest, g.secret, "")
    ensures !g.Owns("") && g.Parsed("").None?
  {
    assert Lines("") == [""];
    assert ParseLines([""], g.Target()) == ParseLines([""][1..], g.Target());
  }

  lemma RecordedNames(g: Setting, m: string)
    ensures g.Names(g.RecordOf(m), m)
    ensures RecordMatchesTarget(g.crypto, g.dest, g.secret, g.RecordOf(m))
  {
    var t := TargetFingerprint(g.crypto, g.dest, g.secret);
    assert g.RecordOf(m)[..|t| + 1] == t + ".";
  }

  lemma NamesItsTarget(g: Setting, record: string, m: string)
    ensures g.Names(record, m) ==> RecordMatchesTarget(g.crypto, g.dest, g.secret, record)
  {
    var t := TargetFingerprint(g.crypto, g.dest, g.secret);
    if g.Names(record, m) {
      assert record[..|t| + 1] == t + ".";
    }
  }

  lemma StepKeepsSane(g: Setting, a: Action, s: State, s': State)
    requires Sane(g, s) && Does(g, a, s, s')
    ensures Sane(g, s')
  {
    NothingNamed(g);
    if IsEnv(a) {
      EventKeepsSane(g, a, s, s');
    } else if a.ReadLogs? {
      ParsedVersionsAreOwned(s.pod.value.logs, g.dest);
    }
  }

  lemma EventKeepsSane(g: Setting, a: Action, s: State, s': State)
    requires Sane(g, s) && Does(g, a, s, s') && IsEnv(a)
    ensures Sane(g, s')
  {
  }

  lemma {:induction false} RunsAreSane(g: Setting, r: Run)
    requires r.Legal(g)
    ensures Sane(g, r.Last())
    decreases |r.acts|
  {
    NothingNamed(g);
    if r.acts != [] {
      InitLegal(g, r);
      RunsAreSane(g, r.Init());
      StepKeepsSane(g, r.acts[|r.acts| - 1], r.Init().Last(), r.Last());
    }
  }

  /**
  Once a record exists, other key material never leads to another import: a pass that read any other
  material is told Mismatch, and whatever pass deletes or starts a pod has read material the record names.
  */
  lemma OtherMaterialIsNeverImported(g: Setting, r: Run, a: Action, s': State)
    requires r.Legal(g) && r.Last().record != "" && Does(g, a, r.Last(), s')
    ensures forall m :: m != "" && !g.Names(r.Last().record, m) ==> g.Next(r.Last(), m) == Mismatch
    ensures a.Start? || a.Replace? || a.RecordVersion? ==> g.Names(r.Last().record, r.Last().pass.value.material)
  {
    RunsAreSane(g, r);
    var s := r.Last();
    var m :| m != "" && s.record == g.RecordOf(m);
    RecordedNames(g, m);
  }

  // ---- Completion ----

  /**
  The source secret was given another key between being read and being used: by the pod, which mounts
  it later than a pass classified it, or by the comparison, which reads it a second time and finds the
  key of the version.
  */
  ghost predicate Swapped(g: Setting, a: Action, s: State) {
    || (a.Mount? && exists m :: g.Names(s.record, m) && g.Key(m) != g.Key(s.source))
    || (&& a.Expect? && s.pass.Some? && g.Key(s.source) != g.Key(s.pass.value.material)
        && s.version in s.kms && g.Key(s.kms[s.version]) == g.Key(s.source))
  }

  ghost predicate Steady(g: Setting, r: Run)
    requires |r.states| == |r.acts| + 1
  {
    r.Avoids((a, s) => Swapped(g, a, s))
  }

  /** Everything that may come to be served holds the key the record names. */
  ghost predicate Served(g: Setting, s: State) {
    && (forall m :: g.Names(s.record, m) ==>
          && (g.Owns(s.version) && s.version in s.kms ==> g.Key(s.kms[s.version]) == g.Key(m))
          && (s.pod.Some? && g.Ours(s.pod.value) && s.pod.value.mounted.Some? ==>
                g.Key(s.pod.value.mounted.value) == g.Key(m))
          && (var v := Output(g, s); v.Some? && v.value in s.kms ==> g.Key(s.kms[v.value]) == g.Key(m)))
    && (s.pass.Some? && s.pass.value.expected.Some? ==>
          && g.Owns(s.version) && s.version in s.kms
          && (s.pass.value.expected.value == g.Key(s.kms[s.version]) ==>
                s.pass.value.expected.value == g.Key(s.pass.value.material)))
  }

  lemma WriteKeepsServed(g: Setting, s: State, s': State)
    requires Sound(g.crypto) && Sane(g, s) && Served(g, s) && Does(g, WriteRecord, s, s')
    ensures Served(g, s')
  {
    var material := s.pass.value.material;
    RecordedNames(g, material);
    forall m | g.Names(s'.record, m)
      ensures g.Key(m) == g.Key(material)
    {
      RecordNamesOneKey(g.crypto, g.dest, g.secret, s'.record, m, material);
    }
  }

  lemma EventKeepsServed(g: Setting, a: Action, s: State, s': State)
    requires Sound(g.crypto) && Sane(g, s) && Served(g, s) && Does(g, a, s, s') && !Swapped(g, a, s) && IsEnv(a)
    ensures Served(g, s')
  {
  }

  lemma PassKeepsServed(g: Setting, a: Action, s: State, s': State)
    requires Sound(g.crypto) && Sane(g, s) && Served(g, s) && Does(g, a, s, s') && !Swapped(g, a, s)
    requires a.ReadLogs? || a.RecordVersion? || a.Expect?
    ensures Served(g, s')
  {
  }

  lemma StepKeepsServed(g: Setting, a: Action, s: State, s': State)
    requires Sound(g.crypto) && Sane(g, s) && Served(g, s) && Does(g, a, s, s') && !Swapped(g, a, s)
    ensures Served(g, s')
  {
    if IsEnv(a) {
      EventKeepsServed(g, a, s, s');
    } else if a.WriteRecord? {
      WriteKeepsServed(g, s, s');
    } else if a.ReadLogs? || a.RecordVersion? || a.Expect? {
      PassKeepsServed(g, a, s, s');
    } else {
      NothingNamed(g);
    }
  }

  lemma {:induction false} SteadyRunsServe(g: Setting, r: Run)
    requires Sound(g.crypto) && r.Legal(g) && Steady(g, r)
    ensures Served(g, r.Last())
    decreases |r.acts|
  {
    NothingNamed(g);
    if r.acts != [] {
      InitLegal(g, r);
      var n := |r.acts| - 1;
      assert forall i :: 0 <= i < n ==> r.Init().acts[i] == r.acts[i] && r.Init().states[i] == r.states[i];
      SteadyRunsServe(g, r.Init());
      RunsAreSane(g, r.Init());
      StepKeepsServed(g, r.acts[n], r.Init().Last(), r.Last());
    }
  }

  /**
  Whenever the classification says Complete, the version the signer is configured with exists and
  serves the very key the record names; with the source at hand, it serves the source's key.
  */
  lemma CompleteMeansServed(g: Setting, r: Run)
    requires Sound(g.crypto) && r.Legal(g) && Steady(g, r) && g.Next(r.Last(), r.Last().source) == Complete
    ensures var s := r.Last();
            var v := ResolvedKeyVersion(g.Managed(), s.version);
            && v == s.version && v in s.kms
            && (exists m :: g.Names(s.record, m))
            && (forall m :: g.Names(s.record, m) ==> g.Key(s.kms[v]) == g.Key(m))
            && (s.source != "" ==> g.Key(s.kms[v]) == g.Key(s.source))
  {
    SteadyRunsServe(g, r);
    RunsAreSane(g, r);
    NothingNamed(g);
    var m :| m != "" && r.Last().record == g.RecordOf(m);
    RecordedNames(g, m);
  }

  /** Complete is said of a version that does not serve the key the record names. */
  ghost predicate Misserves(g: Setting, s: State) {
    && g.Next(s, s.source) == Complete && s.version in s.kms
    && exists m :: g.Names(s.record, m) && g.Key(s.kms[s.version]) != g.Key(m)
  }

  /** The run goes on through the given actions to a state that misserves. */
  ghost predicate CanMisserve(g: Setting, r: Run) {
    exists r': Run :: r'.Legal(g) && r.acts <= r'.acts && r.states <= r'.states && Misserves(g, r'.Last())
  }

  lemma LaterMisserves(g: Setting, r: Run, r': Run)
    requires CanMisserve(g, r') && r.acts <= r'.acts && r.states <= r'.states
    ensures CanMisserve(g, r)
  {
  }

  lemma Extend(g: Setting, r: Run, a: Action, s: State) returns (r': Run)
    requires r.Legal(g) && Does(g, a, r.Last(), s)
    ensures r'.Legal(g) && r'.Last() == s && r.acts <= r'.acts && r.states <= r'.states
  {
    ThenLegal(g, r, a, s);
    r' := r.Then(a, s);
  }

  /** A pod in flight mounts the secret and has a new version made of it. */
  lemma PodMakes(g: Setting, r: Run, v: string) returns (r': Run)
    requires r.Legal(g)
    requires var s := r.Last();
             && s.pod.Some? && g.Ours(s.pod.value) && s.pod.value.phase == InFlight && s.pod.value.mounted.None?
             && s.source != "" && g.Owns(v) && v !in s.kms
    ensures r'.Legal(g) && r.acts <= r'.acts && r.states <= r'.states
    ensures var s := r.Last();
            r'.Last() == s.(kms := s.kms[v := s.source],
                            pod := Some(s.pod.value.(mounted := Some(s.source), made := Some(v))))
  {
    var s := r.Last();
    RunsAreSane(g, r);
    var s1 := s.(pod := Some(s.pod.value.(mounted := Some(s.source))));
    r' := Extend(g, r, Mount, s1);
    r' := Extend(g, r', MakeVersion(v), s1.(kms := s.kms[v := s.source], pod := Some(s1.pod.value.(made := Some(v)))));
  }

  /** And it ends in either way, printing the version or nothing. */
  lemma PodEnds(g: Setting, r: Run, v: string, phase: PodPhase, silent: bool) returns (r': Run)
    requires r.Legal(g) && g.Owns(v) && '\n' !in v
    requires var s := r.Last();
             s.pod.Some? && g.Ours(s.pod.value) && s.pod.value.phase == InFlight && s.pod.value.made == Some(v)
    requires g.Parsed(r.Last().pod.value.logs).None?
    ensures r'.Legal(g) && r.acts <= r'.acts && r.states <= r'.states
    ensures var s, logs := r.Last(), if silent then "" else MARKER + " " + v;
            && g.Parsed(logs) == (if silent then None else Some(v))
            && r'.Last() == s.(pod := Some(s.pod.value.(phase := phase, logs := logs)))
  {
    NothingNamed(g);
    PrintedVersionParses(g.dest, [], v, []);
    assert [] + [MARKER + " " + v] + [] == [MARKER + " " + v];
    var s, logs := r.Last(), if silent then "" else MARKER + " " + v;
    r' := Extend(g, r, Progress(phase, logs), s.(pod := Some(s.pod.value.(phase := phase, logs := logs))));
  }

  lemma UnmadeIsSilent(g: Setting, s: State)
    requires Sane(g, s) && s.pod.Some? && s.pod.value.mounted.None?
    ensures g.Parsed(s.pod.value.logs).None?
  {
  }

  /** A pod in flight imports whatever the secret holds and reports the version. */
  lemma PodImports(g: Setting, r: Run, v: string) returns (r': Run)
    requires r.Legal(g)
    requires var s := r.Last();
             && s.pod.Some? && g.Ours(s.pod.value) && s.pod.value.phase == InFlight && s.pod.value.mounted.None?
             && s.source != "" && g.Owns(v) && '\n' !in v && v !in s.kms
    ensures r'.Legal(g) && r.acts <= r'.acts && r.states <= r'.states
    ensures var s, line := r.Last(), MARKER + " " + v;
            && g.Parsed(line) == Some(v)
            && r'.Last() == s.(kms := s.kms[v := s.source],
                               pod := Some(s.pod.value.(mounted := Some(s.source), made := Some(v),
                                                        phase := Succeeded, logs := line)))
  {
    RunsAreSane(g, r);
    UnmadeIsSilent(g, r.Last());
    r' := PodMakes(g, r, v);
    r' := PodEnds(g, r', v, Succeeded, false);
  }

  /** A version of another key than the recorded one, once reported, is taken over and said to be complete. */
  lemma WrongVersionMisserves(g: Setting, r: Run, m: string)
    requires r.Legal(g) && m != ""
    requires var s := r.Last();
             && s.record == g.RecordOf(m) && !g.Owns(s.version) && s.pod.Some?
             && var v := g.Parsed(s.pod.value.logs);
             && v.Some? && v.value in s.kms && g.Owns(v.value) && g.Key(s.kms[v.value]) != g.Key(m)
    ensures CanMisserve(g, r)
  {
    RecordedNames(g, m);
    var s := r.Last();
    var logs := s.pod.value.logs;
    var s1 := s.(pass := None);
    var r' := Extend(g, r, Crash, s1);
    var s2 := s1.(source := m);
    r' := Extend(g, r', ChangeSource(m), s2);
    var s3 := s2.(pass := Some(Pass(m, None, None)));
    r' := Extend(g, r', Begin, s3);
    var s4 := s3.(pass := Some(Pass(m, Some(logs), None)));
    r' := Extend(g, r', ReadLogs, s4);
    var s5 := s4.(version := g.Parsed(logs).value);
    r' := Extend(g, r', RecordVersion, s5);
    assert Misserves(g, s5) by {
      assert g.Names(s5.record, m);
    }
  }

  /** From every run whose import pod is about to mount another key than the recorded one. */
  lemma SwappedMountMisserves(g: Setting, r: Run, s': State, v: string)
    requires Sound(g.crypto) && r.Legal(g) && Does(g, Mount, r.Last(), s') && Swapped(g, Mount, r.Last())
    requires g.Owns(v) && '\n' !in v && v !in r.Last().kms
    ensures CanMisserve(g, r)
  {
    var s := r.Last();
    RunsAreSane(g, r);
    NothingNamed(g);
    var m :| g.Names(s.record, m) && g.Key(m) != g.Key(s.source);
    var n :| n != "" && s.record == g.RecordOf(n);
    RecordedNames(g, n);
    RecordNamesOneKey(g.crypto, g.dest, g.secret, s.record, m, n);
    var r' := PodImports(g, r, v);
    WrongVersionMisserves(g, r', n);
    LaterMisserves(g, r, r');
  }

  /** From every pass that compares the version with a secret that was given the version's key. */
  lemma SwappedExpectationMisserves(g: Setting, r: Run, s': State)
    requires r.Legal(g) && Does(g, Expect, r.Last(), s') && Swapped(g, Expect, r.Last())
    ensures CanMisserve(g, r)
  {
    var m := r.Last().pass.value.material;
    RecordedNames(g, m);
    var r' := Extend(g, r, Expect, s');
    var s2 := s'.(record := g.RecordOf(m));
    r' := Extend(g, r', WriteRecord, s2);
    var s3 := s2.(source := "");
    r' := Extend(g, r', ChangeSource(""), s3);
    assert Misserves(g, s3) by {
      assert g.Names(s3.record, m);
    }
  }

  /** The condition is exact: every swapped step, in every run, lets Complete be said of the wrong key. */
  lemma EverySwapMisserves(g: Setting, r: Run, a: Action, s': State, v: string)
    requires Sound(g.crypto) && r.Legal(g) && Does(g, a, r.Last(), s') && Swapped(g, a, r.Last())
    requires g.Owns(v) && '\n' !in v && v !in r.Last().kms
    ensures CanMisserve(g, r)
  {
    if a.Mount? {
      SwappedMountMisserves(g, r, s', v);
    } else {
      SwappedExpectationMisserves(g, r, s');
    }
  }

  // ---- Such runs exist ----

  /** What a finished import leaves behind: the record and version of the material, and no pod. */
  function Imported(g: Setting, m: string, v: string): State {
    State(g.RecordOf(m), v, m, map[v := m], None, {"first"}, None)
  }

  /** From nothing, a pass starts a pod. */
  lemma FirstPodStarts(g: Setting, m: string) returns (r: Run)
    requires m != ""
    ensures r.Legal(g)
    ensures r.Last() == State("", "", m, map[], Some(Pod("first", true, g.Target(), None, None, InFlight, "", false)),
                              {"first"}, Some(Pass(m, None, None)))
  {
    NothingNamed(g);
    var s0 := State("", "", m, map[], None, {}, None);
    r := Run([s0], []);
    var s1 := s0.(pass := Some(Pass(m, None, None)));
    r := Extend(g, r, Begin, s1);
    var s2 := s1.(pod := Some(Pod("first", true, g.Target(), None, None, InFlight, "", false)), uids := {"first"});
    assert s1.uids + {"first"} == {"first"};
    r := Extend(g, r, Start("first"), s2);
  }

  /** The pass takes over the reported version, proves it and cleans up: imports do complete. */
  lemma ImportCompletes(g: Setting, m: string, v: string) returns (r: Run)
    requires m != "" && g.Owns(v) && '\n' !in v
    ensures r.Legal(g) && r.Last() == Imported(g, m, v) && g.Next(r.Last(), m) == Complete
  {
    NothingNamed(g);
    RecordedNames(g, m);
    r := FirstPodStarts(g, m);
    r := PodImports(g, r, v);
    var s0 := r.Last();
    var line := s0.pod.value.logs;
    var s1 := s0.(pass := Some(Pass(m, Some(line), None)));
    r := Extend(g, r, ReadLogs, s1);
    var s2 := s1.(version := v);
    r := Extend(g, r, RecordVersion, s2);
    r := ProveAndCleanUp(g, r, m, v);
  }

  lemma ProveAndCleanUp(g: Setting, r: Run, m: string, v: string) returns (r': Run)
    requires m != "" && g.Owns(v) && r.Legal(g)
    requires var s := r.Last();
             && s.record == "" && s.version == v && s.source == m && s.kms == map[v := m] && s.uids == {"first"}
             && s.pass.Some? && s.pass.value.material == m && s.pod.Some? && s.pod.value.ours
    ensures r'.Legal(g) && r'.Last() == Imported(g, m, v)
  {
    NothingNamed(g);
    RecordedNames(g, m);
    var s := r.Last();
    var s1 := s.(pass := Some(s.pass.value.(expected := Some(g.Key(m)))));
    r' := Extend(g, r, Expect, s1);
    var s2 := s1.(record := g.RecordOf(m));
    r' := Extend(g, r', WriteRecord, s2);
    var s3 := s2.(pod := Some(s2.pod.value.(terminating := true)));
    r' := Extend(g, r', Cleanup, s3);
    var s4 := s3.(pod := None);
    r' := Extend(g, r', Vanish, s4);
    r' := Extend(g, r', Crash, s4.(pass := None));
  }

  /** Two keys and two versions are all it takes: a whole run, from nothing, that ends serving the wrong key. */
  lemma SwapFailsFromScratch(g: Setting, m: string, m': string, v: string, v': string)
    requires Sound(g.crypto) && m != "" && m' != "" && g.Key(m) != g.Key(m')
    requires g.Owns(v) && g.Owns(v') && v != v' && '\n' !in v && '\n' !in v'
    ensures exists r: Run :: r.Legal(g) && Misserves(g, r.Last())
  {
    NothingNamed(g);
    RecordedNames(g, m);
    var r := ImportCompletes(g, m, v);
    var s1 := r.Last().(version := "");
    r := Extend(g, r, LoseVersion, s1);
    var s2 := s1.(pass := Some(Pass(m, None, None)));
    r := Extend(g, r, Begin, s2);
    var s3 := s2.(pod := Some(Pod("second", true, g.Target(), None, None, InFlight, "", false)),
                  uids := s2.uids + {"second"});
    r := Extend(g, r, Start("second"), s3);
    var s4 := s3.(source := m');
    r := Extend(g, r, ChangeSource(m'), s4);
    assert Swapped(g, Mount, s4) by {
      assert g.Names(s4.record, m);
    }
    SwappedMountMisserves(g, r, s4.(pod := Some(s4.pod.value.(mounted := Some(m')))), v');
  }

  // ---- One import per destination ----

  /** The pod is evidence of the version: it is not on its way out, and a failure names it. */
  predicate Traces(g: Setting, p: Pod, w: string) {
    g.Ours(p) && !p.terminating && p.made == Some(w) && (p.phase == Failed ==> g.Parsed(p.logs).Some?)
  }

  /** The step takes away the last trace of a version of the destination. */
  predicate Forgets(g: Setting, a: Action, s: State) {
    match a
    case LoseVersion =>
      g.Owns(s.version) && s.version in s.kms && !(s.pod.Some? && Traces(g, s.pod.value, s.version))
    case Replace(_) =>
      s.pod.Some? && s.pod.value.made.Some? && Traces(g, s.pod.value, s.pod.value.made.value)
    case Progress(phase, logs) =>
      && phase == Failed && g.Parsed(logs).None? && s.pod.Some? && g.Ours(s.pod.value)
      && s.pod.value.made.Some? && s.version != s.pod.value.made.value
    case _ => false
  }

  /** Every version of the destination is traced by status or by the pod, and there is at most one. */
  ghost predicate Traced(g: Setting, s: State) {
    && (forall w :: w in s.kms && g.Owns(w) ==> s.version == w || (s.pod.Some? && Traces(g, s.pod.value, w)))
    && (s.pod.Some? && g.Ours(s.pod.value) && s.pod.value.terminating && s.pod.value.made.None? ==>
          s.pod.value.phase == Failed)
    && (forall v, w :: v in s.kms && w in s.kms && g.Owns(v) && g.Owns(w) ==> v == w)
  }

  lemma StepKeepsTraced(g: Setting, a: Action, s: State, s': State)
    requires Sane(g, s) && Traced(g, s) && Does(g, a, s, s') && !Forgets(g, a, s)
    ensures Traced(g, s')
  {
  }

  /**
  Under every schedule of crashes between import and status write, at most one version of the
  destination is ever created, unless a step forgets it.
  */
  lemma {:induction false} AtMostOneVersion(g: Setting, r: Run)
    requires r.Legal(g) && r.Avoids((a, s) => Forgets(g, a, s))
    requires forall w :: w in r.states[0].kms ==> !g.Owns(w)
    ensures Traced(g, r.Last())
    ensures forall v, w :: v in r.Last().kms && w in r.Last().kms && g.Owns(v) && g.Owns(w) ==> v == w
    decreases |r.acts|
  {
    if r.acts != [] {
      InitLegal(g, r);
      var n := |r.acts| - 1;
      assert forall i :: 0 <= i < n ==> r.Init().acts[i] == r.acts[i] && r.Init().states[i] == r.states[i];
      AtMostOneVersion(g, r.Init());
      RunsAreSane(g, r.Init());
      StepKeepsTraced(g, r.acts[n], r.Init().Last(), r.Last());
    }
  }

  // ---- Every forgetting step makes a second version possible ----

  ghost predicate TwoVersions(g: Setting, s: State) {
    exists v, w :: v != w && v in s.kms && w in s.kms && g.Owns(v) && g.Owns(w)
  }

  /** The run goes on to a second version. */
  ghost predicate CanDuplicate(g: Setting, r: Run) {
    exists r': Run :: r'.Legal(g) && r.acts <= r'.acts && r.states <= r'.states && TwoVersions(g, r'.Last())
  }

  /** A pass without a usable version and without a pod starts one, which makes a version of its own. */
  lemma SecondPodMakes(g: Setting, r: Run, v: string, w: string, uid: string) returns (r': Run)
    requires r.Legal(g) && g.Owns(v) && g.Owns(w) && v != w
    requires var s := r.Last();
             && s.pass.Some? && Output(g, s).None? && g.Next(s, s.pass.value.material) == RunImport && s.source != ""
             && s.pod.None? && uid !in s.uids && v in s.kms && w !in s.kms
    ensures r'.Legal(g) && TwoVersions(g, r'.Last()) && r.acts <= r'.acts && r.states <= r'.states
  {
    var s := r.Last();
    var s1 := s.(pod := Some(Pod(uid, true, g.Target(), None, None, InFlight, "", false)), uids := s.uids + {uid});
    r' := Extend(g, r, Start(uid), s1);
    r' := PodMakes(g, r', w);
    assert v in r'.Last().kms && w in r'.Last().kms;
  }

  /** A new pass over a source that fits the record, told to import because status has no version. */
  lemma PassBegins(g: Setting, r: Run) returns (r': Run)
    requires r.Legal(g) && !g.Owns(r.Last().version)
    ensures r'.Legal(g) && r.acts <= r'.acts && r.states <= r'.states
    ensures var s, s' := r.Last(), r'.Last();
            && s' == s.(source := s'.source, pass := Some(Pass(s'.source, None, None)))
            && s'.source != "" && g.Next(s', s'.source) == RunImport
  {
    RunsAreSane(g, r);
    NothingNamed(g);
    var s := r.Last();
    var m := "key";
    if s.record != "" {
      m :| m != "" && s.record == g.RecordOf(m);
      RecordedNames(g, m);
    }
    var s1 := s.(pass := None);
    r' := Extend(g, r, Crash, s1);
    var s2 := s1.(source := m);
    r' := Extend(g, r', ChangeSource(m), s2);
    r' := Extend(g, r', Begin, s2.(pass := Some(Pass(m, None, None))));
  }

  /** A pass that may import makes way for a new pod. */
  lemma PodMakesWay(g: Setting, r: Run) returns (r': Run)
    requires r.Legal(g)
    requires var s := r.Last();
             && s.pass.Some? && g.Next(s, s.pass.value.material) == RunImport
             && (s.pod.Some? ==> s.pod.value.terminating || !s.pod.value.ours || Replaceable(g, s.pod.value, true))
    ensures r'.Legal(g) && r.acts <= r'.acts && r.states <= r'.states
    ensures r'.Last() == r.Last().(pod := None)
  {
    var s := r.Last();
    r' := r;
    if s.pod.Some? {
      if !s.pod.value.terminating && s.pod.value.ours {
        s := s.(pod := Some(s.pod.value.(terminating := true)));
        r' := Extend(g, r', Replace(true), s);
      }
      r' := Extend(g, r', Vanish, s.(pod := None));
    } else {
      assert s.(pod := None) == s;
    }
  }

  /** A version that neither status nor the pod traces is imported a second time. */
  lemma UntracedDuplicates(g: Setting, r: Run, v: string, w: string, uid: string)
    requires r.Legal(g) && g.Owns(v) && g.Owns(w) && v in r.Last().kms && w !in r.Last().kms && uid !in r.Last().uids
    requires var s := r.Last();
             && !g.Owns(s.version)
             && (s.pod.Some? ==> s.pod.value.terminating || !s.pod.value.ours || Replaceable(g, s.pod.value, true))
    ensures CanDuplicate(g, r)
  {
    var r' := PassBegins(g, r);
    r' := PodMakesWay(g, r');
    r' := SecondPodMakes(g, r', v, w, uid);
  }

  /**
  The condition is exact: from every run that has forgotten nothing so far, a step that forgets can be
  continued to a second version of the destination.
  */
  lemma EveryForgettingDuplicates(g: Setting, r: Run, a: Action, s': State, w: string, uid: string)
    requires r.Legal(g) && Traced(g, r.Last()) && Does(g, a, r.Last(), s') && Forgets(g, a, r.Last())
    requires g.Owns(w) && w !in r.Last().kms && uid !in r.Last().uids
    ensures CanDuplicate(g, r)
  {
    NothingNamed(g);
    RunsAreSane(g, r);
    var s := r.Last();
    var v := if a.LoseVersion? then s.version else s.pod.value.made.value;
    assert v in s'.kms && g.Owns(v) by {
      MadeIsOwned(g, r);
    }
    var r' := Extend(g, r, a, s');
    UntracedDuplicates(g, r', v, w, uid);
  }

  /** What a pod of the destination made is a version of the destination. */
  lemma {:induction false} MadeIsOwned(g: Setting, r: Run)
    requires r.Legal(g)
    ensures var p := r.Last().pod; p.Some? && g.Ours(p.value) && p.value.made.Some? ==> g.Owns(p.value.made.value)
    decreases |r.acts|
  {
    if r.acts != [] {
      InitLegal(g, r);
      MadeIsOwned(g, r.Init());
    }
  }

  // ---- From nothing ----

  /** Lost status: the version is imported, cleaned up after and forgotten, and imported again. */
  lemma LostStatusDuplicates(g: Setting, m: string, v: string, w: string) returns (r: Run)
    requires m != "" && g.Owns(v) && g.Owns(w) && v != w && '\n' !in v
    ensures r.Legal(g) && TwoVersions(g, r.Last())
  {
    NothingNamed(g);
    RecordedNames(g, m);
    r := ImportCompletes(g, m, v);
    var s1 := r.Last().(version := "");
    r := Extend(g, r, LoseVersion, s1);
    r := Extend(g, r, Begin, s1.(pass := Some(Pass(m, None, None))));
    r := SecondPodMakes(g, r, v, w, "second");
  }

  /** From nothing, a pod makes a version and fails, printing it or not. */
  lemma FirstPodFails(g: Setting, m: string, v: string, silent: bool) returns (r: Run)
    requires m != "" && g.Owns(v) && '\n' !in v
    ensures r.Legal(g)
    ensures var logs := if silent then "" else MARKER + " " + v;
            && g.Parsed(logs) == (if silent then None else Some(v))
            && r.Last() == State("", "", m, map[v := m],
                                 Some(Pod("first", true, g.Target(), Some(m), Some(v), Failed, logs, false)),
                                 {"first"}, Some(Pass(m, None, None)))
  {
    NothingNamed(g);
    r := FirstPodStarts(g, m);
    r := PodMakes(g, r, v);
    r := PodEnds(g, r, v, Failed, silent);
  }

  /** The failed pod is replaced, and the second one makes another version. */
  lemma ReplacedPodDuplicates(g: Setting, r: Run, v: string, w: string, readable: bool) returns (r': Run)
    requires r.Legal(g) && g.Owns(v) && g.Owns(w) && v != w
    requires var s := r.Last();
             && s.record == "" && s.version == "" && s.source != "" && s.kms.Keys == {v} && s.uids == {"first"}
             && s.pass == Some(Pass(s.source, None, None)) && s.pod.Some? && Replaceable(g, s.pod.value, readable)
    ensures r'.Legal(g) && TwoVersions(g, r'.Last())
  {
    NothingNamed(g);
    var s := r.Last();
    var s1 := s.(pod := Some(s.pod.value.(terminating := true)));
    r' := Extend(g, r, Replace(readable), s1);
    r' := Extend(g, r', Vanish, s1.(pod := None));
    r' := SecondPodMakes(g, r', v, w, "second");
  }

  /** Unreadable logs: a failed pod whose logs name its version is replaced because they cannot be read. */
  lemma UnreadableLogsDuplicate(g: Setting, m: string, v: string, w: string) returns (r: Run)
    requires m != "" && g.Owns(v) && g.Owns(w) && v != w && '\n' !in v
    ensures r.Legal(g) && TwoVersions(g, r.Last())
  {
    r := FirstPodFails(g, m, v, false);
    r := ReplacedPodDuplicates(g, r, v, w, false);
  }

  /** A hidden version: a pod fails after its version was made and before naming it. */
  lemma HiddenVersionDuplicates(g: Setting, m: string, v: string, w: string) returns (r: Run)
    requires m != "" && g.Owns(v) && g.Owns(w) && v != w && '\n' !in v
    ensures r.Legal(g) && TwoVersions(g, r.Last())
  {
    r := FirstPodFails(g, m, v, true);
    r := ReplacedPodDuplicates(g, r, v, w, true);
  }
}
