/**
The one-shot import pod as the controller drives it, request by request: the cluster moves before
every request, requests fail, and a write may take effect although its answer is lost. Every method
keeps Valid, so whatever the code does is a legal run of ImportMachine.
*/
module ImportJobs {
  import opened Wrappers
  import opened KmsImport
  import opened ImportMachine

  datatype Error =
    | Foreign          // the pod is managed by another owner
    | Changed          // the pod changed while the previous run was deleted
    | Unavailable      // a request failed or a wait timed out
    | NoVersion        // the output names no version of the destination
    | Terminal         // the source is missing or holds another key
    | WrongKey         // the version serves another key than the source

  datatype Fault = Answered | Refused | Unanswered

  /** The same pod later: its identity is fixed, and a finished pod does not change. */
  predicate SamePod(p: Pod, p': Pod) {
    && p.uid == p'.uid && p.ours == p'.ours && p.target == p'.target && p.terminating == p'.terminating
    && (p.phase != InFlight ==> p.phase == p'.phase && p.logs == p'.logs)
  }

  /** What the cluster may do on its own: status and the pass's memory are the controller's. */
  ghost predicate Drift(s: State, s': State) {
    && s.record == s'.record && s.version == s'.version && s.pass == s'.pass && s.uids <= s'.uids
    && (s'.pod.Some? && s'.pod.value.uid in s.uids ==> s.pod.Some? && SamePod(s.pod.value, s'.pod.value))
    && (s'.pod.Some? && s'.pod.value.uid !in s.uids ==> !s'.pod.value.ours)
    && (s.pod.Some? ==> Stays(s.pod.value, s'.pod))
    && Grows(s.kms, s'.kms)
  }

  /** Versions are added, never changed. */
  ghost predicate Grows(kms: map<string, string>, kms': map<string, string>) {
    forall v :: v in kms ==> v in kms' && kms'[v] == kms[v]
  }

  /** A pod of this owner that nobody deletes is still there. */
  ghost predicate Stays(p: Pod, later: Option<Pod>) {
    p.ours && !p.terminating ==> later.Some? && SamePod(p, later.value)
  }

  lemma DriftTransitive(a: State, b: State, c: State)
    requires Drift(a, b) && Drift(b, c)
    ensures Drift(a, c)
  {
  }

  lemma EventDrifts(g: Setting, a: Action, s: State, s': State)
    requires IsEnv(a) && Does(g, a, s, s') && Sane(g, s)
    ensures Drift(s, s')
  {
  }

  // ---- A pass when nothing else moves and nothing fails ----

  function Without(s: State): State { s.(pass := None) }

  /** This owner's pod is on its way out. */
  function Cleaned(s: State): State {
    if s.pod.Some? && s.pod.value.ours then s.(pod := Some(s.pod.value.(terminating := true))) else s
  }

  /** The version in status is compared with the source, and the import recorded if they agree. */
  function Verified(g: Setting, s: State): (Option<Error>, State) {
    if s.version in s.kms && g.Key(s.kms[s.version]) == g.Key(s.source)
    then (None, Cleaned(s.(record := g.RecordOf(s.source))))
    else (Some(WrongKey), s)
  }

  function NewPod(g: Setting, uid: string): Pod { Pod(uid, true, g.Target(), None, None, InFlight, "", false) }

  function Started(g: Setting, s: State, uid: string): State {
    s.(pod := Some(NewPod(g, uid)), uids := s.uids + {uid})
  }

  /** A pod is started where there is none, waited for, replaced, left alone, or has its logs read. */
  function Ran(g: Setting, s: State, uid: string): (Result<string, Error>, State) {
    match s.pod
    case None => (Err(Unavailable), Started(g, s, uid))
    case Some(p) =>
      if !p.ours then (Err(Foreign), s)
      else if Replaceable(g, p, true) then (Err(Unavailable), Cleaned(s))
      else if p.phase == Succeeded || g.Parsed(p.logs).Some? then (Ok(p.logs), s)
      else (Err(Unavailable), s)
  }

  function ImportRan(g: Setting, s: State, uid: string): (Option<Error>, State) {
    match Ran(g, s, uid)
    case (Err(e), s') => (Some(e), s')
    case (Ok(logs), s') =>
      match g.Parsed(logs)
      case None => (Some(NoVersion), s')
      case Some(v) => Verified(g, Cleaned(s'.(version := v)))
  }

  function Passed(g: Setting, s: State, uid: string): (Option<Error>, State) {
    match g.Next(s, s.source)
    case Complete => (None, Cleaned(s))
    case SourceMissing => (Some(Terminal), s)
    case Mismatch => (Some(Terminal), s)
    case Verify => Verified(g, s)
    case RunImport => ImportRan(g, s, uid)
  }

  /**
  A pass that may import and finds its pod's version of the source's key ends complete: the version and
  the record are in status, the pod is on its way out, and every later pass over it changes nothing.
  */
  lemma FoundVersionCompletes(g: Setting, s: State, uid: string, v: string)
    requires g.Next(s, s.source) == RunImport && s.source != ""
    requires s.pod.Some? && g.Ours(s.pod.value) && g.Parsed(s.pod.value.logs) == Some(v)
    requires v in s.kms && g.Key(s.kms[v]) == g.Key(s.source)
    ensures var (fault, s') := Passed(g, s, uid);
            && fault.None? && s'.version == v && g.Names(s'.record, s.source) && s'.pod.value.terminating
            && g.Next(s', s'.source) == Complete && forall later :: Passed(g, s', later) == (None, s')
  {
    ParsedVersionsAreOwned(s.pod.value.logs, g.dest);
    RecordedNames(g, s.source);
  }

  /** What status may lose between passes. */
  datatype Loss = Loss(version: bool, record: bool)

  function Lost(s: State, loss: Loss): State {
    s.(version := if loss.version then "" else s.version, record := if loss.record then "" else s.record)
  }

  /** A sequence of passes, each after its losses. */
  function AfterPasses(g: Setting, s: State, losses: seq<Loss>, names: set<string> -> string): State {
    if losses == [] then s
    else
      var before := Lost(AfterPasses(g, s, losses[..|losses| - 1], names), losses[|losses| - 1]);
      Passed(g, before, names(before.uids)).1
  }

  /** This owner's pod is gone or on its way out. */
  predicate NoneLeft(s: State) { s.pod.Some? && s.pod.value.ours ==> s.pod.value.terminating }

  class JobRunner {
    const g: Setting
    const weather: (nat, State) -> (Action, State)
    const gusts: nat -> nat           // how many events precede the request made at this time
    const faults: nat -> Fault
    const names: set<string> -> string
    var clock: nat
    var s: State
    ghost var run: Run

    ghost predicate Valid()
      reads this
    {
      && run.Legal(g) && run.Last() == s && Sane(g, s)
      && forall uids :: names(uids) !in uids
    }

    /** Every request is answered. */
    ghost predicate Healthy() { forall t :: faults(t) == Answered }

    /** And nothing moves. */
    ghost predicate Quiet() { Healthy() && forall t :: gusts(t) == 0 }

    /** A pass is under way and has been told to import. */
    ghost predicate Importing()
      reads this
    {
      s.pass.Some? && g.Next(s, s.pass.value.material) == RunImport
    }

    constructor (setting: Setting, initial: State, weather: (nat, State) -> (Action, State), gusts: nat -> nat,
                 faults: nat -> Fault, names: set<string> -> string)
      requires Fresh(setting, initial)
      requires forall uids :: names(uids) !in uids
      ensures Valid() && g == setting && s == initial && run.acts == []
    {
      g, s := setting, initial;
      this.weather := weather;
      this.gusts := gusts;
      this.faults := faults;
      this.names := names;
      clock := 0;
      run := Run([initial], []);
      new;
      RunsAreSane(g, run);
    }

    method Take(ghost a: Action, next: State)
      requires Valid() && Does(g, a, s, next)
      modifies this`s, this`run
      ensures Valid() && s == next && run == old(run).Then(a, next)
    {
      ThenLegal(g, run, a, next);
      StepKeepsSane(g, a, s, next);
      run := run.Then(a, next);
      s := next;
    }

    /** Any number of things happen in the cluster, then a request meets its fate. */
    method Interfere() returns (fate: Fault)
      requires Valid()
      modifies this
      ensures Valid() && Drift(old(s), s)
      ensures Healthy() ==> fate == Answered
      ensures Quiet() ==> s == old(s)
    {
      fate := faults(clock);
      var n := gusts(clock);
      while n > 0
        invariant Valid() && Drift(old(s), s)
        invariant Quiet() ==> n == 0 && s == old(s)
      {
        var (a, next) := weather(clock, s);
        if IsEnv(a) && Does(g, a, s, next) {
          EventDrifts(g, a, s, next);
          DriftTransitive(old(s), s, next);
          Take(a, next);
        }
        clock := clock + 1;
        n := n - 1;
      }
      clock := clock + 1;
    }

    /** Reads the pod's logs by name. */
    method GetLogs() returns (out: Result<string, Error>)
      requires Valid() && Importing()
      modifies this
      ensures Valid() && Importing()
      ensures out.Err? ==> Drift(old(s), s)
      ensures out.Ok? ==>
                && s.pod.Some? && out.value == s.pod.value.logs
                && Drift(old(s), s.(pass := old(s.pass)))
                && s.pass.value == old(s).pass.value.(output := Some(out.value))
      ensures Healthy() ==> (out.Ok? <==> s.pod.Some?)
      ensures Quiet() ==> Without(s) == Without(old(s))
    {
      var fate := Interfere();
      if fate != Answered || s.pod.None? {
        return Err(Unavailable);
      }
      Take(ReadLogs, s.(pass := Some(s.pass.value.(output := Some(s.pod.value.logs)))));
      out := Ok(s.pod.value.logs);
    }

    /** Waits for the pod of this name to succeed. */
    method WaitForPodSucceeded() returns (ok: bool)
      requires Valid()
      modifies this
      ensures Valid() && Drift(old(s), s)
      ensures ok ==> s.pod.Some? && s.pod.value.phase == Succeeded
      ensures Healthy() ==> (ok <==> s.pod.Some? && s.pod.value.phase == Succeeded)
      ensures Quiet() ==> s == old(s)
    {
      var fate := Interfere();
      ok := fate == Answered && s.pod.Some? && s.pod.value.phase == Succeeded;
    }

    /** Deletes the pod read, and no other: the request names its UID. */
    method DeletePod(read: Pod, ghost a: Action) returns (fault: Option<Error>)
      requires Valid() && a in {Replace(true), Replace(false), Cleanup}
      requires read.ours && s.pass.Some? && read.uid in s.uids
      requires s.pod.Some? && s.pod.value.uid == read.uid ==> SamePod(read, s.pod.value)
      requires a.Replace? ==> Importing() && Replaceable(g, read, a.readable)
      requires a.Cleanup? ==> g.Owns(s.version)
      modifies this
      ensures Valid() && s.record == old(s.record) && s.version == old(s.version) && s.pass == old(s.pass)
      ensures old(s.uids) <= s.uids
      ensures Grows(old(s.kms), s.kms)
      ensures fault == Some(Changed) ==> Drift(old(s), s) && s.pod.Some? && s.pod.value.uid != read.uid
      ensures fault.None? && s.pod.Some? ==> s.pod.value.uid == read.uid && s.pod.value.terminating
      ensures Healthy() ==> fault.None? || fault == Some(Changed)
      ensures Quiet() && old(s.pod) == Some(read) ==> fault.None? && s == Cleaned(old(s))
    {
      var fate := Interfere();
      if fate == Refused {
        return Some(Unavailable);
      }
      if s.pod.None? {
        return None;
      }
      if s.pod.value.uid != read.uid {
        return Some(Changed);
      }
      Take(a, s.(pod := Some(s.pod.value.(terminating := true))));
      fault := if fate == Answered then None else Some(Unavailable);
    }

    /** Creates this run's pod; the name must be free when the request arrives. */
    method CreatePod() returns (ok: bool, ghost created: bool)
      requires Valid() && Importing() && Output(g, s).None?
      modifies this
      ensures Valid() && s.record == old(s.record) && s.version == old(s.version) && s.pass == old(s.pass)
      ensures ok ==> created
      ensures created ==>
                && s.pod.Some? && s.pod == Some(NewPod(g, s.pod.value.uid))
                && s.pod.value.uid !in old(s.uids)
      ensures !created ==> Drift(old(s), s)
      ensures Healthy() ==> (ok <==> created) && (!created ==> s.pod.Some?)
      ensures Quiet() && old(s.pod).None? ==>
                ok && s == Started(g, old(s), names(old(s.uids)))
    {
      var fate := Interfere();
      if fate == Refused || s.pod.Some? {
        return false, false;
      }
      var uid := names(s.uids);
      Take(Start(uid), s.(pod := Some(NewPod(g, uid)), uids := s.uids + {uid}));
      return fate == Answered, true;
    }

    /** Waits for the name to be free, starts this run's pod and waits for its output. */
    method StartPod() returns (out: Result<string, Error>, ghost created: bool)
      requires Valid() && Importing() && Output(g, s).None?
      modifies this
      ensures Valid() && Importing() && s.record == old(s.record) && s.version == old(s.version)
      ensures s.pass.value.(output := None) == old(s).pass.value.(output := None)
      ensures created ==> s.pod.Some? && g.Ours(s.pod.value) && !s.pod.value.terminating
      ensures out.Ok? ==> created && s.pass.value.output == Some(out.value) && out.value == s.pod.value.logs
      ensures !created ==> Drift(old(s), s)
      ensures Healthy() && !created ==> s.pod.Some?
      ensures Healthy() && created ==>
                out == if s.pod.value.phase == Succeeded then Ok(s.pod.value.logs) else Err(Unavailable)
      ensures Quiet() ==>
                && out == Err(Unavailable)
                && Without(s) == Without(if old(s.pod).None? then Started(g, old(s), names(old(s.uids))) else old(s))
    {
      created := false;
      var fate := Interfere();
      if fate != Answered || s.pod.Some? {
        return Err(Unavailable), created;
      }
      ghost var free := s;
      var ok;
      ok, created := CreatePod();
      if !ok {
        if !created {
          DriftTransitive(old(s), free, s);
        }
        return Err(Unavailable), created;
      }
      fate := Interfere();
      if fate != Answered || s.pod.None? {
        return Err(Unavailable), created;
      }
      if s.pod.value.phase != Succeeded {
        ok := WaitForPodSucceeded();
        if !ok {
          return Err(Unavailable), created;
        }
      }
      out := GetLogs();
    }

    /**
    Runs the import pod, or resumes the one found. A new pod is created only if none was found, or the
    one found may be replaced; a pod in flight, succeeded, or failed with readable logs that name a
    version is kept and its own logs are the answer; another owner's pod is refused and left alone.
    */
    method RunJob()
      returns (out: Result<string, Error>, ghost found: Option<Pod>, ghost readable: bool, ghost created: bool)
      requires Valid() && Importing() && Output(g, s).None?
      modifies this
      ensures Valid() && Importing()
      ensures s.record == old(s.record) && s.version == old(s.version)
      ensures s.pass.value.(output := None) == old(s).pass.value.(output := None)
      ensures out.Ok? ==> s.pass.value.output == Some(out.value)
      ensures created ==> found.None? || Replaceable(g, found.value, readable)
      ensures found.Some? && !found.value.ours ==> !created && out == Err(Foreign)
      ensures found.Some? && g.Ours(found.value) && !Replaceable(g, found.value, readable) ==>
                !created && Stays(found.value, s.pod)
      ensures created ==> s.pod.Some? && g.Ours(s.pod.value) && !s.pod.value.terminating
      ensures !created && out.Ok? ==> found.Some? && g.Ours(found.value)
      ensures out.Ok? ==> s.pod.Some? && out.value == s.pod.value.logs
      ensures Healthy() && created ==>
                out == if s.pod.value.phase == Succeeded then Ok(s.pod.value.logs) else Err(Unavailable)
      ensures Healthy() && !created && (found.Some? && found.value.ours ==> Replaceable(g, found.value, readable)) ==>
                s.pod.Some? && NoneLeft(s)
      ensures Healthy() && found.Some? && !found.value.terminating && g.Ours(found.value) ==>
                || Replaceable(g, found.value, true)
                || (&& s.pod.Some? && SamePod(found.value, s.pod.value)
                    && (|| out == Ok(s.pod.value.logs)
                        || (found.value.phase == InFlight && g.Parsed(s.pod.value.logs).None?)))
      ensures Quiet() ==> (out, Without(s)) == Ran(g, Without(old(s)), names(old(s.uids)))
    {
      found, readable, created := None, false, false;
      var fate := Interfere();
      if fate != Answered {
        return Err(Unavailable), found, readable, created;
      }
      found := s.pod;
      if s.pod.Some? {
        var existing := s.pod.value;
        if !existing.ours {
          return Err(Foreign), found, readable, created;
        }
        if existing.target == g.Target() {
          var resumed;
          out, resumed, readable := Resume(existing);
          if resumed {
            return out, found, readable, created;
          }
        }
        var fault := DeletePod(existing, Replace(readable));
        if fault.Some? {
          return Err(fault.value), found, readable, created;
        }
      }
      out, created := StartPod();
    }

    /** What to do with this owner's pod for the current destination: its result, or permission to replace it. */
    method Resume(existing: Pod) returns (out: Result<string, Error>, resumed: bool, ghost readable: bool)
      requires Valid() && Importing() && Output(g, s).None? && s.pod == Some(existing) && g.Ours(existing)
      modifies this
      ensures Valid() && Importing() && s.record == old(s.record) && s.version == old(s.version)
      ensures old(s.uids) <= s.uids
      ensures s.pass.value.(output := None) == old(s).pass.value.(output := None)
      ensures out.Ok? ==> s.pass.value.output == Some(out.value) && s.pod.Some? && out.value == s.pod.value.logs
      ensures resumed <==> !Replaceable(g, existing, readable)
      ensures Stays(existing, s.pod)
      ensures s.pod.Some? && s.pod.value.uid == existing.uid ==> SamePod(existing, s.pod.value)
      ensures !resumed ==> Output(g, s).None?
      ensures Drift(old(s), s.(pass := old(s.pass)))
      ensures Healthy() && !existing.terminating ==>
                && readable
                && (resumed ==>
                      || out == Ok(s.pod.value.logs)
                      || (existing.phase == InFlight && g.Parsed(s.pod.value.logs).None?))
      ensures Quiet() ==> readable && Without(s) == Without(old(s)) && (resumed ==> out == Ran(g, old(s), "").0)
    {
      readable := true;
      if existing.phase == Succeeded {
        out := GetLogs();
        return out, true, readable;
      }
      if existing.phase == InFlight {
        var ok := WaitForPodSucceeded();
        out := GetLogs();
        if !ok && out.Ok? && g.Parsed(out.value).None? {
          out := Err(Unavailable);
        }
        return out, true, readable;
      }
      out := GetLogs();
      readable := out.Ok? && s.pod.value.uid == existing.uid;
      resumed := out.Ok? && g.Parsed(out.value).Some?;
    }

    /** Imports the key and returns the version created, which the pass remembers and the destination owns. */
    method ImportKey() returns (version: Result<string, Error>)
      requires Valid() && Importing() && Output(g, s).None?
      modifies this
      ensures Valid() && Importing() && s.record == old(s.record) && s.version == old(s.version)
      ensures s.pass.value.(output := None) == old(s).pass.value.(output := None)
      ensures version.Ok? ==> Output(g, s) == Some(version.value) && g.Owns(version.value) && version.value in s.kms
      ensures Quiet() ==>
                var (out, next) := Ran(g, Without(old(s)), names(old(s.uids)));
                && Without(s) == next
                && version == if out.Err? then Err(out.error)
                              else if g.Parsed(out.value).Some? then Ok(g.Parsed(out.value).value) else Err(NoVersion)
    {
      var out, _, _, _ := RunJob();
      if out.Err? {
        return Err(out.error);
      }
      match g.Parsed(out.value)
      case None => version := Err(NoVersion);
      case Some(v) => version := Ok(v);
    }

    /** Deletes the import pod once status has its version; another owner's pod is left alone. */
    method CleanupImportPod() returns (ok: bool)
      requires Valid() && s.pass.Some? && g.Owns(s.version)
      modifies this
      ensures Grows(old(s.kms), s.kms)
      ensures Valid() && s.record == old(s.record) && s.version == old(s.version) && s.pass == old(s.pass)
      ensures Healthy() ==> ok && NoneLeft(s)
      ensures Quiet() ==> s == Cleaned(old(s))
    {
      var fate := Interfere();
      if fate != Answered {
        return false;
      }
      if s.pod.None? || !s.pod.value.ours {
        return true;
      }
      var fault := DeletePod(s.pod.value, Cleanup);
      ok := fault != Some(Unavailable);
    }

    /** Reads the source's key again and then the version's: equal, or a fault. */
    method Compare() returns (fault: Option<Error>)
      requires Valid() && s.pass.Some? && s.pass.value.material != "" && g.Owns(s.version)
      requires g.Next(s, s.pass.value.material) in {Verify, Complete}
      modifies this
      ensures Valid() && s.pass.Some? && s.version == old(s.version) && s.record == old(s.record) && s.version in s.kms
      ensures s.pass.value.(expected := None) == old(s).pass.value.(expected := None)
      ensures fault.None? ==> s.pass.value.expected == Some(g.Key(s.kms[s.version]))
      ensures fault == Some(WrongKey) ==> s.pass.value.expected != Some(g.Key(s.kms[s.version]))
      ensures Healthy() && fault == Some(Unavailable) ==> s.source == ""
      ensures Quiet() ==> Without(s) == Without(old(s))
      ensures Quiet() && s.source != "" ==>
                fault == if g.Key(s.kms[s.version]) == g.Key(s.source) then None else Some(WrongKey)
    {
      var fate := Interfere();
      if fate != Answered || s.source == "" {
        return Some(Unavailable);
      }
      Take(Expect, s.(pass := Some(s.pass.value.(expected := Some(g.Key(s.source))))));
      fate := Interfere();   // a version still being finalised cannot be read
      if fate != Answered {
        return Some(Unavailable);
      }
      fault := if Some(g.Key(s.kms[s.version])) == s.pass.value.expected then None else Some(WrongKey);
    }

    /** Reads the recorded version back, and records the import only if it serves the source's key. */
    method VerifyImported() returns (fault: Option<Error>)
      requires Valid() && s.pass.Some? && s.pass.value.material != "" && g.Owns(s.version)
      requires g.Next(s, s.pass.value.material) in {Verify, Complete}
      modifies this
      ensures Valid() && s.pass.Some? && s.version == old(s.version)
      ensures s.record in {old(s.record), g.RecordOf(old(s).pass.value.material)}
      ensures fault.None? ==>
                && s.record == g.RecordOf(old(s).pass.value.material)
                && s.pass.value.expected == Some(g.Key(s.kms[s.version]))
      ensures fault == Some(WrongKey) ==>
                s.record == old(s.record) && s.pass.value.expected != Some(g.Key(s.kms[s.version]))
      ensures Healthy() && fault.None? ==> NoneLeft(s)
      ensures Quiet() && old(s).pass.value.material == old(s).source ==>
                (fault, Without(s)) == Verified(g, Without(old(s)))
    {
      fault := Compare();
      if fault.Some? {
        return;
      }
      var fate := Interfere();
      if fate == Refused {
        return Some(Unavailable);
      }
      Take(WriteRecord, s.(record := g.RecordOf(s.pass.value.material)));
      if fate == Unanswered {
        return Some(Unavailable);
      }
      var _ := CleanupImportPod();
      fault := None;
    }

    /** Writes the version to status. */
    method PersistVersion(version: string) returns (fault: Option<Error>)
      requires Valid() && Importing() && Output(g, s) == Some(version) && g.Owns(version)
      modifies this
      ensures Valid() && s.pass == old(s.pass) && s.record == old(s.record)
      ensures fault.None? ==> s.version == version
      ensures Quiet() ==> fault.None? && s == old(s).(version := version)
    {
      var fate := Interfere();
      if fate != Refused {
        Take(RecordVersion, s.(version := version));
      }
      fault := if fate == Answered then None else Some(Unavailable);
    }

    /** The import branch: the version is persisted before it is verified and before the pod is deleted. */
    method ImportAndVerify() returns (fault: Option<Error>)
      requires Valid() && Importing() && Output(g, s).None?
      modifies this
      ensures Valid() && s.pass.Some?
      ensures fault.None? ==> g.Owns(s.version) && s.record == g.RecordOf(old(s).pass.value.material)
      ensures Healthy() && fault.None? ==> NoneLeft(s)
      ensures Quiet() && old(s).pass.value.material == old(s).source ==>
                (fault, Without(s)) == ImportRan(g, Without(old(s)), names(old(s.uids)))
    {
      var version := ImportKey();
      if version.Err? {
        return Some(version.error);
      }
      fault := PersistVersion(version.value);
      if fault.None? {
        var _ := CleanupImportPod();
        fault := VerifyImported();
      }
    }

    /**
    One reconcile pass. It begins by reading the source, does what the classification of the status it
    found says and nothing else, and leaves nothing in memory; a pass without a fault ends complete.
    */
    method ImportPass() returns (step: Step, fault: Option<Error>)
      requires Valid() && s.pass.None?
      modifies this
      ensures Valid() && s.pass.None?
      ensures step in {Mismatch, SourceMissing} ==> fault.Some?
      ensures step in {Complete, Mismatch, SourceMissing} ==> s.record == old(s.record) && s.version == old(s.version)
      ensures step == Verify ==> s.version == old(s.version)
      ensures fault.None? ==> g.Owns(s.version) && RecordMatchesTarget(g.crypto, g.dest, g.secret, s.record)
      ensures Healthy() && fault.None? ==> NoneLeft(s)
      ensures Quiet() ==>
                step == g.Next(old(s), old(s.source)) && (fault, s) == Passed(g, old(s), names(old(s.uids)))
    {
      var _ := Interfere();
      Take(Begin, s.(pass := Some(Pass(s.source, None, None))));
      var material := s.pass.value.material;
      step := g.Next(s, material);
      fault := None;
      match step {
        case Complete =>
          var _ := CleanupImportPod();
          NamesItsTarget(g, s.record, material);
        case SourceMissing => fault := Some(Terminal);
        case Mismatch => fault := Some(Terminal);
        case Verify =>
          fault := VerifyImported();
          RecordedNames(g, material);
        case RunImport =>
          fault := ImportAndVerify();
          RecordedNames(g, material);
      }
      Take(Crash, s.(pass := None));
    }

    /**
    Any number of passes, with status lost in between: the history is a run of the machine, and if the
    secret is never swapped under a pass, whatever is or may come to be served holds the recorded key.
    */
    method RunPasses(losses: seq<Loss>)
      requires Valid() && s.pass.None?
      modifies this
      ensures Valid() && s.pass.None?
      ensures Sound(g.crypto) && Steady(g, run) ==> Served(g, s)
      ensures Quiet() ==> s == AfterPasses(g, old(s), losses, names)
    {
      for i := 0 to |losses|
        invariant Valid() && s.pass.None?
        invariant Quiet() ==> s == AfterPasses(g, old(s), losses[..i], names)
      {
        assert losses[..i + 1][..i] == losses[..i];
        if losses[i].version {
          Take(LoseVersion, s.(version := ""));
        }
        if losses[i].record {
          Take(LoseRecord, s.(record := ""));
        }
        var _, _ := ImportPass();
      }
      assert losses[..|losses|] == losses;
      if Sound(g.crypto) && Steady(g, run) {
        SteadyRunsServe(g, run);
      }
    }
  }
}
