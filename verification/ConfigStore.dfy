/** Crash-safe configuration versions (translate.rs, host-agent.rs): a pushed configuration is
    backed up, renamed into place and translated, one file operation at a time, and the process can
    die between any two of them or in the middle of a copy or a write. */
module ConfigStoreSpec {
  import opened Wrappers
  import opened OxfileSpec

  type Version = nat

  /** TOML parsing and translation, which this model does not look into. */
  datatype Toml = Toml(parse: string -> Option<HostConfig>, oxfile: HostConfig -> string)

  predicate Accepts(toml: Toml, text: string) {
    toml.parse(text).Some? && ValidConfig(toml.parse(text).value)
  }

  /** The files under the host directory; `backups[v]` is `etc/host.toml.bak-v`. */
  datatype Disk = Disk(
    host: string,
    backups: map<Version, string>,
    hostTmp: Option<string>,
    oxfile: Option<string>,
    oxTmp: Option<string>)

  /** How far `apply_config_push` has come with the push in hand. */
  datatype Progress = Idle | Validated | BackedUp | TmpWritten | Renamed | OxTmpWritten

  datatype Agent = Down | Up(current: Version, progress: Progress, version: Version, config: string)

  /** `pushed` and `applied` are history: the configuration of each version that got a backup, and
      the versions renamed into place, in order. */
  datatype Store = Store(
    disk: Disk,
    agent: Agent,
    pushed: map<Version, string>,
    applied: seq<Version>)

  datatype Step =
    | Boots(recovered: Version)
    | Receives(version: Version, config: string)
    | TearsBackup(partial: string)
    | BacksUp
    | TearsTmp(partial: string)
    | WritesTmp
    | Renames
    | WritesOxTmp
    | Finishes
    | Fails
    | Crashes

  function Fresh(host: string): Store {
    Store(Disk(host, map[], None, None, None), Down, map[], [])
  }

  /** The largest backed-up version, 0 without backups. */
  predicate IsRecovered(versions: set<Version>, v: Version) {
    if versions == {} then v == 0
    else v in versions && forall k :: k in versions ==> k <= v
  }

  predicate At(s: Store, p: Progress) {
    s.agent.Up? && s.agent.progress == p
  }

  predicate Enabled(toml: Toml, s: Store, step: Step) {
    match step
    case Boots(v) => s.agent.Down? && IsRecovered(s.disk.backups.Keys, v)
    case Receives(_, _) => At(s, Idle)
    case TearsBackup(_) => At(s, Validated)
    case BacksUp => At(s, Validated)
    case TearsTmp(_) => At(s, BackedUp)
    case WritesTmp => At(s, BackedUp)
    case Renames => At(s, TmpWritten) && s.disk.hostTmp.Some?
    case WritesOxTmp => At(s, Renamed) && toml.parse(s.agent.config).Some?
    case Finishes => At(s, OxTmpWritten) && s.disk.oxTmp.Some?
    case Fails => s.agent.Up? && s.agent.progress != Idle
    case Crashes => s.agent.Up?
  }

  /** A stale version and a rejected configuration are turned away before any file is touched. */
  predicate Rejected(toml: Toml, current: Version, version: Version, config: string) {
    version <= current || !Accepts(toml, config)
  }

  function Apply(toml: Toml, s: Store, step: Step): Store
    requires Enabled(toml, s, step)
  {
    match step
    case Boots(v) => s.(agent := Up(v, Idle, 0, ""))
    case Receives(version, config) =>
      if Rejected(toml, s.agent.current, version, config) then s
      else s.(agent := Up(s.agent.current, Validated, version, config))
    case TearsBackup(partial) => s.(disk := s.disk.(backups := s.disk.backups[s.agent.version := partial]))
    case BacksUp =>
      s.(disk := s.disk.(backups := s.disk.backups[s.agent.version := s.disk.host]),
         agent := s.agent.(progress := BackedUp),
         pushed := s.pushed[s.agent.version := s.agent.config])
    case TearsTmp(partial) => s.(disk := s.disk.(hostTmp := Some(partial)))
    case WritesTmp =>
      s.(disk := s.disk.(hostTmp := Some(s.agent.config)), agent := s.agent.(progress := TmpWritten))
    case Renames =>
      s.(disk := s.disk.(host := s.disk.hostTmp.value, hostTmp := None),
         agent := s.agent.(progress := Renamed),
         applied := s.applied + [s.agent.version])
    case WritesOxTmp =>
      s.(disk := s.disk.(oxTmp := Some(toml.oxfile(toml.parse(s.agent.config).value))),
         agent := s.agent.(progress := OxTmpWritten))
    case Finishes =>
      s.(disk := s.disk.(oxfile := s.disk.oxTmp, oxTmp := None), agent := Up(s.agent.version, Idle, 0, ""))
    case Fails => s.(agent := Up(s.agent.current, Idle, 0, ""))
    case Crashes => s.(agent := Down)
  }

  predicate Reaches(toml: Toml, s: Store, steps: seq<Step>, t: Store)
    decreases |steps|
  {
    if steps == [] then s == t
    else Enabled(toml, s, steps[0]) && Reaches(toml, Apply(toml, s, steps[0]), steps[1..], t)
  }

  predicate Increasing(vs: seq<Version>) {
    forall i, j :: 0 <= i < j < |vs| ==> vs[i] < vs[j]
  }

  // ---- Versions never go back -------------------------------------------------------------

  /** Every renamed version has its backup, no backup is of version 0, host.toml is whole and accepted, and the agent's
      temporary file is the accepted configuration it is about to rename. */
  predicate SafeInv(toml: Toml, s: Store) {
    && 0 !in s.disk.backups
    && (forall v :: v in s.applied ==> v in s.disk.backups)
    && Accepts(toml, s.disk.host)
    && (s.agent.Up? && s.agent.progress != Idle ==>
          && Accepts(toml, s.agent.config) && s.agent.current < s.agent.version
          && (s.agent.progress != Validated ==> s.agent.version in s.disk.backups)
          && (s.agent.progress == TmpWritten ==> s.disk.hostTmp == Some(s.agent.config)))
  }

  lemma SafeStep(toml: Toml, s: Store, step: Step)
    requires SafeInv(toml, s) && Enabled(toml, s, step)
    ensures SafeInv(toml, Apply(toml, s, step))
  {
  }

  lemma {:induction false} SafeRun(toml: Toml, s: Store, steps: seq<Step>, t: Store)
    requires SafeInv(toml, s) && Reaches(toml, s, steps, t)
    ensures SafeInv(toml, t)
    decreases |steps|
  {
    if steps != [] {
      SafeStep(toml, s, steps[0]);
      SafeRun(toml, Apply(toml, s, steps[0]), steps[1..], t);
    }
  }

  /** The version the agent works from is never behind host.toml, except between the rename and
      the end of the push in hand. */
  predicate VersionInv(s: Store) {
    && Increasing(s.applied)
    && (s.agent.Up? ==>
          var renamed := s.agent.progress == Renamed || s.agent.progress == OxTmpWritten;
          var done := if renamed && s.applied != [] then s.applied[..|s.applied| - 1] else s.applied;
          && (renamed ==> s.applied != [] && s.applied[|s.applied| - 1] == s.agent.version)
          && (forall v :: v in done ==> v <= s.agent.current))
  }

  /** host.toml has been renamed and the push is not finished. */
  predicate Late(s: Store) {
    At(s, Renamed) || At(s, OxTmpWritten)
  }

  /** No operation returns an error once host.toml has been renamed. */
  predicate NoLateFailure(toml: Toml, s: Store, steps: seq<Step>)
    decreases |steps|
  {
    steps == [] ||
    (Enabled(toml, s, steps[0])
     && !(steps[0].Fails? && Late(s))
     && NoLateFailure(toml, Apply(toml, s, steps[0]), steps[1..]))
  }

  lemma RenamesKeepsVersions(toml: Toml, s: Store)
    requires SafeInv(toml, s) && VersionInv(s) && Enabled(toml, s, Renames)
    ensures VersionInv(Apply(toml, s, Renames))
  {
    var t := Apply(toml, s, Renames);
    assert t.applied[..|t.applied| - 1] == s.applied;
    forall v | v in s.applied
      ensures v < s.agent.version
    {
    }
  }

  lemma BootsKeepsVersions(toml: Toml, s: Store, recovered: Version)
    requires SafeInv(toml, s) && VersionInv(s) && Enabled(toml, s, Boots(recovered))
    ensures VersionInv(Apply(toml, s, Boots(recovered)))
  {
    forall v | v in s.applied
      ensures v <= recovered
    {
      assert v in s.disk.backups.Keys;
    }
  }

  lemma FinishesKeepsVersions(toml: Toml, s: Store)
    requires SafeInv(toml, s) && VersionInv(s) && Enabled(toml, s, Finishes)
    ensures VersionInv(Apply(toml, s, Finishes))
  {
    var n := |s.applied| - 1;
    forall v | v in s.applied
      ensures v <= s.agent.version
    {
      var i :| 0 <= i < |s.applied| && s.applied[i] == v;
      assert i < n ==> v in s.applied[..n];
    }
  }

  lemma VersionStep(toml: Toml, s: Store, step: Step)
    requires SafeInv(toml, s) && VersionInv(s) && Enabled(toml, s, step)
    requires !(step.Fails? && Late(s))
    ensures VersionInv(Apply(toml, s, step))
  {
    match step {
      case Boots(v) => BootsKeepsVersions(toml, s, v);
      case Renames => RenamesKeepsVersions(toml, s);
      case Finishes => FinishesKeepsVersions(toml, s);
      case _ =>
        assert Apply(toml, s, step).applied == s.applied;
    }
  }

  lemma {:induction false} VersionRun(toml: Toml, s: Store, steps: seq<Step>, t: Store)
    requires SafeInv(toml, s) && VersionInv(s) && Reaches(toml, s, steps, t) && NoLateFailure(toml, s, steps)
    ensures VersionInv(t)
    decreases |steps|
  {
    if steps != [] {
      SafeStep(toml, s, steps[0]);
      VersionStep(toml, s, steps[0]);
      VersionRun(toml, Apply(toml, s, steps[0]), steps[1..], t);
    }
  }

  /** Whatever crashes, tears or fails: host.toml is always one whole accepted configuration, and a
      restart never recovers a version below one that was ever renamed into place. */
  lemma HostIsAlwaysWhole(toml: Toml, host: string, steps: seq<Step>, s: Store, recovered: Version)
    requires Accepts(toml, host) && Reaches(toml, Fresh(host), steps, s)
    ensures Accepts(toml, s.disk.host)
    ensures IsRecovered(s.disk.backups.Keys, recovered) ==> forall v :: v in s.applied ==> v <= recovered
  {
    SafeRun(toml, Fresh(host), steps, s);
  }

  /** At any moment host.toml parses, its ids are well-formed, and the processes it names are distinct. */
  lemma HostAlwaysNamesDistinctProcesses(toml: Toml, host: string, steps: seq<Step>, s: Store, prefix: string)
    requires Accepts(toml, host) && Reaches(toml, Fresh(host), steps, s)
    ensures toml.parse(s.disk.host).Some?
    ensures var cfg := toml.parse(s.disk.host).value;
            && Distinct(OxfileNames(prefix, cfg))
            && (forall i :: 0 <= i < |cfg.cameras| ==> ValidId(cfg.cameras[i].id) && cfg.cameras[i].fps != Some(0))
            && (forall i :: 0 <= i < |cfg.streams| ==> ValidId(cfg.streams[i].id))
  {
    SafeRun(toml, Fresh(host), steps, s);
    AcceptedNamesAreDistinct(prefix, toml.parse(s.disk.host).value);
  }

  // ---- The oxfile follows host.toml -------------------------------------------------------

  /** During a push host.toml is the pushed text once renamed, and what waits to become the oxfile is
      its translation. */
  predicate OxInv(toml: Toml, s: Store) {
    && (s.agent.Up? && s.agent.progress == TmpWritten ==> s.disk.hostTmp == Some(s.agent.config))
    && (Late(s) ==> s.disk.host == s.agent.config)
    && (At(s, OxTmpWritten) ==>
          toml.parse(s.agent.config).Some?
          && s.disk.oxTmp == Some(toml.oxfile(toml.parse(s.agent.config).value)))
  }

  lemma {:induction false} OxRun(toml: Toml, s: Store, steps: seq<Step>, t: Store)
    requires OxInv(toml, s) && Reaches(toml, s, steps, t)
    ensures OxInv(toml, t)
    decreases |steps|
  {
    if steps != [] {
      OxRun(toml, Apply(toml, s, steps[0]), steps[1..], t);
    }
  }

  /** A push that finishes leaves the oxfile that host.toml translates to. */
  lemma FinishedPushLeavesTheTranslation(toml: Toml, host: string, steps: seq<Step>, s: Store)
    requires Accepts(toml, host) && Reaches(toml, Fresh(host), steps, s) && Enabled(toml, s, Finishes)
    ensures var t := Apply(toml, s, Finishes);
            && toml.parse(t.disk.host).Some?
            && t.disk.oxfile == Some(toml.oxfile(toml.parse(t.disk.host).value))
            && t.agent == Up(s.agent.version, Idle, 0, "")
  {
    OxRun(toml, Fresh(host), steps, s);
    SafeRun(toml, Fresh(host), steps, s);
  }

  /** Versions written to host.toml strictly increase over the whole history of crashes and restarts. */
  lemma AppliedVersionsIncrease(toml: Toml, host: string, steps: seq<Step>, s: Store)
    requires Accepts(toml, host) && Reaches(toml, Fresh(host), steps, s)
    requires NoLateFailure(toml, Fresh(host), steps)
    ensures Increasing(s.applied)
  {
    VersionRun(toml, Fresh(host), steps, s);
  }

  function LastApplied(s: Store): Version {
    if s.applied == [] then 0 else s.applied[|s.applied| - 1]
  }

  /** What a restart recovers is the version of the configuration in host.toml exactly when the newest
      backup's version was renamed into place, or there is no backup. */
  lemma RecoveredIsLastAppliedExactly(toml: Toml, host: string, steps: seq<Step>, s: Store, recovered: Version)
    requires Accepts(toml, host) && Reaches(toml, Fresh(host), steps, s)
    requires NoLateFailure(toml, Fresh(host), steps) && IsRecovered(s.disk.backups.Keys, recovered)
    ensures recovered == LastApplied(s) <==> s.disk.backups == map[] || recovered in s.applied
  {
    SafeRun(toml, Fresh(host), steps, s);
    VersionRun(toml, Fresh(host), steps, s);
    if s.applied != [] {
      assert LastApplied(s) in s.applied;
    }
  }

  /** A crash between backup and rename: the version is reported although it was never applied, and
      pushing it again is refused. */
  lemma CrashBeforeTheRenameSkipsAVersion(toml: Toml, host: string, version: Version, config: string)
      returns (steps: seq<Step>, s: Store)
    requires Accepts(toml, host) && Accepts(toml, config) && version > 0
    ensures Reaches(toml, Fresh(host), steps, s) && CrashOnly(steps)
    ensures At(s, Idle) && s.agent.current == version && s.applied == [] && s.disk.host == host
    ensures Rejected(toml, s.agent.current, version, config)
  {
    var s1 := Apply(toml, Fresh(host), Boots(0));
    var crashed := BackedUpAndCrashed(toml, s1, version, config);
    assert crashed.disk.backups.Keys == {version};
    s := Apply(toml, crashed, Boots(version));
    var push := [Receives(version, config), BacksUp, Crashes];
    assert Reaches(toml, s, [Boots(version)][1..], s);
    Chain(toml, s1, push, crashed, [Boots(version)], s);
    steps := [Boots(0)] + (push + [Boots(version)]);
    assert steps[1..] == push + [Boots(version)];
  }

  lemma BackedUpAndCrashed(toml: Toml, s: Store, version: Version, config: string) returns (t: Store)
    requires At(s, Idle) && s.agent.current < version && Accepts(toml, config)
    ensures Reaches(toml, s, [Receives(version, config), BacksUp, Crashes], t)
    ensures t == Store(s.disk.(backups := s.disk.backups[version := s.disk.host]), Down,
                       s.pushed[version := config], s.applied)
  {
    var steps := [Receives(version, config), BacksUp, Crashes];
    var s1 := Apply(toml, s, steps[0]);
    var s2 := Apply(toml, s1, BacksUp);
    t := Apply(toml, s2, Crashes);
    assert Reaches(toml, t, steps[3..], t);
    assert Reaches(toml, s2, steps[2..], t);
    assert Reaches(toml, s1, steps[1..], t);
  }

  /** A stale or invalid push leaves every file and the agent as they were. */
  lemma RejectedPushChangesNothing(toml: Toml, s: Store, version: Version, config: string)
    requires Enabled(toml, s, Receives(version, config))
    ensures Apply(toml, s, Receives(version, config)) == s
            <==> version <= s.agent.current || !Accepts(toml, config)
    ensures Apply(toml, s, Receives(version, config)).disk == s.disk
  {
  }

  /** Some continuation without a further late failure writes a version that is not above one written before. */
  ghost predicate CanRegress(toml: Toml, s: Store) {
    exists more, t :: Reaches(toml, s, more, t) && NoLateFailure(toml, s, more) && !Increasing(t.applied)
  }

  /** An error return lets the versions written to host.toml regress exactly when it comes after the rename. */
  lemma FailingLetsVersionsRegressExactlyAfterTheRename(toml: Toml, host: string, steps: seq<Step>, s: Store)
    requires Accepts(toml, host) && Reaches(toml, Fresh(host), steps, s) && NoLateFailure(toml, Fresh(host), steps)
    requires Enabled(toml, s, Fails)
    ensures CanRegress(toml, Apply(toml, s, Fails)) <==> Late(s)
  {
    var f := Apply(toml, s, Fails);
    SafeRun(toml, Fresh(host), steps, s);
    VersionRun(toml, Fresh(host), steps, s);
    if Late(s) {
      LateFailureAcceptsOlder(toml, s, s.agent.version, s.agent.config);
    } else {
      SafeStep(toml, s, Fails);
      VersionStep(toml, s, Fails);
      forall more, t | Reaches(toml, f, more, t) && NoLateFailure(toml, f, more)
        ensures Increasing(t.applied)
      {
        VersionRun(toml, f, more, t);
      }
    }
  }

  /** After the late failure any version above the agent's old one is written over the newer file. */
  lemma LateFailureAcceptsOlder(toml: Toml, s: Store, version: Version, config: string)
    requires SafeInv(toml, s) && VersionInv(s) && Late(s)
    requires s.agent.current < version <= s.agent.version && Accepts(toml, config)
    ensures var f := Apply(toml, s, Fails);
            var t := AppliedTo(toml, f, version, config);
            && Reaches(toml, f, PushSteps(version, config), t) && NoLateFailure(toml, f, PushSteps(version, config))
            && t.disk.host == config && !Increasing(t.applied)
  {
    var f := Apply(toml, s, Fails);
    var t := AppliedTo(toml, f, version, config);
    PushReaches(toml, f, version, config);
    PushNeverFails(toml, f, version, config);
    assert t.applied[|s.applied| - 1] == s.agent.version && t.applied[|s.applied|] == version;
  }

  lemma PushNeverFails(toml: Toml, s: Store, version: Version, config: string)
    requires At(s, Idle) && s.agent.current < version && Accepts(toml, config)
    ensures NoLateFailure(toml, s, PushSteps(version, config))
  {
    var steps := PushSteps(version, config);
    var s1 := Apply(toml, s, steps[0]);
    var s2 := Apply(toml, s1, BacksUp);
    var s3 := Apply(toml, s2, WritesTmp);
    var s4 := Apply(toml, s3, Renames);
    assert NoLateFailure(toml, s4, steps[4..]);
    assert NoLateFailure(toml, s3, steps[3..]);
    assert NoLateFailure(toml, s2, steps[2..]);
    assert NoLateFailure(toml, s1, steps[1..]);
  }

  /** The steps of one push between its receipt and its end. */
  predicate WithinPush(steps: seq<Step>) {
    forall i :: 0 <= i < |steps| ==>
      steps[i].TearsBackup? || steps[i].BacksUp? || steps[i].TearsTmp? || steps[i].WritesTmp? || steps[i].Renames?
      || steps[i].WritesOxTmp?
  }

  lemma {:induction false} HostDuringPush(toml: Toml, r: Store, config: string, s: Store, steps: seq<Step>, t: Store)
    requires SafeInv(toml, s) && s.agent.Up? && s.agent.progress != Idle && s.agent.config == config
    requires s.disk.host == if Late(s) then config else r.disk.host
    requires Reaches(toml, s, steps, t) && WithinPush(steps)
    ensures t.agent.Up? && t.agent.progress != Idle
    ensures t.disk.host == if Late(t) then config else r.disk.host
    decreases |steps|
  {
    if steps != [] {
      SafeStep(toml, s, steps[0]);
      HostDuringPush(toml, r, config, Apply(toml, s, steps[0]), steps[1..], t);
    }
  }

  /** A push that fails leaves host.toml as it was when the push was received exactly when the error
      comes before the rename, or the pushed text was there already. */
  lemma FailedPushKeepsHostExactlyBeforeTheRename(toml: Toml, host: string, before: seq<Step>, r: Store,
                                                  version: Version, config: string, during: seq<Step>, s: Store)
    requires Accepts(toml, host) && Reaches(toml, Fresh(host), before, r)
    requires Enabled(toml, r, Receives(version, config)) && !Rejected(toml, r.agent.current, version, config)
    requires Reaches(toml, Apply(toml, r, Receives(version, config)), during, s) && WithinPush(during)
    ensures Enabled(toml, s, Fails)
    ensures Apply(toml, s, Fails).disk.host == r.disk.host <==> !Late(s) || config == r.disk.host
  {
    SafeRun(toml, Fresh(host), before, r);
    SafeStep(toml, r, Receives(version, config));
    HostDuringPush(toml, r, config, Apply(toml, r, Receives(version, config)), during, s);
  }

  /** The late failure at work: version 2 is renamed into place, its translation fails, and version 1
      is accepted over it. */
  lemma LateFailureLetsVersionsDrop(toml: Toml, host: string) returns (steps: seq<Step>, s: Store)
    requires Accepts(toml, host)
    ensures Reaches(toml, Fresh(host), steps, s) && s.applied == [2, 1]
  {
    var s0 := Fresh(host);
    var s1 := Apply(toml, s0, Boots(0));
    var s2 := AppliedTo(toml, s1, 2, host);
    var s3 := Apply(toml, s2, Fails);
    s := AppliedTo(toml, s3, 1, host);
    steps := [Boots(0)] + PushSteps(2, host) + [Fails] + PushSteps(1, host);
    PushReaches(toml, s3, 1, host);
    assert ([Fails] + PushSteps(1, host))[1..] == PushSteps(1, host);
    assert Reaches(toml, s2, [Fails] + PushSteps(1, host), s);
    PushReaches(toml, s1, 2, host);
    Chain(toml, s1, PushSteps(2, host), s2, [Fails] + PushSteps(1, host), s);
    assert steps[1..] == PushSteps(2, host) + ([Fails] + PushSteps(1, host));
    assert s.applied == [2, 1];
  }

  /** An accepted push up to and including the rename. */
  function PushSteps(version: Version, config: string): seq<Step> {
    [Receives(version, config), BacksUp, WritesTmp, Renames]
  }

  function AppliedTo(toml: Toml, s: Store, version: Version, config: string): Store
    requires At(s, Idle) && s.agent.current < version && Accepts(toml, config)
  {
    Store(Disk(config, s.disk.backups[version := s.disk.host], None, s.disk.oxfile, s.disk.oxTmp),
          Up(s.agent.current, Renamed, version, config),
          s.pushed[version := config],
          s.applied + [version])
  }

  lemma PushReaches(toml: Toml, s: Store, version: Version, config: string)
    requires At(s, Idle) && s.agent.current < version && Accepts(toml, config)
    ensures Reaches(toml, s, PushSteps(version, config), AppliedTo(toml, s, version, config))
  {
    var steps := PushSteps(version, config);
    var s1 := Apply(toml, s, steps[0]);
    var s2 := Apply(toml, s1, BacksUp);
    var s3 := Apply(toml, s2, WritesTmp);
    var s4 := Apply(toml, s3, Renames);
    assert s4 == AppliedTo(toml, s, version, config);
    assert Reaches(toml, s4, steps[4..], s4);
    assert Reaches(toml, s3, steps[3..], s4);
    assert Reaches(toml, s2, steps[2..], s4);
    assert Reaches(toml, s1, steps[1..], s4);
  }

  lemma {:induction false} Chain(toml: Toml, a: Store, first: seq<Step>, b: Store, second: seq<Step>, c: Store)
    requires Reaches(toml, a, first, b) && Reaches(toml, b, second, c)
    ensures Reaches(toml, a, first + second, c)
    decreases |first|
  {
    if first == [] {
      assert first + second == second;
    } else {
      assert (first + second)[1..] == first[1..] + second;
      Chain(toml, Apply(toml, a, first[0]), first[1..], b, second, c);
    }
  }

  // ---- Backups reconstruct history --------------------------------------------------------

  /** Crashes only: no operation fails without one, and a copy happens entirely or not at all. */
  predicate CrashOnly(steps: seq<Step>) {
    forall i :: 0 <= i < |steps| ==> !steps[i].Fails? && !steps[i].TearsBackup?
  }

  predicate Consecutive(keys: set<Version>, v: Version, w: Version) {
    v in keys && w in keys && v < w && forall k :: k in keys ==> !(v < k < w)
  }

  /** What host.toml held after the push that backed up as `v`: the pushed text if it was renamed. */
  function HostAfter(s: Store, v: Version): string
    requires v in s.disk.backups && v in s.pushed
  {
    if v in s.applied then s.pushed[v] else s.disk.backups[v]
  }

  predicate BackupsChain(s: Store)
    requires s.pushed.Keys == s.disk.backups.Keys
  {
    forall v, w :: v in s.disk.backups && w in s.disk.backups && Consecutive(s.disk.backups.Keys, v, w) ==>
      s.disk.backups[w] == HostAfter(s, v)
  }

  /** The last backup's version while the agent is idle or has only validated, else the push's own. */
  predicate LatestInv(s: Store) {
    s.agent.Up? ==>
      if s.agent.progress == Idle || s.agent.progress == Validated
      then IsRecovered(s.disk.backups.Keys, s.agent.current)
      else IsRecovered(s.disk.backups.Keys, s.agent.version)
           && s.agent.version in s.pushed && s.pushed[s.agent.version] == s.agent.config
           && (s.agent.version in s.applied <==> s.agent.progress == Renamed || s.agent.progress == OxTmpWritten)
  }

  ghost predicate HistoryInv(host: string, s: Store) {
    && s.pushed.Keys == s.disk.backups.Keys
    && BackupsChain(s)
    && LatestInv(s)
    && (s.disk.backups == map[] ==> s.disk.host == host)
    && (forall v :: v in s.disk.backups && IsRecovered(s.disk.backups.Keys, v) ==> s.disk.host == HostAfter(s, v))
  }

  lemma BacksUpKeepsHistory(toml: Toml, host: string, s: Store)
    requires SafeInv(toml, s) && HistoryInv(host, s) && Enabled(toml, s, BacksUp)
    ensures HistoryInv(host, Apply(toml, s, BacksUp))
    ensures s.agent.version !in s.disk.backups
  {
    var t := Apply(toml, s, BacksUp);
    var keys, n := s.disk.backups.Keys, s.agent.version;
    assert t.disk.backups.Keys == keys + {n};
    forall v, w | v in t.disk.backups && w in t.disk.backups && Consecutive(t.disk.backups.Keys, v, w)
      ensures t.disk.backups[w] == HostAfter(t, v)
    {
      assert v in keys;
      if w == n {
        assert IsRecovered(keys, v);
      } else {
        assert Consecutive(keys, v, w);
      }
    }
  }

  lemma RenamesKeepsHistory(toml: Toml, host: string, s: Store)
    requires SafeInv(toml, s) && HistoryInv(host, s) && Enabled(toml, s, Renames)
    ensures HistoryInv(host, Apply(toml, s, Renames))
  {
    var t := Apply(toml, s, Renames);
    forall v, w | v in t.disk.backups && w in t.disk.backups && Consecutive(t.disk.backups.Keys, v, w)
      ensures t.disk.backups[w] == HostAfter(t, v)
    {
      assert v != s.agent.version;
    }
  }

  lemma SameFilesSameHistory(host: string, s: Store, t: Store)
    requires HistoryInv(host, s) && LatestInv(t)
    requires t.disk.backups == s.disk.backups && t.disk.host == s.disk.host
    requires t.pushed == s.pushed && t.applied == s.applied
    ensures HistoryInv(host, t)
  {
  }

  lemma HistoryStep(toml: Toml, host: string, s: Store, step: Step)
    requires SafeInv(toml, s) && HistoryInv(host, s) && Enabled(toml, s, step)
    requires !step.Fails? && !step.TearsBackup?
    ensures HistoryInv(host, Apply(toml, s, step))
  {
    if step.BacksUp? {
      BacksUpKeepsHistory(toml, host, s);
    } else if step.Renames? {
      RenamesKeepsHistory(toml, host, s);
    } else {
      SameFilesSameHistory(host, s, Apply(toml, s, step));
    }
  }

  lemma {:induction false} HistoryRun(toml: Toml, host: string, s: Store, steps: seq<Step>, t: Store)
    requires SafeInv(toml, s) && HistoryInv(host, s) && Reaches(toml, s, steps, t) && CrashOnly(steps)
    ensures SafeInv(toml, t) && HistoryInv(host, t)
    decreases |steps|
  {
    if steps != [] {
      SafeStep(toml, s, steps[0]);
      HistoryStep(toml, host, s, steps[0]);
      HistoryRun(toml, host, Apply(toml, s, steps[0]), steps[1..], t);
    }
  }

  /** The next backup holds what its predecessor's push left in host.toml, and host.toml stands in
      the same relation to the last backup. */
  lemma BackupsReconstructHistory(toml: Toml, host: string, steps: seq<Step>, s: Store, v: Version)
    requires Accepts(toml, host) && Reaches(toml, Fresh(host), steps, s) && CrashOnly(steps)
    requires v in s.disk.backups
    ensures v in s.pushed
    ensures forall w :: w in s.disk.backups && Consecutive(s.disk.backups.Keys, v, w) ==>
              s.disk.backups[w] == if v in s.applied then s.pushed[v] else s.disk.backups[v]
    ensures IsRecovered(s.disk.backups.Keys, v) ==>
              s.disk.host == if v in s.applied then s.pushed[v] else s.disk.backups[v]
  {
    HistoryRun(toml, host, Fresh(host), steps, s);
  }

  /** A backup, once made, is never written again. */
  lemma BackupsAreNeverOverwritten(toml: Toml, host: string, steps: seq<Step>, s: Store, step: Step, v: Version)
    requires Accepts(toml, host) && Reaches(toml, Fresh(host), steps, s) && CrashOnly(steps + [step])
    requires Enabled(toml, s, step) && v in s.disk.backups
    ensures v in Apply(toml, s, step).disk.backups && Apply(toml, s, step).disk.backups[v] == s.disk.backups[v]
  {
    assert (steps + [step])[|steps|] == step;
    assert CrashOnly(steps) by {
      assert (steps + [step])[..|steps|] == steps;
    }
    HistoryRun(toml, host, Fresh(host), steps, s);
    if step.BacksUp? {
      BacksUpKeepsHistory(toml, host, s);
    }
  }
}

module ConfigStore {
  import opened Wrappers
  import opened OxfileSpec
  import opened ConfigStoreSpec

  datatype PushError = Stale | Invalid

  /** The host directory, changed file by file. */
  class ConfigDir {
    var host: string
    var backups: map<Version, string>
    var hostTmp: Option<string>
    var oxfile: Option<string>
    var oxTmp: Option<string>

    function View(): Disk
      reads this
    {
      Disk(host, backups, hostTmp, oxfile, oxTmp)
    }

    constructor (text: string)
      ensures View() == Fresh(text).disk
    {
      host, backups, hostTmp, oxfile, oxTmp := text, map[], None, None, None;
    }

    method RecoverVersion() returns (v: Version)
      ensures IsRecovered(backups.Keys, v)
    {
      var todo := backups.Keys;
      v := 0;
      while todo != {}
        invariant todo <= backups.Keys
        invariant IsRecovered(backups.Keys - todo, v)
        decreases todo
      {
        var k :| k in todo;
        if k > v {
          v := k;
        }
        assert backups.Keys - (todo - {k}) == (backups.Keys - todo) + {k};
        todo := todo - {k};
      }
      assert backups.Keys - todo == backups.Keys;
    }

    method BackupHostConfig(version: Version)
      modifies this`backups
      ensures backups == old(backups)[version := host]
    {
      backups := backups[version := host];
    }

    method WriteHost(text: string)
      modifies this`host, this`hostTmp
      ensures host == text && hostTmp == None
    {
      hostTmp := Some(text);
      host := hostTmp.value;
      hostTmp := None;
    }

    method WriteOxfile(toml: Toml, cfg: HostConfig)
      modifies this`oxfile, this`oxTmp
      ensures oxfile == Some(toml.oxfile(cfg)) && oxTmp == None
    {
      oxTmp := Some(toml.oxfile(cfg));
      oxfile := oxTmp;
      oxTmp := None;
    }

    /** A push without crash or error: rejected with nothing touched, or carried through every step. */
    method HandlePush(toml: Toml, current: Version, version: Version, config: string)
        returns (result: Result<Version, PushError>)
      modifies this
      ensures result == if version <= current then Err(Stale)
                        else if !Accepts(toml, config) then Err(Invalid)
                        else Ok(version)
      ensures result.Err? ==> View() == old(View())
      ensures result.Ok? ==>
                View() == Disk(config, old(backups)[version := old(host)], None,
                               Some(toml.oxfile(toml.parse(config).value)), None)
    {
      if version <= current {
        return Err(Stale);
      }
      if !Accepts(toml, config) {
        return Err(Invalid);
      }
      BackupHostConfig(version);
      WriteHost(config);
      WriteOxfile(toml, toml.parse(config).value);
      result := Ok(version);
    }
  }

  /** What `HandlePush` does in one go is what an uninterrupted run of the steps does. */
  lemma UninterruptedPush(toml: Toml, s: Store, version: Version, config: string)
    requires At(s, Idle) && !Rejected(toml, s.agent.current, version, config)
    ensures Reaches(toml, s, PushSteps(version, config) + [WritesOxTmp, Finishes],
                    Store(Disk(config, s.disk.backups[version := s.disk.host], None,
                               Some(toml.oxfile(toml.parse(config).value)), None),
                          Up(version, Idle, 0, ""),
                          s.pushed[version := config], s.applied + [version]))
  {
    var renamed := AppliedTo(toml, s, version, config);
    PushReaches(toml, s, version, config);
    var wrote := Apply(toml, renamed, WritesOxTmp);
    var done := Apply(toml, wrote, Finishes);
    var tail := [WritesOxTmp, Finishes];
    assert Reaches(toml, done, tail[2..], done);
    assert Reaches(toml, wrote, tail[1..], done);
    assert Reaches(toml, renamed, tail, done);
    Chain(toml, s, PushSteps(version, config), renamed, tail, done);
  }
}
