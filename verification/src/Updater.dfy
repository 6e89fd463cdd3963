/** Updating a Paper server, and the update worker around it. */
module Updater {
  import opened Sequences
  import opened Protocol
  import opened Semver
  import opened Channels
  import opened Workers
  import Repository
  import Jars

  datatype UpdateError =
    | DownloadFailed(cause: string)
    | PerformPatch(stderr: string)
    | WriteUnitFile(cause: string)
    | AlreadyUpToDate
    | UnsupportedServerType(serverType: ServerType)

  datatype UpdateEnv = UpdateEnv(
    repo: Repository.Snapshot, download: DownloadResult, patch: PatchResult, writeUnit: Option<string>, describe: UpdateError -> string)

  /** The artifact to update to: the newest build of the greatest listed version, unless a
      version was requested. */
  function Target(requested: Option<Version>, repo: Repository.Snapshot): (r: Result<Repository.Artifact, Repository.RepositoryError>)
    ensures r.Success? ==> r.value.version.build != []
  {
    match requested
    case Some(v) => Repository.GetArtifact(repo, v)
    case None =>
      match Repository.LatestVersion(repo)
      case Failure(e) => Failure(e)
      case Success(v) => Repository.GetLatestArtifact(repo, v)
  }

  /** The test as the program makes it: precedence and first build are compared separately. */
  predicate UpToDate(current: Version, target: Version)
    requires current.build != [] && target.build != []
  {
    AtLeast(current, target) && CompareIdentifier(current.build[0], target.build[0]) != Less
  }

  /** `target` comes after `current` by precedence, then by build; if `current` has no build to
      compare, by precedence alone. */
  predicate Newer(target: Version, current: Version)
    requires target.build != []
  {
    if current.build == [] then Precedence(current, target) == Less
    else Precedence(current, target).Then(CompareIdentifier(current.build[0], target.build[0])) == Less
  }

  /** How an update runs: steps and outcome. */
  function UpdateRun(requested: Option<Version>, config: ServerConfig, env: UpdateEnv): Run<ServerConfig, UpdateError> {
    RunFrom(Target(requested, env.repo), config, env)
  }

  function RunFrom(
    found: Result<Repository.Artifact, Repository.RepositoryError>, config: ServerConfig, env: UpdateEnv)
    : Run<ServerConfig, UpdateError>
    requires found.Success? ==> found.value.version.build != []
  {
    match found
    case Failure(e) => Run([Checking], Failed(DownloadFailed(e.message)))
    case Success(artifact) =>
      var target := artifact.version;
      if AtLeast(config.version, target) && config.version.build == [] then Run([Checking], Panicked)
      else if AtLeast(config.version, target) && UpToDate(config.version, target) then
        Run([Checking], Failed(AlreadyUpToDate))
      else FetchRun(target, config, env)
  }

  /** Downloading and patching. */
  function FetchRun(target: Version, config: ServerConfig, env: UpdateEnv): Run<ServerConfig, UpdateError> {
    match env.download
    case DownloadPanics => Run([Checking, Downloading], Panicked)
    case DownloadFails(cause) => Run([Checking, Downloading], Failed(DownloadFailed(cause)))
    case Downloaded =>
      Run([Checking, Downloading, Patching],
          match env.patch
          case PatchPanics => Panicked
          case PatchFails(stderr) => Failed(PerformPatch(stderr))
          case Patched => Finished(config.(version := target, jar := Jars.JarName(target))))
  }

  /** `perform_update`; a unit in `servers` is always a Paper server. */
  function PerformRun(requested: Option<Version>, config: ServerUnitConfig, env: UpdateEnv): Run<ServerUnitConfig, UpdateError> {
    var run := UpdateRun(requested, config.server, env);
    Run(run.progress,
        match run.outcome
        case Panicked => Panicked
        case Failed(e) => Failed(e)
        case Finished(server) =>
          if env.writeUnit.Some? then Failed(WriteUnitFile(env.writeUnit.value))
          else Finished(config.(server := server)))
  }

  /** A finished update changes nothing but the version and the jar. */
  lemma UpdateOutcome(requested: Option<Version>, config: ServerUnitConfig, env: UpdateEnv)
    ensures var outcome := PerformRun(requested, config, env).outcome;
            outcome.Finished? ==>
              && outcome.value == config.(server := config.server.(version := outcome.value.server.version, jar := outcome.value.server.jar))
              && outcome.value.server.version.build != []
              && outcome.value.server.jar == Jars.JarName(outcome.value.server.version)
  {
    var found := Target(requested, env.repo);
    if RunFrom(found, config.server, env).outcome.Finished? {
      FinishedFrom(found, config.server, env);
    }
  }

  /** Everything the update worker sends, in order. */
  function UpdateScript(requested: Option<Version>, config: ServerUnitConfig, env: UpdateEnv): seq<ThreadAction> {
    JobScript(false, config.unit.id, PerformRun(requested, config, env), env.describe)
  }

  // ---------- What is fetched, and how it ends ----------

  /** The artifact to update to is the one that the request stands for. */
  lemma TargetMeans(requested: Option<Version>, repo: Repository.Snapshot, artifact: Repository.Artifact)
    ensures Target(requested, repo) == Success(artifact) <==> Repository.Meant(repo, requested, artifact)
  {
    match requested
    case Some(v) => Repository.ArtifactMeans(repo, v, artifact);
    case None =>
      if v :| Repository.IsGreatestListed(repo, v) && Repository.IsNewest(repo, v, artifact) {
        Repository.LatestVersionMeans(repo, v);
        Repository.LatestArtifactMeans(repo, v, artifact);
      }
      if Repository.LatestVersion(repo).Success? {
        Repository.LatestVersionMeans(repo, Repository.LatestVersion(repo).value);
        Repository.LatestArtifactMeans(repo, Repository.LatestVersion(repo).value, artifact);
      }
  }

  /** The update gets to its download: the target is above the installed version, or has a higher
      build. */
  ghost predicate Fetches(current: Version, target: Version)
    requires target.build != []
  {
    VersionBelow(current, target) || (current.build != [] && IdentifierBelow(current.build[0], target.build[0]))
  }

  lemma FetchesMeans(current: Version, target: Version)
    requires target.build != []
    ensures Fetches(current, target)
        <==> !AtLeast(current, target) || (current.build != [] && !UpToDate(current, target))
  {
    PrecedenceMeans(current, target);
    if current.build != [] {
      IdentifierMeans(current.build[0], target.build[0]);
    }
  }

  /** The update of a server is to end like this, after these steps. */
  ghost predicate Ends(
    requested: Option<Version>, config: ServerConfig, env: UpdateEnv, artifact: Repository.Artifact,
    run: Run<ServerConfig, UpdateError>)
    requires artifact.version.build != []
  {
    if !Fetches(config.version, artifact.version) then
      run.progress == [Checking]
      && run.outcome == if config.version.build == [] then Panicked else Failed(AlreadyUpToDate)
    else if !env.download.Downloaded? then
      run.progress == [Checking, Downloading]
      && (env.download.DownloadPanics? ==> run.outcome.Panicked?)
      && (env.download.DownloadFails? ==> run.outcome == Failed(DownloadFailed(env.download.cause)))
    else
      run.progress == [Checking, Downloading, Patching]
      && (env.patch.PatchPanics? ==> run.outcome.Panicked?)
      && (env.patch.PatchFails? ==> run.outcome == Failed(PerformPatch(env.patch.stderr)))
      && (env.patch.Patched? ==> run.outcome == Finished(config.(version := artifact.version, jar := Jars.JarName(artifact.version))))
  }

  /** An update fetches the artifact that the request stands for, if it is above the installed
      version or has a higher build; it ends by what becomes of that. Without such an artifact
      it ends with the repository's error. */
  lemma {:induction false} UpdateMeans(requested: Option<Version>, config: ServerConfig, env: UpdateEnv)
    ensures forall artifact :: Repository.Meant(env.repo, requested, artifact) ==>
              artifact.version.build != [] && Ends(requested, config, env, artifact, UpdateRun(requested, config, env))
    ensures (forall artifact :: !Repository.Meant(env.repo, requested, artifact)) ==>
              var run := UpdateRun(requested, config, env);
              run.progress == [Checking] && run.outcome.Failed? && run.outcome.error.DownloadFailed?
  {
    forall artifact | Repository.Meant(env.repo, requested, artifact)
      ensures artifact.version.build != [] && Ends(requested, config, env, artifact, UpdateRun(requested, config, env))
    {
      TargetMeans(requested, env.repo, artifact);
      FetchesMeans(config.version, artifact.version);
    }
    if Target(requested, env.repo).Success? {
      TargetMeans(requested, env.repo, Target(requested, env.repo).value);
    }
  }

  /** A finished update has the version it was asked for: that very version if it names a build,
      else the newest build of it, or of the greatest listed one. */
  lemma FinishedIsMeant(requested: Option<Version>, config: ServerConfig, env: UpdateEnv)
    requires UpdateRun(requested, config, env).outcome.Finished?
    ensures exists artifact ::
              && Repository.Meant(env.repo, requested, artifact)
              && UpdateRun(requested, config, env).outcome.value
                 == config.(version := artifact.version, jar := Jars.JarName(artifact.version))
  {
    var found := Target(requested, env.repo);
    FinishedFrom(found, config, env);
    TargetMeans(requested, env.repo, found.value);
  }

  /** The worker adds the writing of the unit file, and ends as the update did otherwise. */
  lemma PerformMeans(requested: Option<Version>, config: ServerUnitConfig, env: UpdateEnv)
    ensures var run, done := UpdateRun(requested, config.server, env), PerformRun(requested, config, env);
            && done.progress == run.progress
            && (done.outcome.Panicked? <==> run.outcome.Panicked?)
            && (forall server :: done.outcome == Finished(config.(server := server))
                                 <==> run.outcome == Finished(server) && env.writeUnit.None?)
            && (done.outcome.Finished? ==> done.outcome.value.unit == config.unit)
            && (forall e :: done.outcome == Failed(e)
                            <==> run.outcome == Failed(e)
                                 || (run.outcome.Finished? && e.WriteUnitFile? && env.writeUnit == Some(e.cause)))
  {
  }

  // ---------- The version decision ----------

  /** The test as it is made, against the order of precedence and then build. */
  lemma UpToDateMeans(current: Version, target: Version)
    requires current.build != [] && target.build != []
    ensures UpToDate(current, target)
        <==> !Newer(target, current)
             && !(Precedence(current, target) == Greater && CompareIdentifier(current.build[0], target.build[0]) == Less)
  {
  }

  lemma RefusedFrom(artifact: Repository.Artifact, config: ServerConfig, env: UpdateEnv)
    requires artifact.version.build != []
    ensures RunFrom(Success(artifact), config, env).outcome == Failed(AlreadyUpToDate)
        <==> config.version.build != [] && UpToDate(config.version, artifact.version)
  {
  }

  /** Exactly when an update is refused as up to date: never for a newer target, and never if
      the installed version has no build; otherwise always for a target that is not newer,
      except an older version whose build number is higher. */
  lemma {:induction false} RefusedExactlyWhen(requested: Option<Version>, config: ServerConfig, env: UpdateEnv)
    requires Target(requested, env.repo).Success?
    ensures var current, target := config.version, Target(requested, env.repo).value.version;
            UpdateRun(requested, config, env).outcome == Failed(AlreadyUpToDate)
            <==> current.build != []
                 && !Newer(target, current)
                 && !(Precedence(current, target) == Greater
                      && CompareIdentifier(current.build[0], target.build[0]) == Less)
  {
    var artifact := Target(requested, env.repo).value;
    RefusedFrom(artifact, config, env);
    if config.version.build != [] {
      UpToDateMeans(config.version, artifact.version);
    }
  }

  /** A successful update moves forward exactly when the target does not precede the
      installed version; otherwise it is a downgrade to a higher build number, which a version
      without a build never undergoes. */
  lemma {:induction false} SuccessMovesForwardExactlyWhen(requested: Option<Version>, config: ServerConfig, env: UpdateEnv)
    requires UpdateRun(requested, config, env).outcome.Finished?
    ensures var result := UpdateRun(requested, config, env).outcome.value;
            && result == config.(version := result.version, jar := Jars.JarName(result.version))
            && Target(requested, env.repo).Success? && result.version == Target(requested, env.repo).value.version
            && (Newer(result.version, config.version) <==> Precedence(config.version, result.version) != Greater)
            && (config.version.build == [] ==> Newer(result.version, config.version))
  {
    FinishedFrom(Target(requested, env.repo), config, env);
    var target := Target(requested, env.repo).value.version;
    PrecedenceOrder(config.version, target, target);
  }

  /** With no version requested, an installed version that is not above every listed one
      only ever moves forward. */
  lemma {:induction false} UpdateToLatestMovesForward(config: ServerConfig, env: UpdateEnv, listed: Version)
    requires UpdateRun(None, config, env).outcome.Finished?
    requires Repository.ListVersions(env.repo).Success? && listed in Repository.ListVersions(env.repo).value
    requires AtLeast(listed, config.version)
    ensures Newer(UpdateRun(None, config, env).outcome.value.version, config.version)
  {
    SuccessMovesForwardExactlyWhen(None, config, env);
    Repository.MaxVersionIsGreatest(Repository.ListVersions(env.repo).value);
    var latest := Repository.LatestVersion(env.repo).value;
    var target := UpdateRun(None, config, env).outcome.value.version;
    PrecedenceOrder(config.version, listed, latest);
    PrecedenceOrder(latest, target, target);
    PrecedenceOrder(config.version, latest, target);
    PrecedenceOrder(config.version, target, target);
  }

  /** Repeating a successful update against an unchanged repository finds nothing to do,
      whichever way the target was chosen. */
  lemma {:induction false} RepeatedUpdateIsRefused(requested: Option<Version>, config: ServerConfig, env: UpdateEnv, again: UpdateEnv)
    requires again.repo == env.repo
    requires UpdateRun(requested, config, env).outcome.Finished?
    ensures UpdateRun(requested, UpdateRun(requested, config, env).outcome.value, again)
         == Run([Checking], Failed(AlreadyUpToDate))
  {
    FinishedFrom(Target(requested, env.repo), config, env);
    AtTargetIsRefused(Target(requested, env.repo).value, UpdateRun(requested, config, env).outcome.value, again);
  }

  lemma FinishedFrom(
    found: Result<Repository.Artifact, Repository.RepositoryError>, config: ServerConfig, env: UpdateEnv)
    requires found.Success? ==> found.value.version.build != []
    requires RunFrom(found, config, env).outcome.Finished?
    ensures found.Success?
    ensures RunFrom(found, config, env).outcome.value
         == config.(version := found.value.version, jar := Jars.JarName(found.value.version))
  {
  }

  lemma AtTargetIsRefused(artifact: Repository.Artifact, config: ServerConfig, env: UpdateEnv)
    requires config.version == artifact.version && artifact.version.build != []
    ensures RunFrom(Success(artifact), config, env) == Run([Checking], Failed(AlreadyUpToDate))
  {
    PrecedenceOrder(artifact.version, artifact.version, artifact.version);
    IdentifierOrder();
  }

  /** The comparison of builds apart from precedence can lead backwards: from build 1 of
      1.16.5 a request for 1.16.4, of which the repository lists build 2, is carried out. */
  lemma DowngradeIsCarriedOut(config: ServerConfig, env: UpdateEnv, download: string)
    requires config.version == Version(1, 16, 5, [], [Numeric(1)])
    requires "1.16.4" in env.repo.builds && env.repo.builds["1.16.4"] == [Repository.Build(2, Some(download))]
    requires env.download.Downloaded? && env.patch.Patched?
    ensures var outcome := UpdateRun(Some(Version(1, 16, 4, [], [])), config, env).outcome;
            outcome.Finished? && outcome.value.version == Version(1, 16, 4, [], [Numeric(2)])
  {
    var requested := Version(1, 16, 4, [], []);
    assert Repository.VersionString(requested) == "1.16.4";
  }

  // ---------- Configurations ----------

  /** What every configuration written by an installation or an update satisfies. */
  ghost predicate Coherent(config: ServerConfig) {
    && config.typeName == "paper"
    && config.version.build != []
    && config.jar == Jars.JarName(config.version)
  }

  lemma UpdateKeepsCoherence(requested: Option<Version>, config: ServerUnitConfig, env: UpdateEnv)
    requires Coherent(config.server)
    ensures var run := PerformRun(requested, config, env);
            && run.progress <= [Checking, Downloading, Patching]
            && (run.outcome.Finished? ==> run.progress == [Checking, Downloading, Patching])
            && (run.outcome.Finished? ==> run.outcome.value.unit == config.unit && Coherent(run.outcome.value.server))
            && (run.outcome.Panicked? ==> env.download.DownloadPanics? || env.patch.PatchPanics?)
  {
  }

  /** An update that reaches its download never writes over the jar in use, as long as
      neither version is a pre-release or no identifier contains a hyphen. */
  lemma {:induction false} DownloadKeepsCurrentJar(requested: Option<Version>, config: ServerConfig, env: UpdateEnv)
    requires Coherent(config) && WellFormed(config.version)
    requires Target(requested, env.repo).Success? && WellFormed(Target(requested, env.repo).value.version)
    requires var target := Target(requested, env.repo).value.version;
             || (config.version.pre == [] && target.pre == [])
             || (Jars.HyphenFree(config.version) && Jars.HyphenFree(target))
    requires Downloading in UpdateRun(requested, config, env).progress
    ensures Jars.JarName(Target(requested, env.repo).value.version) != config.jar
  {
    var target := Target(requested, env.repo).value.version;
    Jars.JarNameInjective(config.version, target);
    PrecedenceOrder(target, target, target);
    IdentifierOrder();
  }

  /** An update that reaches its download writes over the jar in use exactly if the target, which
      is another version, is printed like the installed one. */
  lemma {:induction false} DownloadOverwritesExactlyWhen(requested: Option<Version>, config: ServerConfig, env: UpdateEnv)
    requires Coherent(config) && WellFormed(config.version)
    requires Target(requested, env.repo).Success? && WellFormed(Target(requested, env.repo).value.version)
    requires Downloading in UpdateRun(requested, config, env).progress
    ensures var target := Target(requested, env.repo).value.version;
            && target != config.version
            && (Jars.JarName(target) == config.jar <==> Jars.PrintedAlike(config.version, target))
  {
    var target := Target(requested, env.repo).value.version;
    Jars.SameJarExactlyWhen(config.version, target);
    PrecedenceOrder(target, target, target);
    IdentifierOrder();
  }

  class PaperServerUpdater {
    const unitId: UnitId
    const eventHandler: EventHandler

    constructor (unitId: UnitId, eventHandler: EventHandler)
      ensures this.unitId == unitId && this.eventHandler == eventHandler
    {
      this.unitId := unitId;
      this.eventHandler := eventHandler;
    }

    method FindTarget(requested: Option<Version>, repo: Repository.Snapshot)
      returns (found: Result<Repository.Artifact, Repository.RepositoryError>)
      ensures found == Target(requested, repo)
    {
      match requested {
        case None =>
          var latest := Repository.LatestVersion(repo);
          if latest.Failure? {
            return Failure(latest.error);
          }
          found := Repository.GetLatestArtifact(repo, latest.value);
        case Some(v) =>
          found := Repository.GetArtifact(repo, v);
      }
    }

    method UpdateServer(requested: Option<Version>, config: ServerConfig, env: UpdateEnv)
      returns (r: Outcome<ServerConfig, UpdateError>)
      modifies eventHandler.dispatcher
      ensures r == UpdateRun(requested, config, env).outcome
      ensures eventHandler.dispatcher.items
           == old(eventHandler.dispatcher.items) + ProgressCmds(unitId, UpdateRun(requested, config, env).progress)
    {
      ghost var before, done := eventHandler.dispatcher.items, [];
      assert ProgressCmds(unitId, []) == [];
      Announce(eventHandler, unitId, Checking, before, done);
      done := done + [Checking];
      var current := config.version;
      var found := FindTarget(requested, env.repo);
      if found.Failure? {
        return Failed(DownloadFailed(found.error.message));
      }
      var target := found.value.version;
      if AtLeast(current, target) {
        if current.build == [] {
          return Panicked;
        }
        if CompareIdentifier(current.build[0], target.build[0]) != Less {
          return Failed(AlreadyUpToDate);
        }
      }
      r := Fetch(target, config, env, before);
    }

    method Fetch(target: Version, config: ServerConfig, env: UpdateEnv, ghost before: seq<ManagerCmd>)
      returns (r: Outcome<ServerConfig, UpdateError>)
      requires eventHandler.dispatcher.items == before + ProgressCmds(unitId, [Checking])
      modifies eventHandler.dispatcher
      ensures r == FetchRun(target, config, env).outcome
      ensures eventHandler.dispatcher.items == before + ProgressCmds(unitId, FetchRun(target, config, env).progress)
    {
      Announce(eventHandler, unitId, Downloading, before, [Checking]);
      assert [Checking] + [Downloading] == [Checking, Downloading];
      var jarName := Jars.JarName(target);
      match env.download {
        case DownloadPanics => return Panicked;
        case DownloadFails(cause) => return Failed(DownloadFailed(cause));
        case Downloaded =>
      }
      Announce(eventHandler, unitId, Patching, before, [Checking, Downloading]);
      assert [Checking, Downloading] + [Patching] == [Checking, Downloading, Patching];
      match env.patch {
        case PatchPanics => return Panicked;
        case PatchFails(stderr) => return Failed(PerformPatch(stderr));
        case Patched => r := Finished(config.(version := target, jar := jarName));
      }
    }
  }
}
