/** Installing a Paper server, and the installation worker around it. */
module Installer {
  import opened Sequences
  import opened Protocol
  import opened Semver
  import opened Channels
  import opened Workers
  import Repository
  import Jars

  datatype InstallError =
    | DirExists
    | CreateDir(cause: string)
    | DownloadFailed(cause: string)
    | WriteInitialSettings(cause: string)
    | PerformPatch(stderr: string)
    | WriteUnitFile(cause: string)
    | UnsupportedServerType(serverType: ServerType)
    | UnitAlreadyExists

  /** What the machine and the network answer during one installation, and how an error reads
      (`{:?}`). */
  datatype InstallEnv = InstallEnv(
    pathExists: bool, createDir: Option<string>, writeEula: Option<string>, repo: Repository.Snapshot,
    download: DownloadResult, patch: PatchResult, writeUnit: Option<string>, describe: InstallError -> string)

  function Wanted(version: Option<Version>, repo: Repository.Snapshot): Result<Repository.Artifact, Repository.RepositoryError> {
    match version
    case Some(v) => Repository.GetArtifact(repo, v)
    case None =>
      match Repository.LatestVersion(repo)
      case Failure(e) => Failure(e)
      case Success(v) => Repository.GetArtifact(repo, v)
  }

  function InstalledConfig(request: InstallRequest, artifact: Repository.Artifact): ServerConfig {
    ServerConfig(
      match request.serverName case Some(name) => name case None => "A Minecraft server",
      request.installPath, "paper", Jars.JarName(artifact.version), artifact.version, 10)
  }

  /** How an installation runs: steps and outcome. */
  function InstallRun(request: InstallRequest, env: InstallEnv): Run<ServerConfig, InstallError> {
    RunFrom(Wanted(request.serverVersion, env.repo), request, env)
  }

  function RunFrom(
    found: Result<Repository.Artifact, Repository.RepositoryError>, request: InstallRequest, env: InstallEnv)
    : Run<ServerConfig, InstallError>
  {
    var (begun, failure) := Prepared(request, env);
    var loading := begun + [Downloading];
    if failure.Some? then Run(begun, Failed(failure.value))
    else
      match found
      case Failure(e) => Run(loading, Failed(DownloadFailed(e.message)))
      case Success(artifact) => FetchRun(loading, artifact, request, env)
  }

  /** Making the directory, and accepting the license if asked to. */
  function Prepared(request: InstallRequest, env: InstallEnv): (seq<Stage>, Option<InstallError>) {
    if env.pathExists then ([], Some(DirExists))
    else if env.createDir.Some? then ([Creating], Some(CreateDir(env.createDir.value)))
    else if !request.acceptEula then ([Creating], None)
    else ([Creating, Configuring], if env.writeEula.Some? then Some(WriteInitialSettings(env.writeEula.value)) else None)
  }

  /** Downloading and patching, after some progress. */
  function FetchRun(progress: seq<Stage>, artifact: Repository.Artifact, request: InstallRequest, env: InstallEnv)
    : Run<ServerConfig, InstallError>
  {
    match env.download
    case DownloadPanics => Run(progress, Panicked)
    case DownloadFails(cause) => Run(progress, Failed(DownloadFailed(cause)))
    case Downloaded =>
      Run(progress + [Patching],
          match env.patch
          case PatchPanics => Panicked
          case PatchFails(stderr) => Failed(PerformPatch(stderr))
          case Patched => Finished(InstalledConfig(request, artifact)))
  }

  /** `perform_installation`. */
  function PerformRun(request: InstallRequest, env: InstallEnv): Run<ServerUnitConfig, InstallError> {
    if !request.serverType.Paper? then Run([], Failed(UnsupportedServerType(request.serverType)))
    else if request.unitFilePath.None? then Run([], Failed(DirExists))
    else
      var run := InstallRun(request, env);
      Run(run.progress,
          match run.outcome
          case Panicked => Panicked
          case Failed(e) => Failed(e)
          case Finished(config) =>
            if env.writeUnit.Some? then Failed(WriteUnitFile(env.writeUnit.value))
            else Finished(ServerUnitConfig(UnitConfig(request.unitId, "server"), config)))
  }

  /** Everything the installation worker sends, in order. */
  function InstallScript(request: InstallRequest, env: InstallEnv): seq<ThreadAction> {
    JobScript(true, request.unitId, PerformRun(request, env), env.describe)
  }

  // ---------- What is fetched, and how it ends ----------

  /** The artifact to install is the one that the request stands for. */
  lemma WantedMeans(requested: Option<Version>, repo: Repository.Snapshot, artifact: Repository.Artifact)
    ensures Wanted(requested, repo) == Success(artifact) <==> Repository.Meant(repo, requested, artifact)
  {
    match requested
    case Some(v) => Repository.ArtifactMeans(repo, v, artifact);
    case None =>
      if v :| Repository.IsGreatestListed(repo, v) && Repository.IsNewest(repo, v, artifact) {
        FoundForLatest(repo, v, artifact);
      }
      if Repository.LatestVersion(repo).Success? {
        Repository.LatestVersionMeans(repo, Repository.LatestVersion(repo).value);
        FoundForLatest(repo, Repository.LatestVersion(repo).value, artifact);
      }
  }

  lemma FoundForLatest(repo: Repository.Snapshot, v: Version, artifact: Repository.Artifact)
    requires Repository.IsGreatestListed(repo, v)
    ensures Repository.LatestVersion(repo) == Success(v)
    ensures Repository.GetArtifact(repo, v) == Success(artifact) <==> Repository.IsNewest(repo, v, artifact)
  {
    Repository.LatestVersionMeans(repo, v);
    Repository.ArtifactMeans(repo, v, artifact);
    var text :| text in repo.versions.value && Repository.ParseVersion(text) == Some(v);
    Repository.ParsedIsPlain(text);
  }

  /** The directory can be made, and the licence accepted if that is asked for. */
  ghost predicate Prepares(request: InstallRequest, env: InstallEnv) {
    !env.pathExists && env.createDir.None? && (request.acceptEula ==> env.writeEula.None?)
  }

  /** The request is one that is acted upon. */
  ghost predicate Accepted(request: InstallRequest) {
    request.serverType.Paper? && request.unitFilePath.Some?
  }

  /** The configuration of what the request asks for, with that version. */
  ghost predicate Configures(request: InstallRequest, version: Version, config: ServerUnitConfig) {
    && config.unit == UnitConfig(request.unitId, "server")
    && config.server.name == (if request.serverName.Some? then request.serverName.value else "A Minecraft server")
    && config.server.path == request.installPath && config.server.typeName == "paper" && config.server.memory == 10
    && config.server.version == version && config.server.jar == Jars.JarName(version)
  }

  /** An installation of the artifact is to end with this error. */
  ghost predicate FailsWith(request: InstallRequest, env: InstallEnv, e: InstallError) {
    match e
    case UnsupportedServerType(serverType) => serverType == request.serverType && !request.serverType.Paper?
    case DirExists => request.serverType.Paper? && (request.unitFilePath.None? || env.pathExists)
    case CreateDir(cause) => Accepted(request) && !env.pathExists && env.createDir == Some(cause)
    case WriteInitialSettings(cause) =>
      Accepted(request) && !env.pathExists && env.createDir.None? && request.acceptEula && env.writeEula == Some(cause)
    case DownloadFailed(cause) => Accepted(request) && Prepares(request, env) && env.download == DownloadFails(cause)
    case PerformPatch(stderr) =>
      Accepted(request) && Prepares(request, env) && env.download.Downloaded? && env.patch == PatchFails(stderr)
    case WriteUnitFile(cause) =>
      && Accepted(request) && Prepares(request, env) && env.download.Downloaded? && env.patch.Patched?
      && env.writeUnit == Some(cause)
    case UnitAlreadyExists => false
  }

  /** The first error of the preparations. */
  lemma PreparedMeans(request: InstallRequest, env: InstallEnv)
    ensures Prepared(request, env).1.None? <==> Prepares(request, env)
    ensures Accepted(request) && Prepared(request, env).1.Some? ==> forall e :: FailsWith(request, env, e) <==> e == Prepared(request, env).1.value
  {
  }

  lemma {:induction false} RunEnds(request: InstallRequest, env: InstallEnv, artifact: Repository.Artifact)
    requires Accepted(request) && Wanted(request.serverVersion, env.repo) == Success(artifact)
    ensures var outcome := PerformRun(request, env).outcome;
            if !Prepares(request, env) then outcome == Failed(Prepared(request, env).1.value)
            else match env.download
                 case DownloadPanics => outcome.Panicked?
                 case DownloadFails(cause) => outcome == Failed(DownloadFailed(cause))
                 case Downloaded =>
                   match env.patch
                   case PatchPanics => outcome.Panicked?
                   case PatchFails(stderr) => outcome == Failed(PerformPatch(stderr))
                   case Patched =>
                     if env.writeUnit.Some? then outcome == Failed(WriteUnitFile(env.writeUnit.value))
                     else outcome.Finished? && Configures(request, artifact.version, outcome.value)
  {
    PreparedMeans(request, env);
  }

  /** With an artifact that the request stands for, an installation fails with exactly the error
      of the first thing that fails. */
  lemma {:induction false} InstallFailsWith(request: InstallRequest, env: InstallEnv, artifact: Repository.Artifact, e: InstallError)
    requires Repository.Meant(env.repo, request.serverVersion, artifact)
    ensures PerformRun(request, env).outcome == Failed(e) <==> FailsWith(request, env, e)
  {
    WantedMeans(request.serverVersion, env.repo, artifact);
    PreparedMeans(request, env);
    if Accepted(request) {
      RunEnds(request, env, artifact);
    }
  }

  /** It finishes exactly if nothing fails, with that artifact's version and what the request
      says. */
  lemma {:induction false} InstallFinishes(request: InstallRequest, env: InstallEnv, artifact: Repository.Artifact)
    requires Repository.Meant(env.repo, request.serverVersion, artifact)
    ensures var outcome := PerformRun(request, env).outcome;
            && (outcome.Finished? <==>
                  && Accepted(request) && Prepares(request, env) && env.download.Downloaded? && env.patch.Patched?
                  && env.writeUnit.None?)
            && (outcome.Finished? ==> Configures(request, artifact.version, outcome.value))
  {
    WantedMeans(request.serverVersion, env.repo, artifact);
    if Accepted(request) {
      RunEnds(request, env, artifact);
    }
  }

  /** Without one, it does not finish: if nothing fails before, it ends with the repository's
      error. */
  lemma {:induction false} NothingToInstall(request: InstallRequest, env: InstallEnv)
    requires forall artifact :: !Repository.Meant(env.repo, request.serverVersion, artifact)
    ensures var outcome := PerformRun(request, env).outcome;
            && outcome.Failed?
            && (Accepted(request) && Prepares(request, env) ==> outcome.error.DownloadFailed?)
  {
    if Wanted(request.serverVersion, env.repo).Success? {
      WantedMeans(request.serverVersion, env.repo, Wanted(request.serverVersion, env.repo).value);
    }
  }

  /** The full course of an installation. */
  function Course(eula: bool): seq<Stage> {
    [Creating] + (if eula then [Configuring] else []) + [Downloading, Patching]
  }

  /** A finished installation was given a unit file path, and its configuration has a build
      and the jar that belongs to its version. */
  lemma InstallOutcome(request: InstallRequest, env: InstallEnv)
    ensures var outcome := PerformRun(request, env).outcome;
            outcome.Finished? ==>
              && request.unitFilePath.Some?
              && outcome.value.unit == UnitConfig(request.unitId, "server")
              && outcome.value.server.typeName == "paper"
              && outcome.value.server.version.build != []
              && outcome.value.server.jar == Jars.JarName(outcome.value.server.version)
  {
  }

  /** Progress is announced in the documented order without gaps, and a finished
      installation went through all of it. */
  lemma InstallProgress(request: InstallRequest, env: InstallEnv)
    ensures PerformRun(request, env).progress <= Course(request.acceptEula)
    ensures PerformRun(request, env).outcome.Finished? ==> PerformRun(request, env).progress == Course(request.acceptEula)
  {
    CourseIs(request.acceptEula);
    var (begun, failure) := Prepared(request, env);
    StagesAppend(begun);
  }

  lemma CourseIs(eula: bool)
    ensures Course(eula) == if eula then [Creating, Configuring, Downloading, Patching] else [Creating, Downloading, Patching]
  {
  }

  lemma StagesAppend(begun: seq<Stage>)
    ensures begun == [Creating] ==>
      && begun + [Downloading] == [Creating, Downloading]
      && begun + [Downloading] + [Patching] == [Creating, Downloading, Patching]
    ensures begun == [Creating, Configuring] ==>
      && begun + [Downloading] == [Creating, Configuring, Downloading]
      && begun + [Downloading] + [Patching] == [Creating, Configuring, Downloading, Patching]
  {
  }

  class PaperServerInstaller {
    const eventHandler: EventHandler
    const unitId: UnitId

    constructor (eventHandler: EventHandler, unitId: UnitId)
      ensures this.eventHandler == eventHandler && this.unitId == unitId
    {
      this.eventHandler := eventHandler;
      this.unitId := unitId;
    }

    method FindArtifact(wanted: Option<Version>, repo: Repository.Snapshot)
      returns (found: Result<Repository.Artifact, Repository.RepositoryError>)
      ensures found == Wanted(wanted, repo)
    {
      var version;
      match wanted {
        case Some(v) => version := v;
        case None =>
          var latest := Repository.LatestVersion(repo);
          if latest.Failure? {
            return Failure(latest.error);
          }
          version := latest.value;
      }
      found := Repository.GetArtifact(repo, version);
    }

    method Prepare(request: InstallRequest, env: InstallEnv) returns (failure: Option<InstallError>)
      modifies eventHandler.dispatcher
      ensures failure == Prepared(request, env).1
      ensures eventHandler.dispatcher.items == old(eventHandler.dispatcher.items) + ProgressCmds(unitId, Prepared(request, env).0)
    {
      ghost var before := eventHandler.dispatcher.items;
      assert ProgressCmds(unitId, []) == [] && [] + [Creating] == [Creating] && [Creating] + [Configuring] == [Creating, Configuring];
      if env.pathExists {
        return Some(DirExists);
      }
      Announce(eventHandler, unitId, Creating, before, []);
      if env.createDir.Some? {
        return Some(CreateDir(env.createDir.value));
      }
      if request.acceptEula {
        Announce(eventHandler, unitId, Configuring, before, [Creating]);
        if env.writeEula.Some? {
          return Some(WriteInitialSettings(env.writeEula.value));
        }
      }
      failure := None;
    }

    method InstallServer(request: InstallRequest, env: InstallEnv) returns (r: Outcome<ServerConfig, InstallError>)
      modifies eventHandler.dispatcher
      ensures r == InstallRun(request, env).outcome
      ensures eventHandler.dispatcher.items
           == old(eventHandler.dispatcher.items) + ProgressCmds(unitId, InstallRun(request, env).progress)
    {
      ghost var before, begun := eventHandler.dispatcher.items, Prepared(request, env).0;
      var failure := Prepare(request, env);
      if failure.Some? {
        return Failed(failure.value);
      }
      Announce(eventHandler, unitId, Downloading, before, begun);
      var found := FindArtifact(request.serverVersion, env.repo);
      if found.Failure? {
        return Failed(DownloadFailed(found.error.message));
      }
      r := Fetch(found.value, request, env, before, begun + [Downloading]);
    }

    method Fetch(artifact: Repository.Artifact, request: InstallRequest, env: InstallEnv, ghost before: seq<ManagerCmd>, ghost done: seq<Stage>)
      returns (r: Outcome<ServerConfig, InstallError>)
      requires eventHandler.dispatcher.items == before + ProgressCmds(unitId, done)
      modifies eventHandler.dispatcher
      ensures r == FetchRun(done, artifact, request, env).outcome
      ensures eventHandler.dispatcher.items == before + ProgressCmds(unitId, FetchRun(done, artifact, request, env).progress)
    {
      match env.download {
        case DownloadPanics => return Panicked;
        case DownloadFails(cause) => return Failed(DownloadFailed(cause));
        case Downloaded =>
      }
      Announce(eventHandler, unitId, Patching, before, done);
      match env.patch {
        case PatchPanics => return Panicked;
        case PatchFails(stderr) => return Failed(PerformPatch(stderr));
        case Patched =>
      }
      r := Finished(InstalledConfig(request, artifact));
    }
  }
}
