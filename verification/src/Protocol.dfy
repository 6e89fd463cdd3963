/** Configurations, commands, responses and events: the messages clients and daemon threads exchange. */
module Protocol {
  import opened Sequences
  import opened Semver

  type ClientId = nat
  type UnitId = string

  /** Client ids are `u32`. */
  const CLIENT_IDS: nat := 0x1_0000_0000

  datatype ServerType = Vanilla | Paper | Bukkit | Spigot

  datatype ServerStatus =
    | Unknown | Starting | Running | Updating | Down | Lockdown | Errored(code: Option<int>) | Stopping

  datatype UnitConfig = UnitConfig(id: UnitId, unitType: string)

  datatype ServerConfig = ServerConfig(
    name: string, path: string, typeName: string, jar: string, version: Version, memory: nat)

  datatype ServerUnitConfig = ServerUnitConfig(unit: UnitConfig, server: ServerConfig)

  datatype ServerInfo = ServerInfo(
    name: UnitId, path: string, serverType: ServerType, serverVersion: Version, serverStatus: ServerStatus)

  datatype ServerEvent =
    | ServerStarting(serverId: UnitId)
    | ServerStarted(serverId: UnitId)
    | ServerStopping(serverId: UnitId)
    | ServerStopped(serverId: UnitId)
    | ActionProgress(serverId: UnitId, action: string, progress: Option<nat>, maximum: Option<nat>, actionNumber: nat)
    | InstallationComplete(serverId: UnitId)
    | InstallationFailed(serverId: UnitId, error: string)
    | UpdateComplete(serverId: UnitId)
    | UpdateFailed(serverId: UnitId, error: string)
    | ServerFailed(serverId: UnitId, error: string)
  {
    /** Install and update end with exactly one of these. */
    predicate Final() {
      InstallationComplete? || InstallationFailed? || UpdateComplete? || UpdateFailed?
    }

    /** The event tells that a unit has been stored. */
    predicate Completion() {
      InstallationComplete? || UpdateComplete?
    }
  }

  datatype ServerEventType =
    | TServerStarting | TServerStarted | TServerStopping | TServerStopped | TActionProgress
    | TInstallationComplete | TInstallationFailed | TUpdateComplete | TUpdateFailed | TServerFailed

  function EventType(event: ServerEvent): ServerEventType {
    match event
    case ServerStarting(_) => TServerStarting
    case ServerStarted(_) => TServerStarted
    case ServerStopping(_) => TServerStopping
    case ServerStopped(_) => TServerStopped
    case ActionProgress(_, _, _, _, _) => TActionProgress
    case InstallationComplete(_) => TInstallationComplete
    case InstallationFailed(_, _) => TInstallationFailed
    case UpdateComplete(_) => TUpdateComplete
    case UpdateFailed(_, _) => TUpdateFailed
    case ServerFailed(_, _) => TServerFailed
  }

  datatype InstallRequest = InstallRequest(
    unitId: UnitId, installPath: string, unitFilePath: Option<string>, serverVersion: Option<Version>,
    serverType: ServerType, acceptEula: bool, serverName: Option<string>)

  datatype DaemonCmd =
    | List
    | GetVersion
    | Start(serverId: UnitId, wait: bool)
    | Stop(serverId: UnitId, wait: bool)
    | SubscribeEvent(eventType: ServerEventType, serverIds: Option<seq<UnitId>>)
    | InstallServer(request: InstallRequest)
    | UpdateServer(unitId: UnitId, serverVersion: Option<Version>)
    | StopDaemon
    | SendMessage(unitId: UnitId, message: string)
    | SendCommand(unitId: UnitId, command: string)

  /** The listing is a set: its order is the iteration order of a hash map. */
  datatype DaemonResponse =
    | Listing(servers: set<ServerInfo>)
    | DaemonVersion
    | SetSender
    | ServerNotFound(serverId: UnitId)
    | StartSent(serverId: UnitId)
    | StopSent(serverId: UnitId)
    | Notice(event: ServerEvent)
    | Ok
    | DaemonStopped

  /** What arrives on the queue of the daemon thread. */
  datatype DaemonEvent =
    | IncomingCmd(id: ClientId, cmd: DaemonCmd)
    | SendEvent(clientId: ClientId, event: ServerEvent)
    | AddServerUnit(config: ServerUnitConfig)
    | StopRequested
    | SendStopped

  /** What arrives on the queue of the event manager thread. */
  datatype ManagerCmd =
    | DispatchEvent(serverId: UnitId, event: ServerEvent)
    | AddSubscription(serverId: UnitId, eventType: ServerEventType, clientId: ClientId)
    | RemoveSubscription(serverId: UnitId, eventType: ServerEventType, clientId: ClientId)
    | RemoveAllSubscriptions(clientId: ClientId)
  {
    predicate Removal() {
      RemoveSubscription? || RemoveAllSubscriptions?
    }
  }

  /** `raise_event`: the event is dispatched under the id of the unit it belongs to. */
  function Raise(unit: UnitId, event: ServerEvent): ManagerCmd {
    DispatchEvent(unit, event)
  }
}
