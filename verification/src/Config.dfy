/** Loading the units of the daemon from its unit directories. */
module Config {
  import opened Sequences
  import opened Protocol

  /** What the walk over the unit directories yields, in its order. */
  datatype UnitFile = Unreadable | Other | Toml(config: ServerUnitConfig)

  /** The units found; of several with one id, the last one counts. */
  function Servers(files: seq<UnitFile>): map<UnitId, ServerUnitConfig> {
    if files == [] then map[]
    else
      var before, file := Servers(files[..|files| - 1]), files[|files| - 1];
      match file
      case Unreadable => before
      case Other => before
      case Toml(config) =>
        if config.unit.unitType == "server" && config.server.typeName == "paper" then before[config.unit.id := config] else before
  }

  /** The file was read, describes a unit that is a server, and that is a Paper server. */
  ghost predicate Usable(file: UnitFile) {
    file.Toml? && file.config.unit.unitType == "server" && file.config.server.typeName == "paper"
  }

  ghost predicate LastUsable(files: seq<UnitFile>, id: UnitId, at: nat) {
    && at < |files| && Usable(files[at]) && files[at].config.unit.id == id
    && forall j :: at < j < |files| && Usable(files[j]) ==> files[j].config.unit.id != id
  }

  /** Exactly the ids of usable files are present, each with the last such file's contents;
      so every unit is stored under its own id. */
  lemma {:induction false} ServersAreLastUsable(files: seq<UnitFile>, id: UnitId)
    ensures id in Servers(files) <==> exists at: nat :: LastUsable(files, id, at)
    ensures forall at: nat :: LastUsable(files, id, at) ==> id in Servers(files) && Servers(files)[id] == files[at].config
  {
    if files != [] {
      var front, last := files[..|files| - 1], |files| - 1;
      ServersAreLastUsable(front, id);
      if Usable(files[last]) && files[last].config.unit.id == id {
        assert LastUsable(files, id, last);
      } else {
        assert forall at: nat :: LastUsable(files, id, at) <==> LastUsable(front, id, at);
      }
    }
  }

  lemma {:induction false} ServersAreCoherent(files: seq<UnitFile>)
    ensures forall id :: id in Servers(files) ==>
      Servers(files)[id].unit.id == id && Servers(files)[id].server.typeName == "paper"
  {
    if files != [] {
      ServersAreCoherent(files[..|files| - 1]);
    }
  }

  /** `create_servers`: a unit is stored exactly if some file describes it, and as the last of
      those does. */
  method CreateServers(files: seq<UnitFile>) returns (servers: map<UnitId, ServerUnitConfig>)
    ensures servers == Servers(files)
    ensures forall id :: id in servers <==> exists at: nat :: LastUsable(files, id, at)
    ensures forall id, at: nat :: LastUsable(files, id, at) ==> id in servers && servers[id] == files[at].config
  {
    servers := map[];
    for i := 0 to |files|
      invariant servers == Servers(files[..i])
    {
      assert files[..i + 1][..i] == files[..i];
      match files[i] {
        case Unreadable =>
        case Other =>
        case Toml(config) =>
          if config.unit.unitType == "server" {
            if config.server.typeName == "paper" {
              servers := servers[config.unit.id := config];
            }
          }
      }
    }
    assert files[..|files|] == files;
    forall id
      ensures id in servers <==> exists at: nat :: LastUsable(files, id, at)
      ensures forall at: nat :: LastUsable(files, id, at) ==> id in servers && servers[id] == files[at].config
    {
      ServersAreLastUsable(files, id);
    }
  }
}
