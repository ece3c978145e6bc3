/** The bodies of the six built-in operator commands `CommandManager`
    registers. Clock, engine and system values are inputs. */
module BuiltinCommands {
  import opened Wrappers
  import opened Text
  import opened Json
  import opened Collections
  import opened CommandTypes
  import opened Transport
  import opened NetServer

  /** A loaded scene as `SceneManager.GetSceneAt` reports it. */
  datatype Scene = Scene(name: string, path: string, isLoaded: bool, buildIndex: int)

  /** What a command reads from outside the model at the moment it runs:
      the UTC time in round-trip text and in Unix milliseconds, the uptime
      (`realtimeSinceStartup`) and its two-decimal text, the application
      and system descriptions, and the loaded scenes in `SceneManager`
      order. */
  datatype Environment = Environment(
    serverTime: string,
    unixMillis: int,
    uptime: real,
    uptimeF2: string,
    version: string,
    unityVersion: string,
    platform: string,
    systemMemory: int,
    graphicsDevice: string,
    scenes: seq<Scene>)

  const ServerName := "Pixel Collector Unity Server"
  const HelpHeader := "사용 가능한 명령어:\n"
  const NoServerManagerMessage := "서버 매니저를 사용할 수 없습니다."

  /** `status`: online, the server time and the uptime, as text and as
      data. */
  function StatusResponse(env: Environment): (r: CommandResponse)
    ensures r.code == SuccessCode && r.data.JObject?
    ensures r.message == "Status\nonline: true\nserverTime: " + env.serverTime + "\nuptime: " + env.uptimeF2 + "s"
  {
    Success("Status\n" + "online: true\n" + "serverTime: " + env.serverTime + "\n" + "uptime: " + env.uptimeF2 + "s",
      JObject([("online", JBool(true)), ("serverTime", JString(env.serverTime)), ("uptime", JNumber(env.uptime))]))
  }

  /** The status data says the server is online and carries the time and
      uptime read. */
  lemma StatusData(env: Environment)
    ensures Field(StatusResponse(env).data, "online") == Some(JBool(true))
    ensures Field(StatusResponse(env).data, "serverTime") == Some(JString(env.serverTime))
    ensures Field(StatusResponse(env).data, "uptime") == Some(JNumber(env.uptime))
  {
    var fields := StatusResponse(env).data.fields;
    LookupFinds(fields, 0);
    LookupFinds(fields, 1);
    LookupFinds(fields, 2);
  }

  /** `ping`: "pong" and the time read, both in the message and as the
      `timestamp` field. */
  function PingResponse(env: Environment): (r: CommandResponse)
    ensures r.code == SuccessCode
    ensures Field(r.data, "timestamp") == Some(JInt(env.unixMillis))
    ensures |r.message| > 5 && r.message[..5] == "pong "
  {
    Success("pong " + IntToString(env.unixMillis), JObject([("timestamp", JInt(env.unixMillis))]))
  }

  /** The timestamp in the ping message reads back as the one in its data. */
  lemma PingMessageCarriesTimestamp(env: Environment)
    requires env.unixMillis >= 0
    ensures AllDigits(PingResponse(env).message[5..])
    ensures ParseNat(PingResponse(env).message[5..]) == env.unixMillis
  {
    assert PingResponse(env).message[5..] == NatToString(env.unixMillis);
    NatToStringRoundTrip(env.unixMillis);
  }

  /** `server:info`: the fixed server name and the given descriptions. */
  function ServerInfoResponse(env: Environment): (r: CommandResponse)
    ensures r.code == SuccessCode && r.data.JObject? && |r.data.fields| == 7
    ensures r.message == "Server Info\nname: " + ServerName + "\nversion: " + env.version +
      "\nunityVersion: " + env.unityVersion + "\nplatform: " + env.platform +
      "\nuptime: " + env.uptimeF2 + "s\nsystemMemory: " + IntToString(env.systemMemory) +
      " MB\ngraphicsDevice: " + env.graphicsDevice
  {
    Success(
      "Server Info\nname: " + ServerName + "\nversion: " + env.version +
      "\nunityVersion: " + env.unityVersion + "\nplatform: " + env.platform +
      "\nuptime: " + env.uptimeF2 + "s\nsystemMemory: " + IntToString(env.systemMemory) +
      " MB\ngraphicsDevice: " + env.graphicsDevice,
      JObject([
        ("name", JString(ServerName)),
        ("version", JString(env.version)),
        ("unityVersion", JString(env.unityVersion)),
        ("platform", JString(env.platform)),
        ("uptime", JNumber(env.uptime)),
        ("systemMemory", JInt(env.systemMemory)),
        ("graphicsDevice", JString(env.graphicsDevice))]))
  }

  /** The server-info data carries the fixed name and each value read. */
  lemma ServerInfoData(env: Environment)
    ensures Field(ServerInfoResponse(env).data, "name") == Some(JString(ServerName))
    ensures Field(ServerInfoResponse(env).data, "version") == Some(JString(env.version))
    ensures Field(ServerInfoResponse(env).data, "unityVersion") == Some(JString(env.unityVersion))
    ensures Field(ServerInfoResponse(env).data, "platform") == Some(JString(env.platform))
    ensures Field(ServerInfoResponse(env).data, "uptime") == Some(JNumber(env.uptime))
    ensures Field(ServerInfoResponse(env).data, "systemMemory") == Some(JInt(env.systemMemory))
    ensures Field(ServerInfoResponse(env).data, "graphicsDevice") == Some(JString(env.graphicsDevice))
  {
    var fields := ServerInfoResponse(env).data.fields;
    LookupFinds(fields, 0);
    LookupFinds(fields, 1);
    LookupFinds(fields, 2);
    LookupFinds(fields, 3);
    LookupFinds(fields, 4);
    LookupFinds(fields, 5);
    LookupFinds(fields, 6);
  }

  /** The names as a JSON array of strings, in the same order. */
  function Strings(names: seq<string>): (js: seq<Json>)
    ensures |js| == |names|
    ensures forall i :: 0 <= i < |names| ==> js[i] == JString(names[i])
  {
    seq(|names|, i requires 0 <= i < |names| => JString(names[i]))
  }

  /** `help` over the command names `names`: a header and one indented
      line per name, and the names as an array. */
  function HelpResponse(names: seq<string>): (r: CommandResponse)
    ensures r.code == SuccessCode
    ensures r.data.JArray? && r.data.items == Strings(names)
    ensures r.message == HelpHeader + Join("\n", Indented(names))
  {
    Success(HelpHeader + Join("\n", Indented(names)), JArray(Strings(names)))
  }

  /** The `help` body once the names are read: the array is filled by a
      loop over them. */
  method BuildHelp(names: seq<string>) returns (r: CommandResponse)
    ensures r == HelpResponse(names)
  {
    var message := HelpHeader + Join("\n", Indented(names));
    var result: seq<Json> := [];
    var i := 0;
    while i < |names|
      invariant 0 <= i <= |names|
      invariant result == Strings(names[..i])
    {
      result := result + [JString(names[i])];
      i := i + 1;
    }
    assert names[..i] == names;
    r := Success(message, JArray(result));
  }

  /** One scene as the `server:scenes` array lists it. */
  function SceneJson(s: Scene): Json
  {
    JObject([("name", JString(s.name)), ("path", JString(s.path)), ("isLoaded", JBool(s.isLoaded)), ("buildIndex", JInt(s.buildIndex))])
  }

  /** A scene entry carries the scene's name, path, load state and build
      index. */
  lemma SceneJsonFields(s: Scene)
    ensures Field(SceneJson(s), "name") == Some(JString(s.name)) && Field(SceneJson(s), "path") == Some(JString(s.path))
    ensures Field(SceneJson(s), "isLoaded") == Some(JBool(s.isLoaded)) && Field(SceneJson(s), "buildIndex") == Some(JInt(s.buildIndex))
  {
    LookupFinds(SceneJson(s).fields, 0);
    LookupFinds(SceneJson(s).fields, 1);
    LookupFinds(SceneJson(s).fields, 2);
    LookupFinds(SceneJson(s).fields, 3);
  }

  function SceneNames(scenes: seq<Scene>): (names: seq<string>)
    ensures |names| == |scenes|
    ensures forall i :: 0 <= i < |scenes| ==> names[i] == scenes[i].name
  {
    seq(|scenes|, i requires 0 <= i < |scenes| => scenes[i].name)
  }

  function SceneArray(scenes: seq<Scene>): (js: seq<Json>)
    ensures |js| == |scenes|
    ensures forall i :: 0 <= i < |scenes| ==> js[i] == SceneJson(scenes[i])
  {
    seq(|scenes|, i requires 0 <= i < |scenes| => SceneJson(scenes[i]))
  }

  /** `server:scenes`: one array entry and one indented line per scene, in
      scene order, under a header that gives their count. */
  function ScenesResponse(scenes: seq<Scene>): (r: CommandResponse)
    ensures r.code == SuccessCode
    ensures r.data.JArray? && |r.data.items| == |scenes|
    ensures forall i :: 0 <= i < |scenes| ==> r.data.items[i] == SceneJson(scenes[i])
    ensures r.message == "Active Scenes (" + IntToString(|scenes|) + "):\n" + Join("\n", Indented(SceneNames(scenes)))
  {
    Success("Active Scenes (" + IntToString(|scenes|) + "):\n" + Join("\n", Indented(SceneNames(scenes))), JArray(SceneArray(scenes)))
  }

  /** The `server:scenes` body: a loop over the scene indices filling the
      name list and the array. */
  method ServerScenes(scenes: seq<Scene>) returns (r: CommandResponse)
    ensures r == ScenesResponse(scenes)
  {
    var entries: seq<Json> := [];
    var sceneNames: seq<string> := [];
    var i := 0;
    while i < |scenes|
      invariant 0 <= i <= |scenes|
      invariant sceneNames == SceneNames(scenes[..i])
      invariant entries == SceneArray(scenes[..i])
    {
      var scene := scenes[i];
      sceneNames := sceneNames + [scene.name];
      entries := entries + [SceneJson(scene)];
      i := i + 1;
    }
    assert scenes[..i] == scenes;
    r := Success("Active Scenes (" + IntToString(|scenes|) + "):\n" + Join("\n", Indented(sceneNames)), JArray(entries));
  }

  /** One player's line: "<username> (<connection id>)". */
  function PlayerLine(p: NetworkPlayer): string
    reads p
  {
    p.username + " (" + IntToString(p.conn.connectionId) + ")"
  }

  /** One player as the `server:players` array lists it. */
  function PlayerJson(p: NetworkPlayer): Json
    reads p
  {
    JObject([("username", JString(p.username)), ("ipAddress", JString(p.conn.address)), ("connectedAt", JString(p.connectedAt.roundTrip))])
  }

  /** A player entry carries the username, the connection's address and
      the connection time. */
  lemma PlayerJsonFields(p: NetworkPlayer)
    ensures Field(PlayerJson(p), "username") == Some(JString(p.username))
    ensures Field(PlayerJson(p), "ipAddress") == Some(JString(p.conn.address))
    ensures Field(PlayerJson(p), "connectedAt") == Some(JString(p.connectedAt.roundTrip))
  {
    LookupFinds(PlayerJson(p).fields, 0);
    LookupFinds(PlayerJson(p).fields, 1);
    LookupFinds(PlayerJson(p).fields, 2);
  }

  function PlayerLines(players: seq<NetworkPlayer>): (lines: seq<string>)
    reads set p | p in players
    ensures |lines| == |players|
    ensures forall i :: 0 <= i < |players| ==> lines[i] == PlayerLine(players[i])
  {
    seq(|players|, i reads set p | p in players requires 0 <= i < |players| => PlayerLine(players[i]))
  }

  function PlayerArray(players: seq<NetworkPlayer>): (js: seq<Json>)
    reads set p | p in players
    ensures |js| == |players|
    ensures forall i :: 0 <= i < |players| ==> js[i] == PlayerJson(players[i])
  {
    seq(|players|, i reads set p | p in players requires 0 <= i < |players| => PlayerJson(players[i]))
  }

  /** `server:players` over the players in the order their table lists
      them: one entry and one line per player under a header giving their
      count. */
  function PlayersResponse(players: seq<NetworkPlayer>): (r: CommandResponse)
    reads set p | p in players
    ensures r.code == SuccessCode
    ensures r.data.JArray? && |r.data.items| == |players|
    ensures forall i :: 0 <= i < |players| ==> r.data.items[i] == PlayerJson(players[i])
    ensures r.message == "Connected Players (" + IntToString(|players|) + "):\n" + Join("\n", Indented(PlayerLines(players)))
  {
    Success("Connected Players (" + IntToString(|players|) + "):\n" + Join("\n", Indented(PlayerLines(players))), JArray(PlayerArray(players)))
  }

  /** The `server:players` body. Without a server manager it answers with
      a server error. Otherwise it visits the table's values, in the
      table's (unspecified) order `order`, and lists them. */
  method ServerPlayers(serverManager: NetServerManager?) returns (r: CommandResponse, order: seq<Connection>)
    ensures serverManager == null ==> r == ServerError(NoServerManagerMessage) && order == []
    ensures serverManager != null ==>
      IsEnumeration(order, serverManager.players.Keys) &&
      r == PlayersResponse(ValuesInOrder(serverManager.players, order))
  {
    if serverManager == null {
      return ServerError(NoServerManagerMessage), [];
    }
    var table := serverManager.players;
    order := Enumerate(table.Keys);
    EnumerationFacts(order, table.Keys);
    var players := ValuesInOrder(table, order);
    r := ListPlayers(players);
  }

  /** The loop of `server:players`: one line and one array entry per
      player visited, and a header with the number of values. */
  method ListPlayers(players: seq<NetworkPlayer>) returns (r: CommandResponse)
    ensures r == PlayersResponse(players)
  {
    var entries: seq<Json> := [];
    var lines: seq<string> := [];
    var i := 0;
    while i < |players|
      invariant 0 <= i <= |players|
      invariant |lines| == i && forall k :: 0 <= k < i ==> lines[k] == PlayerLine(players[k])
      invariant |entries| == i && forall k :: 0 <= k < i ==> entries[k] == PlayerJson(players[k])
    {
      var player := players[i];
      lines := lines + [player.username + " (" + IntToString(player.conn.connectionId) + ")"];
      entries := entries + [PlayerJson(player)];
      i := i + 1;
    }
    assert lines == PlayerLines(players);
    assert entries == PlayerArray(players);
    r := Success("Connected Players (" + IntToString(|players|) + "):\n" + Join("\n", Indented(lines)), JArray(entries));
  }

  /** The players listing covers the whole table: one entry per connection,
      each connection's record appearing, and the count in the header is
      the table's size. */
  lemma PlayersListEveryEntry(table: map<Connection, NetworkPlayer>, order: seq<Connection>)
    requires IsEnumeration(order, table.Keys)
    ensures |ValuesInOrder(table, order)| == |table|
    ensures forall c :: c in table ==> exists i :: 0 <= i < |table| && PlayersResponse(ValuesInOrder(table, order)).data.items[i] == PlayerJson(table[c])
  {
    EnumerationFacts(order, table.Keys);
    assert |table.Keys| == |table|;
    var players := ValuesInOrder(table, order);
    forall c | c in table
      ensures exists i :: 0 <= i < |table| && PlayersResponse(players).data.items[i] == PlayerJson(table[c])
    {
      assert c in order;
      var i :| 0 <= i < |order| && order[i] == c;
      assert players[i] == table[c];
      assert PlayersResponse(players).data.items[i] == PlayerJson(players[i]);
    }
  }

  /** The help array lists every registered name exactly once. */
  lemma HelpListsEveryCommand(names: seq<string>, registered: set<string>)
    requires IsEnumeration(names, registered)
    ensures |HelpResponse(names).data.items| == |registered|
    ensures forall c :: c in registered <==> JString(c) in HelpResponse(names).data.items
  {
    EnumerationFacts(names, registered);
    var items := HelpResponse(names).data.items;
    forall c
      ensures c in registered <==> JString(c) in items
    {
      if JString(c) in items {
        var i :| 0 <= i < |items| && items[i] == JString(c);
        assert names[i] == c;
      }
      if c in registered {
        var i :| 0 <= i < |names| && names[i] == c;
        assert items[i] == JString(c);
      }
    }
  }
}
