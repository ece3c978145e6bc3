# Pixel Collector — a Dafny model of the networking and projectile core

Pixel Collector is a Unity game built on the Mirror networking library. A
server is authoritative over short-lived bullets. Clients log in against an
account table. An operator console drives the server through named text
commands sent over socket.io. This project models that core in Dafny and
proves properties of the model:

- **Operator commands.** `SocketCommandHandler` keeps a name-to-handler
  table and dispatches three ways: empty name, unknown name, registered
  name. `CommandResponse` supplies the status-code factories.
  `CommandManager` registers six built-in commands. Modules:
  `SocketCommands`, `CommandTypes`, `BuiltinCommands`, `CommandManager`.
- **Packets.** `AuthPacket`, `MovePacket` and `BulletPacket` are written to
  and read back from Mirror's writer and reader (`Packets`, `PacketLoader`,
  `Transport`).
- **Bullets.** The asset registry (`BulletAssets`), the pool and the
  shoot/replicate flow (`Projectiles`), and the per-tick and per-hit rules
  (`BulletRules`).
- **Units and players.** Health with its death and change events
  (`Units`). The player's move, velocity and shoot commands and its start-up
  routing (`Players`, `NetClient`).
- **Login handshake.** The server side (`ServerAuth`) and the client side
  (`NetClient`).
- **Player table.** The server's connection-to-player table (`NetServer`).
- **Colours.** `ColorExtensions.WithAlpha`.
- **Shared building blocks.** `Wrappers` (Option, Result, Outcome), `Core`
  (vectors, teams, exceptions), `Text` (integer formatting, joining),
  `Json` (the JSON values used as command data) and `Collections` (an
  enumeration of a set in some unspecified order).

Each modelled method follows the code's own form:

- A Unity component or manager whose fields change in place is a `class`.
  Its methods say exactly what they change.
- Calculations are functions.
- Every loop is a `while` loop, proved against a specification function.
- Clock, engine and system values (time, uptime, scenes, memory and so on)
  are parameters. So are the vector helpers whose code is outside this
  model (`Core.Geometry`), the object handed out by `AssetReference.Pooling`,
  and whether `NetworkServer.active` holds.
- An exception the code lets escape becomes a `Fail` outcome.
- A dictionary's enumeration order (C# does not fix it) is any order that
  lists each key once. The contracts hold for every such order.

### Behaviour of the code worth knowing

The model follows the code in every case:

- **Owner exemption.** A bullet touching its owner's player skips only the
  "other player" branch (`BulletBase.cs:41-49`). It then falls through to
  the team rule, which still damages an owner of a different team
  (`BulletRules.OwnerFallsThroughToTeamRule`).
- **Release timing.** A bullet is released on the first tick that *finds*
  its lifetime at or below zero, not on the tick that brings it there. The
  lifetime can go negative before that (`BulletBase.cs:26-35`,
  `BulletRules.ReleaseTiming`).
- **Recycled bullets.** A bullet taken back from the pool keeps its spent
  lifetime. `ShootFunc` does not reset it.
- **What a shot carries.** `BulletPacket` carries type, team, two positions
  and damage; no lifetime and no owner id go on the wire
  (`BulletPacket.cs:33-40`). `BulletProperties.Shoot` calls a six-argument
  constructor, with the lifetime as the sixth argument, that does not exist
  (`BulletProperties.cs:35-36`). It is modelled as the five-argument
  constructor, which sets the damage to 1 whatever it is given
  (`BulletPacket.cs:30-31`, `Packets.FromPropertiesIgnoresDamage`).
- **Command descriptions.** `CommandManager` passes a description to a
  three-argument `RegisterCommand` that does not exist
  (`CommandManager.cs:41`). The handler has only the two-argument form
  (`SocketCommandHandler.cs:46`), so descriptions are dropped.
- **CommandData fields.** `HandleCommand` fills `CommandData` through `cmd`
  and `data`. The class declares `Cmd` and `Args`. The model uses one
  record with `cmd` and `args`.
- **Missing members.**
  - `PlayerBaseModule` uses a `Team` that the unit class does not declare.
    The model takes the unit's `team` field.
  - It also calls a `NetServerManager.GetPlayer` that does not exist. The
    model looks the connection up in the `players` table. A missing entry
    is a `NullReferenceException`.

## Model

All source paths are relative to the repository root.

| member | source | states |
|---|---|---|
| ColorExtensions.Color.WithAlpha | Assets/Script/Util/Extensions/ColorExtensions.cs:7-11 | the copy has the given alpha and the original red, green and blue |
| ColorExtensions.Color32.WithAlpha | Assets/Script/Util/Extensions/ColorExtensions.cs:13-17 | the same for the byte colour |
| ColorExtensions.LastAlphaWins | Assets/Script/Util/Extensions/ColorExtensions.cs:7-11 | setting the alpha twice equals setting only the second one |
| ColorExtensions.LastAlphaWins32 | Assets/Script/Util/Extensions/ColorExtensions.cs:13-17 | the same for the byte colour |
| ColorExtensions.OwnAlphaIsIdentity | Assets/Script/Util/Extensions/ColorExtensions.cs:7-17 | re-applying a colour's own alpha returns the colour unchanged |
| CommandTypes.NewCommandData | Assets/Script/Networking/Server/CommandTypes.cs:21-25 | the request stores the given command; args default to null |
| CommandTypes.NewCommandResponse | Assets/Script/Networking/Server/CommandTypes.cs:45-50 | the response stores code, message and data; data defaults to null |
| CommandTypes.Success | Assets/Script/Networking/Server/CommandTypes.cs:55-58 | code 100 with the given message and data |
| CommandTypes.Error | Assets/Script/Networking/Server/CommandTypes.cs:63-66 | code, message and data exactly as given |
| CommandTypes.NotFound | Assets/Script/Networking/Server/CommandTypes.cs:71-74 | code 404, no data, and a message that ends with the command name |
| CommandTypes.ServerError | Assets/Script/Networking/Server/CommandTypes.cs:79-82 | code 500, the given message, no data |
| CommandTypes.NotFoundIdentifiesCommand | Assets/Script/Networking/Server/CommandTypes.cs:71-74 | two not-found responses are equal only for the same command name |
| CommandTypes.FactoriesDisjoint | Assets/Script/Networking/Server/CommandTypes.cs:55-82 | a success, a not-found and a server-error response are never equal |
| Core.TeamNamed | Assets/Script/Networking/Packet/BulletPacket.cs:19 | `Team.Get`, modelled as the team that carries the given name (the `Team` class is not part of this model) |
| Transport.NetworkWriter.WriteString | Assets/Script/Networking/Packet/BulletPacket.cs:35-36 | appends one string token and nothing else |
| Transport.NetworkWriter.WriteFloat | Assets/Script/Networking/Packet/BulletPacket.cs:39 | appends one float token |
| Transport.NetworkWriter.WriteBool | Assets/Script/Networking/Packet/MovePacket.cs:21 | appends one bool token |
| Transport.NetworkWriter.WriteVector2 | Assets/Script/Networking/Packet/MovePacket.cs:20 | appends one 2-D vector token |
| Transport.NetworkWriter.WriteVector3 | Assets/Script/Networking/Packet/BulletPacket.cs:37-38 | appends one 3-D vector token |
| Transport.NetworkReader.ReadString | Assets/Script/Networking/Packet/BulletPacket.cs:45-46 | returns the string at the read position and advances by one. Fails at the end of the stream or on a token of another type, and then does not move |
| Transport.NetworkReader.ReadFloat | Assets/Script/Networking/Packet/BulletPacket.cs:49 | the same for a float |
| Transport.NetworkReader.ReadBool | Assets/Script/Networking/Packet/MovePacket.cs:29 | the same for a bool |
| Transport.NetworkReader.ReadVector2 | Assets/Script/Networking/Packet/MovePacket.cs:28 | the same for a 2-D vector |
| Transport.NetworkReader.ReadVector3 | Assets/Script/Networking/Packet/BulletPacket.cs:47-48 | the same for a 3-D vector |
| BulletAssets.BulletRegistry.Load | Assets/Script/Bullet/Properties/BulletProperties.cs:42-54 | a second load throws InvalidOperationException and leaves the table as it was. The first load marks the registry loaded and registers every delivered asset under its name, in delivery order |
| BulletAssets.BulletRegistry.OnAssetLoaded | Assets/Script/Bullet/Properties/BulletProperties.cs:47-53 | the asset is stored under its name, replacing any earlier one; all other entries are kept |
| BulletAssets.BulletRegistry.Lookup | Assets/Script/Networking/Packet/BulletPacket.cs:18 | a name in the table gives its asset; any other name throws KeyNotFoundException for that name |
| BulletAssets.RegisteredSnoc | Assets/Script/Bullet/Properties/BulletProperties.cs:49 | registering one more asset updates exactly its name |
| BulletAssets.RegisteredKeys | Assets/Script/Bullet/Properties/BulletProperties.cs:47-53 | after a load, the names are the old names plus the loaded assets' names |
| BulletAssets.RegisteredUntouched | Assets/Script/Bullet/Properties/BulletProperties.cs:47-53 | a name no loaded asset carries keeps its entry, or stays absent |
| BulletAssets.LastLoadWins | Assets/Script/Bullet/Properties/BulletProperties.cs:49 | when several loaded assets share a name, the last of them is the one registered |
| Packets.AuthPacket.Write | Assets/Script/Networking/Packet/AuthPacket.cs:11-15 | appends exactly the packet's encoding: username, then password |
| Packets.AuthPacket.Decode | Assets/Script/Networking/Packet/AuthPacket.cs:17-24 | a successful decode consumes exactly the tokens that encode the packet it returns |
| Packets.AuthPacket.Read | Assets/Script/Networking/Packet/AuthPacket.cs:17-24 | reading gives what decoding at the reader's position gives, and advances the reader past it on success |
| Packets.AuthRoundTrip | Assets/Script/Networking/Packet/AuthPacket.cs:11-24 | decoding a packet's encoding, wherever it sits in a stream, gives the packet back and ends right after it |
| Packets.AuthFieldOrder | Assets/Script/Networking/Packet/AuthPacket.cs:13-22 | the first string read is the username; swapping two different fields changes the encoding |
| Packets.MovePacket.Write | Assets/Script/Networking/Packet/MovePacket.cs:18-22 | appends exactly the encoding: direction, then the canceled flag |
| Packets.MovePacket.Decode | Assets/Script/Networking/Packet/MovePacket.cs:24-31 | a successful decode consumes exactly the encoding of its result |
| Packets.MovePacket.Read | Assets/Script/Networking/Packet/MovePacket.cs:24-31 | reading follows decoding at the reader's position |
| Packets.MoveRoundTrip | Assets/Script/Networking/Packet/MovePacket.cs:18-31 | decode after encode gives the packet back and ends right after it |
| Packets.BulletPacket.New | Assets/Script/Networking/Packet/BulletPacket.cs:21-28 | all five fields are stored as given |
| Packets.BulletPacket.FromProperties | Assets/Script/Networking/Packet/BulletPacket.cs:30-31 | stores the asset's name, the team's name and both positions; the damage is always 1 |
| Packets.BulletPacket.Type | Assets/Script/Networking/Packet/BulletPacket.cs:18 | the registered asset for the type name, or KeyNotFoundException when the name is not registered |
| Packets.BulletPacket.TeamOf | Assets/Script/Networking/Packet/BulletPacket.cs:19 | the team whose name is the packet's team name |
| Packets.BulletPacket.Write | Assets/Script/Networking/Packet/BulletPacket.cs:33-40 | appends exactly the encoding: type name, team name, start, target, damage |
| Packets.BulletPacket.Decode | Assets/Script/Networking/Packet/BulletPacket.cs:42-51 | a successful decode consumes exactly the encoding of its result |
| Packets.BulletPacket.Read | Assets/Script/Networking/Packet/BulletPacket.cs:42-51 | reading follows decoding at the reader's position |
| Packets.BulletRoundTrip | Assets/Script/Networking/Packet/BulletPacket.cs:33-51 | decode after encode gives the packet back and ends right after it |
| Packets.FromPropertiesIgnoresDamage | Assets/Script/Networking/Packet/BulletPacket.cs:30-31 | two packets built with different damage values are equal |
| PacketLoader.DecodeAs | Assets/Script/Networking/Packet/PacketLoader.cs:13-15 | a packet read as a given kind is of that kind and was encoded by exactly the tokens consumed |
| PacketLoader.WriteIPacket | Assets/Script/Networking/Packet/PacketLoader.cs:8-11 | writing any packet appends exactly its own encoding |
| PacketLoader.ReadMovePacket | Assets/Script/Networking/Packet/PacketLoader.cs:13 | reads as MovePacket.Read does |
| PacketLoader.ReadAuthPacket | Assets/Script/Networking/Packet/PacketLoader.cs:14 | reads as AuthPacket.Read does |
| PacketLoader.ReadBulletPacket | Assets/Script/Networking/Packet/PacketLoader.cs:15 | reads as BulletPacket.Read does |
| PacketLoader.LoaderRoundTrip | Assets/Script/Networking/Packet/PacketLoader.cs:8-15 | any packet written between other tokens is read back by its kind's reader, which stops right after it |
| Units.StoredHealth | Assets/Script/Unit/UnitBaseModule.cs:31-37 | a positive value is stored capped at the maximum; zero or less stores 0; with a non-negative maximum the health stays in range |
| Units.SetterEvents | Assets/Script/Unit/UnitBaseModule.cs:29-40 | the setter always ends by reporting the stored health. Death fires exactly when the value is at most 0, and before the health report |
| Units.DeathFiresAgain | Assets/Script/Unit/UnitBaseModule.cs:29-63 | damaging a dead unit fires death again, then reports 0 |
| Units.HealthStaysInRange | Assets/Script/Unit/UnitBaseModule.cs:60-63 | after any run of damage, health that starts in range stays between 0 and the maximum |
| Units.UnitBaseModule.SetHealth | Assets/Script/Unit/UnitBaseModule.cs:29-40 | stores the clamped health and appends the setter's events |
| Units.UnitBaseModule.Damage | Assets/Script/Unit/UnitBaseModule.cs:60-63 | sets the health to the old health minus the damage, through the setter |
| BulletRules.Tick | Assets/Script/Bullet/BulletBase.cs:26-35 | a tick releases an active bullet exactly when its lifetime is at most 0; otherwise a positive lifetime counts down by the tick's duration |
| BulletRules.ReleasedAtMostOnce | Assets/Script/Bullet/BulletBase.cs:26-35 | over any run of ticks a bullet is released at most once, and an inactive one never |
| BulletRules.ReleaseTiming | Assets/Script/Bullet/BulletBase.cs:26-35 | the release comes on the first tick whose remaining lifetime is at most 0; every earlier tick had lifetime left |
| BulletRules.HitRule | Assets/Script/Bullet/BulletBase.cs:37-62 | something not damageable is released only on the obstacle layer. A null reference happens exactly when an owned bullet meets a player without a connection |
| BulletRules.OtherPlayerAlwaysHit | Assets/Script/Bullet/BulletBase.cs:41-48 | an owned bullet always damages a player of another connection, whatever the teams |
| BulletRules.OwnerFallsThroughToTeamRule | Assets/Script/Bullet/BulletBase.cs:41-55 | on its owner's player, the team rule decides |
| BulletRules.TeamRuleDecides | Assets/Script/Bullet/BulletBase.cs:51-55 | outside the other-player case, a damageable unit is damaged exactly when its team differs |
| Projectiles.View | Assets/Script/Bullet/BulletBase.cs:39-51 | the collider's unit team, player link and layer, as the hit rule sees them |
| Projectiles.BulletBase.Release | Assets/Script/Util/Pools/PooledObject.cs:10-17 | with no pool the object is destroyed. Otherwise the pool refuses a double release with its error, or deactivates the object and keeps it, or destroys it when full |
| Projectiles.BulletBase.Duplicate | Assets/Script/Util/Pools/PooledObject.cs:19 | with no pool the object itself is returned; otherwise the pool hands one out |
| Projectiles.BulletBase.FixedUpdate | Assets/Script/Bullet/BulletBase.cs:26-35 | the lifetime follows Tick. While lifetime is left, velocity is the normalised direction times speed. A spent, active bullet is released |
| Projectiles.BulletBase.OnTriggerEnter2D | Assets/Script/Bullet/BulletBase.cs:37-62 | does what HitRule decides: nothing, a null reference, a release, or damage to the unit and then a release; the unit is touched only when damaged |
| Projectiles.BulletPool.Get | Assets/Script/Core/Manager/BulletManager.cs:29-42 | an empty pool creates a fresh bullet from the prefab and records it with the manager. Otherwise the last released bullet comes back. Either way it is active under the manager |
| Projectiles.BulletPool.Release | Assets/Script/Core/Manager/BulletManager.cs:43-53 | refuses a bullet already held. Otherwise deactivates it under the released parent, keeping it below the maximum size and destroying it at the maximum |
| Projectiles.BulletManager.InitPool | Assets/Script/Core/Manager/BulletManager.cs:25-55 | an existing pool for the id is returned unchanged; otherwise one empty pool is created and stored under the id |
| Projectiles.BulletManager.SendShootRpc | Assets/Script/Core/Manager/BulletManager.cs:87-88 | one broadcast of the packet is sent |
| Projectiles.BulletManager.SendShootRequest | Assets/Script/Core/Manager/BulletManager.cs:84-85 | one request carrying the packet is sent |
| Projectiles.Pooling | Assets/Script/Bullet/Properties/BulletProperties.cs:26-33 | the object handed out gets these properties |
| Projectiles.ShootFunc | Assets/Script/Core/Manager/BulletManager.cs:59-67 | the bullet gets the asset, start position, team, a rotation facing the target, that rotation's direction and the damage; nothing else changes |
| Projectiles.Shoot | Assets/Script/Core/Manager/BulletManager.cs:69-80 | on the server: an unknown type throws and nothing happens; otherwise one bullet is spawned and one broadcast sent. On a client: only one request is sent |
| Projectiles.ReceiveShootRequest | Assets/Script/Core/Manager/BulletManager.cs:84-85 | the request runs the server side of Shoot |
| Projectiles.ReceiveShootRpc | Assets/Script/Core/Manager/BulletManager.cs:87-93 | ignored where the server runs. Elsewhere it spawns from the registered asset, or throws for an unknown type. Nothing is sent |
| Projectiles.PropertiesShoot | Assets/Script/Bullet/Properties/BulletProperties.cs:35-36 | shoots the packet built from the asset, team and positions (damage 1) |
| Players.MoveDirection | Assets/Script/Unit/Player/PlayerBaseModule.cs:48-51 | a cancelled input stops the player; otherwise the input direction is scaled by the speed |
| Core.ApproxEqualZero | Assets/Script/Unit/Player/PlayerBaseModule.cs:23 | Unity's approximate `==` holds between zero and zero. A vector with a coordinate at least 1e-5 away from zero is never equal to zero |
| Players.NextVelocity | Assets/Script/Unit/Player/PlayerBaseModule.cs:19-25 | a direction that is not zero by Unity's approximate `!=` becomes the velocity; one within the tolerance of zero leaves the velocity as it was |
| Players.TinyDirectionKeepsVelocity | Assets/Script/Unit/Player/PlayerBaseModule.cs:23 | the direction (1e-6, 0) is not exactly zero, yet it leaves the velocity unchanged |
| Players.CancelKeepsVelocity | Assets/Script/Unit/Player/PlayerBaseModule.cs:19-51 | after a cancel, the physics step keeps the previous velocity: releasing the key does not stop the body |
| Players.HeldInputDrivesVelocity | Assets/Script/Unit/Player/PlayerBaseModule.cs:19-51 | a held input whose scaled value has a coordinate at least 1e-5 away from zero sets the velocity to the input times the speed. A zero input or a zero speed keeps the velocity |
| Players.PlayerBaseModule.MoveCommand | Assets/Script/Unit/Player/PlayerBaseModule.cs:48-51 | the stored direction is MoveDirection of the packet at the player's speed |
| Players.PlayerBaseModule.FixedUpdate | Assets/Script/Unit/Player/PlayerBaseModule.cs:19-25 | the velocity becomes NextVelocity of the stored direction, using Unity's approximate zero test |
| Players.PlayerBaseModule.ShootCommand | Assets/Script/Unit/Player/PlayerBaseModule.cs:53-57 | on the server, shoots the player's bullet asset with its team, from its position, at the target, with damage 1 |
| NetServer.PlayerName | Assets/Script/Networking/Server/NetServerManager.cs:20 | "Player" followed by the connection id in decimal |
| NetServer.PlayerNamesDistinct | Assets/Script/Networking/Server/NetServerManager.cs:20 | different connection ids give different default names |
| NetServer.NetServerManager.OnServerAddPlayer | Assets/Script/Networking/Server/NetServerManager.cs:11-24 | the connection maps to a new record with that connection, its default name and the given time; every other entry is kept |
| NetClient.Verdict | Assets/Script/Networking/Client/ClientAccountAuthenticator.cs:56-69 | code 100 accepts; every other code rejects |
| NetClient.ClientAccountAuthenticator.OnClientAuthenticate | Assets/Script/Networking/Client/ClientAccountAuthenticator.cs:39-48 | sends exactly one login packet with the configured username and password |
| NetClient.ClientAccountAuthenticator.OnAuthResponseMessage | Assets/Script/Networking/Client/ClientAccountAuthenticator.cs:54-70 | records one verdict, decided by the response code |
| NetClient.NetClientManager.SetLocalPlayer | Assets/Script/Networking/Client/NetClientManager.cs:18-22 | stores the player and notifies the listeners once with it |
| NetClient.OnStartClient | Assets/Script/Unit/Player/PlayerBaseModule.cs:31-39 | on the server, the player becomes its connection's player object, and a connection without a record throws. On a client, a local player becomes the local player; any other player changes nothing |
| ServerAuth.ResponseFor | Assets/Script/Networking/Server/AccountManager.cs:57-80 | matching credentials get (100, "Success") and anything else (200, "Invalid Credentials") |
| ServerAuth.UnknownUserLikeWrongPassword | Assets/Script/Networking/Server/AccountManager.cs:57 | an unknown user and a wrong password get the same failure response |
| ServerAuth.HandshakeAgrees | Assets/Script/Networking/Server/AccountManager.cs:57-80 | the client accepts exactly when the server found the credentials matching |
| ServerAuth.AccountManager.OnAuthRequestMessage | Assets/Script/Networking/Server/AccountManager.cs:50-90 | a pending connection is ignored. A match sends the success response and accepts. A failure sends the failure response, marks the connection pending and unauthenticated, and starts one delayed disconnect |
| ServerAuth.AccountManager.ResumeDelayedDisconnect | Assets/Script/Networking/Server/AccountManager.cs:92-103 | after the wait the connection is rejected and stays pending. One step later it leaves the pending set and the coroutine ends |
| BuiltinCommands.StatusResponse | Assets/Script/Networking/Server/CommandManager.cs:41-58 | code 100, object data, and the status text with the time and the two-decimal uptime |
| BuiltinCommands.StatusData | Assets/Script/Networking/Server/CommandManager.cs:51-56 | the data says online = true and carries the time and uptime read |
| BuiltinCommands.PingResponse | Assets/Script/Networking/Server/CommandManager.cs:67-74 | code 100, a `timestamp` field equal to the time read, and a message starting "pong " |
| BuiltinCommands.PingMessageCarriesTimestamp | Assets/Script/Networking/Server/CommandManager.cs:69-74 | the digits after "pong " read back as the timestamp in the data |
| BuiltinCommands.ServerInfoResponse | Assets/Script/Networking/Server/CommandManager.cs:100-126 | code 100, an object of seven properties, and the info text: a header line, then one `key: value` line for each property |
| BuiltinCommands.ServerInfoData | Assets/Script/Networking/Server/CommandManager.cs:115-124 | the data carries the fixed server name and each value read |
| BuiltinCommands.HelpResponse | Assets/Script/Networking/Server/CommandManager.cs:85-91 | code 100; the array holds the names in the order given, under the header with one indented line per name |
| BuiltinCommands.BuildHelp | Assets/Script/Networking/Server/CommandManager.cs:85-91 | the loop builds exactly HelpResponse of the names |
| BuiltinCommands.HelpListsEveryCommand | Assets/Script/Networking/Server/CommandManager.cs:85-91 | the help array names every registered command and nothing else, one entry per command |
| BuiltinCommands.SceneJsonFields | Assets/Script/Networking/Server/CommandManager.cs:144-150 | a scene entry carries the scene's name, path, load state and build index |
| BuiltinCommands.ScenesResponse | Assets/Script/Networking/Server/CommandManager.cs:135-156 | code 100, one array entry per scene in scene order, and a header giving the scene count |
| BuiltinCommands.ServerScenes | Assets/Script/Networking/Server/CommandManager.cs:138-156 | the loop over the scene indices builds exactly ScenesResponse of the scenes |
| BuiltinCommands.PlayerJsonFields | Assets/Script/Networking/Server/CommandManager.cs:179-184 | a player entry carries the username, the connection's address and the connection time |
| BuiltinCommands.PlayersResponse | Assets/Script/Networking/Server/CommandManager.cs:172-190 | code 100, one array entry per player in visiting order, and a header giving the player count |
| BuiltinCommands.ServerPlayers | Assets/Script/Networking/Server/CommandManager.cs:165-191 | no server manager gives the 500 response. Otherwise the result is PlayersResponse over the table's values, in an order that visits every connection once |
| BuiltinCommands.ListPlayers | Assets/Script/Networking/Server/CommandManager.cs:176-190 | the foreach loop builds exactly PlayersResponse of the players visited |
| BuiltinCommands.PlayersListEveryEntry | Assets/Script/Networking/Server/CommandManager.cs:172-190 | the listing has as many entries as the table, and every connection's record is among them |
| SocketCommands.Invoke | Assets/Script/Networking/Server/SocketCommandHandler.cs:120 | running a handler gives what that closure computes; `help` lists its handler's current names in some order |
| SocketCommands.Has | Assets/Script/Networking/Server/SocketCommandHandler.cs:73-78 | false for a null or empty name; otherwise whether the name is a key of the table |
| SocketCommands.WithCommand | Assets/Script/Networking/Server/SocketCommandHandler.cs:46-55 | a null or empty name leaves the table unchanged. Otherwise the name is added or replaced, bound to the new handler, and every other entry is kept |
| SocketCommands.WithoutCommand | Assets/Script/Networking/Server/SocketCommandHandler.cs:61-66 | a null or empty name leaves the table unchanged; otherwise only that name goes, and the other entries keep their handlers |
| SocketCommands.RegisterThenHas | Assets/Script/Networking/Server/SocketCommandHandler.cs:46-78 | after registering a name, it is known, and so are all the previously known names and no others |
| SocketCommands.UnregisterUndoesRegister | Assets/Script/Networking/Server/SocketCommandHandler.cs:46-66 | unregistering a name just registered gives the old table without it, and the old table itself when the name was new |
| SocketCommands.UnregisterThenHas | Assets/Script/Networking/Server/SocketCommandHandler.cs:61-78 | after unregistering, the name is unknown and every other name keeps its status |
| SocketCommands.SocketCommandHandler.Reply | Assets/Script/Networking/Server/SocketCommandHandler.cs:134-143 | a response goes out under "command:response" exactly when the socket exists and is connected |
| SocketCommands.SocketCommandHandler.ReplyIdentifiesResponse | Assets/Script/Networking/Server/SocketCommandHandler.cs:142 | on a connected socket, two replies are equal exactly when their responses are: the payload carries the whole response |
| SocketCommands.WrittenPayload | Assets/Script/Networking/Server/SocketCommandHandler.cs:142 | as written, every payload is the class name `PixelCollector.Networking.Server.CommandResponse` |
| SocketCommands.WrittenPayloadLosesResponse | Assets/Script/Networking/Server/SocketCommandHandler.cs:142 | as written, any two responses are sent as the same text, including a success and a server error that differ |
| SocketCommands.SocketCommandHandler.HasCommand | Assets/Script/Networking/Server/SocketCommandHandler.cs:73-78 | false for a null or empty name; otherwise whether the name is registered in the handler's table |
| SocketCommands.SocketCommandHandler.SetSocket | Assets/Script/Networking/Server/SocketCommandHandler.cs:36-39 | stores the socket and keeps the table |
| SocketCommands.SocketCommandHandler.RegisterCommand | Assets/Script/Networking/Server/SocketCommandHandler.cs:46-55 | the table becomes WithCommand of the old one |
| SocketCommands.SocketCommandHandler.UnregisterCommand | Assets/Script/Networking/Server/SocketCommandHandler.cs:61-66 | the table becomes WithoutCommand of the old one |
| SocketCommands.SocketCommandHandler.ClearCommands | Assets/Script/Networking/Server/SocketCommandHandler.cs:148-151 | the table becomes empty; the socket is kept |
| SocketCommands.SocketCommandHandler.GetRegisteredCommands | Assets/Script/Networking/Server/SocketCommandHandler.cs:156-159 | lists every registered name exactly once, in some order |
| SocketCommands.SocketCommandHandler.SendResponse | Assets/Script/Networking/Server/SocketCommandHandler.cs:134-143 | emits the response once if the socket is connected, and otherwise nothing. The response value is the intended payload; see Findings for the text the code sends |
| SocketCommands.SocketCommandHandler.Forward | Assets/Script/Networking/Server/SocketCommandHandler.cs:120-121 | a non-null result is sent unchanged, a null result sends nothing, and an exception escapes with nothing sent |
| SocketCommands.SocketCommandHandler.ExecuteCommand | Assets/Script/Networking/Server/SocketCommandHandler.cs:109-128 | an empty command sends one 500 response, and an unknown one sends one 404 naming it. A registered one runs its own handler once and forwards the result; an exception escapes |
| SocketCommands.SocketCommandHandler.HandleCommand | Assets/Script/Networking/Server/SocketCommandHandler.cs:84-103 | a decoding failure, or an exception from the handler, sends one 500 response carrying the exception's message. Otherwise it behaves as ExecuteCommand |
| CommandManager.DefaultsRegistered | Assets/Script/Networking/Server/CommandManager.cs:28-33 | exactly the six built-in names are added, each bound to its own handler, and every other command keeps its handler |
| CommandManager.HelpListsDefaults | Assets/Script/Networking/Server/CommandManager.cs:83-91 | once the defaults are registered, `help` lists all six names among as many names as there are commands |
| CommandManager.RegisterDefaultCommands | Assets/Script/Networking/Server/CommandManager.cs:20-34 | a null handler changes nothing; otherwise its table gets the six built-in commands and its socket is kept |
| CommandManager.RegisterStatusCommand | Assets/Script/Networking/Server/CommandManager.cs:39-41 | registers `status` |
| CommandManager.RegisterPingCommand | Assets/Script/Networking/Server/CommandManager.cs:65-67 | registers `ping` |
| CommandManager.RegisterHelpCommand | Assets/Script/Networking/Server/CommandManager.cs:81-83 | registers `help`, which reads the same handler it is registered on |
| CommandManager.RegisterServerInfoCommand | Assets/Script/Networking/Server/CommandManager.cs:98-100 | registers `server:info` |
| CommandManager.RegisterServerScenesCommand | Assets/Script/Networking/Server/CommandManager.cs:133-135 | registers `server:scenes` |
| CommandManager.RegisterServerPlayersCommand | Assets/Script/Networking/Server/CommandManager.cs:163-165 | registers `server:players` with the given server manager |

## Findings

| source | as written | input that shows it | evidently intended | confidence | as-written member | corrected member |
|---|---|---|---|---|---|---|
| Assets/Script/Networking/Server/SocketCommandHandler.cs:142 | `socket.Emit("command:response", response.ToString())`. `CommandResponse` (CommandTypes.cs:32-50) does not override `ToString`, so the payload is always `PixelCollector.Networking.Server.CommandResponse` | any response, e.g. `Success("pong 0")` and `ServerError("pong 0")` are sent as the same text | the response's contents reach the console: its `code`, `message` and `data`, as the `JsonProperty` names on the class suggest | high; not executed | SocketCommands.WrittenPayloadLosesResponse | SocketCommands.SocketCommandHandler.ReplyIdentifiesResponse |

## Left out

- **Mirror's library code.** `NetworkWriter`, `NetworkReader` and
  `NetworkConnectionToClient` are not part of this model. The writer is a
  list of typed tokens and the reader a position into one. The byte layout
  and the message ids on the wire are not modelled.
- **Reader position after a failure.** A packet read that fails partway
  leaves the reader where the failing read left it. Only success states
  the final position.
- **Floats.** Floats are modelled as reals: rounding and `NaN` are not
  captured.
- NextVelocity: Unity's `Vector2 !=` is modelled with its tolerance
  (squared distance below 1e-10). The float rounding of that squared
  distance and of `kEpsilon * kEpsilon` is not modelled.
- **Built-in commands' environment.** The values the commands read from
  the engine and the clock are inputs. So are the texts the code formats
  from them: the two-decimal uptime and the server time's round-trip
  text.
- **The socket.** Connection plumbing (connect, emit threads, dispose in
  `ServerManagement`) is left out.
- SendResponse: the code emits `response.ToString()`. `CommandResponse`
  does not override `ToString`, so the text sent is always the class name
  (see Findings). The model's `SendResponse` records the intended payload:
  the response value itself, not its JSON serialisation.
- **JSON decoding in `HandleCommand`.** It is given as its outcome (the
  request, or the exception's message). Only the exception's message is
  kept.
- **Custom handlers.** A handler that is not one of the six built-ins is a
  function of the request. It does not see the socket. A null delegate
  (which would throw when invoked) is not modelled.
- **Command descriptions.** The strings passed with each built-in command
  are not stored, because the handler has no place for them.
- **Logging.** `Debug.Log`, `LogWarning` and `LogError` calls have no
  effect in the model.
- **Engine call-backs.**
  - `base.OnServerAddPlayer`, `base.OnStartClient` and the other Mirror
    base-class calls are outside this model.
  - So is Mirror's `ServerAccept`/`ServerReject`/`ClientAccept`/
    `ClientReject`: the model records that they were called.
- **Asynchronous asset loading.** Addressables loading is collapsed into
  one call. It runs the per-asset call-back for each delivered asset, in
  delivery order. The editor-only copy into `GameManager` is left out.
- **Physics, input and time.**
  - Rigidbody2D physics is not modelled: the velocity is a field.
  - The input-system callback that builds a `MovePacket` is left out; the
    packet is given.
  - Unity's frame clock is given as each tick's duration.
- **Colliders.** Only `UnitBaseModule` and `PlayerBaseModule` are
  damageable here. Other `IDamageable` implementations are not part of
  this model. The `sender` argument of `Damage` is dropped, because the
  unit ignores it.
- **Two kinds of pool.** `PooledObject.pool` is declared as a pool of
  `PooledObject`, while the manager's pools hold `BulletBase`. Both are
  modelled as the same `BulletPool`. A bullet made by `InitPool`'s create
  call-back has no `pool` set, exactly as the code leaves it.
- TeamNamed: the `Team` class and `Team.Get` are not part of this model.
  The teams named in the code are Player, Enemy and None (`IAttacker.cs:9-10`,
  `UnitBaseModule.cs:15`). A team is modelled as
  its name, so `Team.Get` is taken to return the team carrying the given
  name. What `Team.Get` does with an unknown name (perhaps returning
  `Team.None`) is not captured. Bullets shot from a packet carry
  `TeamNamed(teamName)` under this assumption.
- **Singletons and scene set-up.** `NetworkSingleton`, `GameManager`,
  `FieldSystem`, `GameLoader`, `MainThreadDispatcher` and the field
  controller are not part of this model. `NetClientManager` is modelled
  only for its `LocalPlayer` setter.
