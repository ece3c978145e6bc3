/** `CommandManager`: registers the six built-in operator commands on a
    `SocketCommandHandler`. */
module CommandManager {
  import opened Wrappers
  import opened Collections
  import opened Json
  import opened CommandTypes
  import opened NetServer
  import opened BuiltinCommands
  import opened SocketCommands

  /** The names of the built-in commands. */
  const DefaultNames: set<string> := {"status", "ping", "help", "server:info", "server:scenes", "server:players"}

  /** The table after the six registrations, in the order
      `RegisterDefaultCommands` makes them. The `help` closure reads the
      handler it is registered on, and `server:players` the server
      manager it was given. */
  function WithDefaults(table: map<string, Handler>, registry: SocketCommandHandler, serverManager: NetServerManager?): map<string, Handler>
  {
    var t1 := WithCommand(table, Some("status"), StatusCommand);
    var t2 := WithCommand(t1, Some("ping"), PingCommand);
    var t3 := WithCommand(t2, Some("help"), HelpCommand(registry));
    var t4 := WithCommand(t3, Some("server:info"), ServerInfoCommand);
    var t5 := WithCommand(t4, Some("server:scenes"), ServerScenesCommand);
    WithCommand(t5, Some("server:players"), ServerPlayersCommand(serverManager))
  }

  /** Exactly the six built-in names are added, each bound to its own
      handler, and every other command keeps its handler. */
  lemma DefaultsRegistered(table: map<string, Handler>, registry: SocketCommandHandler, serverManager: NetServerManager?)
    ensures WithDefaults(table, registry, serverManager).Keys == table.Keys + DefaultNames
    ensures WithDefaults(table, registry, serverManager)["status"] == StatusCommand
    ensures WithDefaults(table, registry, serverManager)["ping"] == PingCommand
    ensures WithDefaults(table, registry, serverManager)["help"] == HelpCommand(registry)
    ensures WithDefaults(table, registry, serverManager)["server:info"] == ServerInfoCommand
    ensures WithDefaults(table, registry, serverManager)["server:scenes"] == ServerScenesCommand
    ensures WithDefaults(table, registry, serverManager)["server:players"] == ServerPlayersCommand(serverManager)
    ensures forall k :: k in table && k !in DefaultNames ==> WithDefaults(table, registry, serverManager)[k] == table[k]
  {
  }

  /** Once the defaults are registered on a handler, `help` run on that
      handler lists all six built-in names, and as many names as there are
      commands. */
  lemma HelpListsDefaults(table: map<string, Handler>, registry: SocketCommandHandler, serverManager: NetServerManager?,
                          names: seq<string>)
    requires IsEnumeration(names, WithDefaults(table, registry, serverManager).Keys)
    ensures forall c :: c in DefaultNames ==> JString(c) in HelpResponse(names).data.items
    ensures |HelpResponse(names).data.items| == |table.Keys + DefaultNames|
  {
    DefaultsRegistered(table, registry, serverManager);
    HelpListsEveryCommand(names, WithDefaults(table, registry, serverManager).Keys);
  }

  method RegisterDefaultCommands(handler: SocketCommandHandler?, serverManager: NetServerManager?)
    modifies if handler != null then {handler} else {}
    ensures handler != null ==>
      handler.commandHandlers == WithDefaults(old(handler.commandHandlers), handler, serverManager) &&
      handler.socket == old(handler.socket)
  {
    if handler == null {
      return;
    }
    RegisterStatusCommand(handler);
    RegisterPingCommand(handler);
    RegisterHelpCommand(handler);
    RegisterServerInfoCommand(handler);
    RegisterServerScenesCommand(handler);
    RegisterServerPlayersCommand(handler, serverManager);
  }

  method RegisterStatusCommand(handler: SocketCommandHandler)
    modifies handler
    ensures handler.commandHandlers == WithCommand(old(handler.commandHandlers), Some("status"), StatusCommand)
    ensures handler.socket == old(handler.socket)
  {
    handler.RegisterCommand(Some("status"), StatusCommand);
  }

  method RegisterPingCommand(handler: SocketCommandHandler)
    modifies handler
    ensures handler.commandHandlers == WithCommand(old(handler.commandHandlers), Some("ping"), PingCommand)
    ensures handler.socket == old(handler.socket)
  {
    handler.RegisterCommand(Some("ping"), PingCommand);
  }

  method RegisterHelpCommand(handler: SocketCommandHandler)
    modifies handler
    ensures handler.commandHandlers == WithCommand(old(handler.commandHandlers), Some("help"), HelpCommand(handler))
    ensures handler.socket == old(handler.socket)
  {
    handler.RegisterCommand(Some("help"), HelpCommand(handler));
  }

  method RegisterServerInfoCommand(handler: SocketCommandHandler)
    modifies handler
    ensures handler.commandHandlers == WithCommand(old(handler.commandHandlers), Some("server:info"), ServerInfoCommand)
    ensures handler.socket == old(handler.socket)
  {
    handler.RegisterCommand(Some("server:info"), ServerInfoCommand);
  }

  method RegisterServerScenesCommand(handler: SocketCommandHandler)
    modifies handler
    ensures handler.commandHandlers == WithCommand(old(handler.commandHandlers), Some("server:scenes"), ServerScenesCommand)
    ensures handler.socket == old(handler.socket)
  {
    handler.RegisterCommand(Some("server:scenes"), ServerScenesCommand);
  }

  method RegisterServerPlayersCommand(handler: SocketCommandHandler, serverManager: NetServerManager?)
    modifies handler
    ensures handler.commandHandlers == WithCommand(old(handler.commandHandlers), Some("server:players"), ServerPlayersCommand(serverManager))
    ensures handler.socket == old(handler.socket)
  {
    handler.RegisterCommand(Some("server:players"), ServerPlayersCommand(serverManager));
  }
}
