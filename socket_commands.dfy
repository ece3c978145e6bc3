/** `SocketCommandHandler`: the operator console's name-to-handler table and
    its three-way dispatch (empty name, unknown name, registered name), with
    responses emitted on a socket that may be missing or disconnected. */
module SocketCommands {
  import opened Wrappers
  import opened Text
  import opened Collections
  import opened Json
  import opened CommandTypes
  import opened Transport
  import opened NetServer
  import opened BuiltinCommands

  /** The event name every response is emitted under. */
  const ResponseEvent := "command:response"
  const EmptyCommandMessage := "명령어(cmd)가 비어있습니다."
  /** Text that precedes an exception's message in the response
      `HandleCommand` sends for it. */
  const HandlingErrorPrefix := "명령어 처리 중 오류 발생: "

  /** One `Emit(event, payload)` on the socket. */
  datatype Emission = Emission(event: string, payload: CommandResponse)

  /** What `Object.ToString()` gives for a `CommandResponse`, a class that
      does not override it: the class's full name. */
  const ResponseTypeName := "PixelCollector.Networking.Server.CommandResponse"

  /** The payload `SendResponse` passes to `Emit` as the code is written:
      `response.ToString()`, the same text for every response. */
  function WrittenPayload(response: CommandResponse): (text: string)
    ensures text == ResponseTypeName
  {
    ResponseTypeName
  }

  /** As written, the console cannot tell one response from another: a
      success and a server error are sent as the same text, which carries
      no code, message or data. */
  lemma WrittenPayloadLosesResponse(r1: CommandResponse, r2: CommandResponse)
    ensures WrittenPayload(r1) == WrittenPayload(r2)
    ensures Success("pong 0") != ServerError("pong 0")
    ensures WrittenPayload(Success("pong 0")) == WrittenPayload(ServerError("pong 0"))
  {
  }

  /** The socket.io client: whether it is connected and what has been
      emitted on it so far. */
  class Socket {
    var connected: bool
    var emitted: seq<Emission>

    constructor(connected: bool)
      ensures this.connected == connected && emitted == []
    {
      this.connected := connected;
      emitted := [];
    }
  }

  /** What invoking a handler gives: a response, possibly null (`None`), or
      an exception with its message. */
  datatype HandlerOutcome = Returned(response: Option<CommandResponse>) | Threw(message: string)

  /** A `CommandHandler` delegate: one constructor for each closure the
      built-in commands register (capturing what the closure captures), and
      `Custom` for any other delegate, given as a function of the request. */
  datatype Handler =
    | StatusCommand
    | PingCommand
    | HelpCommand(registry: SocketCommandHandler)
    | ServerInfoCommand
    | ServerScenesCommand
    | ServerPlayersCommand(serverManager: NetServerManager?)
    | Custom(run: CommandData -> HandlerOutcome)

  /** The objects a handler reads when it runs. */
  function HandlerReads(h: Handler): set<object>
    reads if h.ServerPlayersCommand? && h.serverManager != null then {h.serverManager} else {}
  {
    match h
    case HelpCommand(registry) => {registry}
    case ServerPlayersCommand(sm) =>
      if sm == null then {} else {sm} + set c | c in sm.players :: sm.players[c]
    case _ => {}
  }

  /** `h` run on `cmd` in the environment `env` gives `o`, when a `foreach`
      over a dictionary it reads visits `names` (the help registry's keys)
      or `order` (the player table's keys); a handler that visits no such
      dictionary has both empty. */
  ghost predicate ProducesWith(h: Handler, cmd: CommandData, env: Environment,
                               names: seq<string>, order: seq<Connection>, o: HandlerOutcome)
    reads if h.ServerPlayersCommand? && h.serverManager != null then {h.serverManager} else {}
    reads HandlerReads(h)
  {
    (names == [] || h.HelpCommand?) &&
    (order == [] || (h.ServerPlayersCommand? && h.serverManager != null)) &&
    match h
    case StatusCommand => o == Returned(Some(StatusResponse(env)))
    case PingCommand => o == Returned(Some(PingResponse(env)))
    case HelpCommand(registry) =>
      IsEnumeration(names, registry.commandHandlers.Keys) && o == Returned(Some(HelpResponse(names)))
    case ServerInfoCommand => o == Returned(Some(ServerInfoResponse(env)))
    case ServerScenesCommand => o == Returned(Some(ScenesResponse(env.scenes)))
    case ServerPlayersCommand(sm) =>
      if sm == null then o == Returned(Some(ServerError(NoServerManagerMessage)))
      else
        IsEnumeration(order, sm.players.Keys) &&
        o == Returned(Some(PlayersResponse(ValuesInOrder(sm.players, order))))
    case Custom(run) => o == run(cmd)
  }

  /** `handler.Invoke(socket, cmd)`; `names` and `order` report the orders
      in which a dictionary read by the handler was visited. */
  method Invoke(h: Handler, cmd: CommandData, env: Environment)
    returns (o: HandlerOutcome, ghost names: seq<string>, ghost order: seq<Connection>)
    ensures ProducesWith(h, cmd, env, names, order, o)
  {
    match h
    case StatusCommand =>
      o := Returned(Some(StatusResponse(env)));
      names, order := [], [];
    case PingCommand =>
      o := Returned(Some(PingResponse(env)));
      names, order := [], [];
    case HelpCommand(registry) =>
      var listed := registry.GetRegisteredCommands();
      var r := BuildHelp(listed);
      names := listed;
      o := Returned(Some(r));
      order := [];
    case ServerInfoCommand =>
      o := Returned(Some(ServerInfoResponse(env)));
      names, order := [], [];
    case ServerScenesCommand =>
      var r := ServerScenes(env.scenes);
      o := Returned(Some(r));
      names, order := [], [];
    case ServerPlayersCommand(sm) =>
      var r, visited := ServerPlayers(sm);
      o := Returned(Some(r));
      names, order := [], visited;
    case Custom(run) =>
      o := run(cmd);
      names, order := [], [];
  }

  /** `HasCommand`: false for a null or empty name, otherwise whether the
      name is a key of the table. */
  function Has(table: map<string, Handler>, command: Option<string>): (r: bool)
    ensures IsNullOrEmpty(command) ==> !r
    ensures !IsNullOrEmpty(command) ==> (r <==> command.value in table)
  {
    !IsNullOrEmpty(command) && command.value in table
  }

  /** The table after `RegisterCommand(command, h)`. */
  function WithCommand(table: map<string, Handler>, command: Option<string>, h: Handler): (t: map<string, Handler>)
    ensures IsNullOrEmpty(command) ==> t == table
    ensures !IsNullOrEmpty(command) ==> t.Keys == table.Keys + {command.value} && t[command.value] == h
    ensures forall k :: k in table && (IsNullOrEmpty(command) || k != command.value) ==> k in t && t[k] == table[k]
  {
    if IsNullOrEmpty(command) then table else table[command.value := h]
  }

  /** The table after `UnregisterCommand(command)`. */
  function WithoutCommand(table: map<string, Handler>, command: Option<string>): (t: map<string, Handler>)
    ensures IsNullOrEmpty(command) ==> t == table
    ensures !IsNullOrEmpty(command) ==> t.Keys == table.Keys - {command.value}
    ensures forall k :: k in t ==> t[k] == table[k]
  {
    if IsNullOrEmpty(command) then table else table - {command.value}
  }

  /** After registering a non-empty name, exactly that name and the old
      ones are known. */
  lemma RegisterThenHas(table: map<string, Handler>, command: Option<string>, h: Handler, other: Option<string>)
    requires !IsNullOrEmpty(command)
    ensures Has(WithCommand(table, command, h), command)
    ensures Has(WithCommand(table, command, h), other) <==> other == command || Has(table, other)
  {
  }

  /** Unregistering undoes registering: the table is the old one without
      that name, and an absent name was never there to begin with. */
  lemma UnregisterUndoesRegister(table: map<string, Handler>, command: Option<string>, h: Handler)
    ensures WithoutCommand(WithCommand(table, command, h), command) == WithoutCommand(table, command)
    ensures !Has(table, command) ==> WithoutCommand(WithCommand(table, command, h), command) == table
  {
  }

  /** After unregistering, the name is unknown and all others keep their
      status. */
  lemma UnregisterThenHas(table: map<string, Handler>, command: Option<string>, other: Option<string>)
    ensures !Has(WithoutCommand(table, command), command)
    ensures other != command ==> (Has(WithoutCommand(table, command), other) <==> Has(table, other))
  {
  }

  /** The dispatcher: the registered handlers and the socket responses go
      to. */
  class SocketCommandHandler {
    var commandHandlers: map<string, Handler>
    var socket: Socket?

    constructor()
      ensures commandHandlers == map[] && socket == null
    {
      commandHandlers := map[];
      socket := null;
    }

    /** Everything emitted so far; nothing when there is no socket. */
    function Log(): seq<Emission>
      reads this, socket
    {
      if socket == null then [] else socket.emitted
    }

    /** What `SendResponse(r)` emits: `r` under the response event, or
        nothing when the socket is missing or disconnected. */
    function Reply(r: CommandResponse): (e: seq<Emission>)
      reads this, socket
      ensures e != [] <==> socket != null && socket.connected
      ensures e != [] ==> e == [Emission(ResponseEvent, r)]
    {
      if socket != null && socket.connected then [Emission(ResponseEvent, r)] else []
    }

    /** The reply carries the response itself, so on a connected socket
        two replies are equal exactly when the responses are. */
    lemma ReplyIdentifiesResponse(r1: CommandResponse, r2: CommandResponse)
      requires socket != null && socket.connected
      ensures Reply(r1) == Reply(r2) <==> r1 == r2
    {
      assert Reply(r1)[0].payload == r1 && Reply(r2)[0].payload == r2;
    }

    method SetSocket(socketInstance: Socket?)
      modifies this
      ensures socket == socketInstance && commandHandlers == old(commandHandlers)
    {
      socket := socketInstance;
    }

    function HasCommand(command: Option<string>): (r: bool)
      reads this
      ensures IsNullOrEmpty(command) ==> !r
      ensures !IsNullOrEmpty(command) ==> (r <==> command.value in commandHandlers)
    {
      Has(commandHandlers, command)
    }

    method RegisterCommand(command: Option<string>, handler: Handler)
      modifies this
      ensures commandHandlers == WithCommand(old(commandHandlers), command, handler)
      ensures socket == old(socket)
    {
      if IsNullOrEmpty(command) {
        return;
      }
      commandHandlers := commandHandlers[command.value := handler];
    }

    method UnregisterCommand(command: Option<string>)
      modifies this
      ensures commandHandlers == WithoutCommand(old(commandHandlers), command)
      ensures socket == old(socket)
    {
      if IsNullOrEmpty(command) {
        return;
      }
      commandHandlers := commandHandlers - {command.value};
    }

    method ClearCommands()
      modifies this
      ensures commandHandlers == map[] && socket == old(socket)
    {
      commandHandlers := map[];
    }

    /** The registered names, in the dictionary's (unspecified) order. */
    method GetRegisteredCommands() returns (names: seq<string>)
      ensures IsEnumeration(names, commandHandlers.Keys)
    {
      names := Enumerate(commandHandlers.Keys);
    }

    method SendResponse(response: CommandResponse)
      modifies socket
      ensures Log() == old(Log()) + old(Reply(response))
      ensures socket != null ==> socket.connected == old(socket.connected)
    {
      if socket == null || !socket.connected {
        return;
      }
      socket.emitted := socket.emitted + [Emission(ResponseEvent, response)];
    }

    /** What was sent once the handler gave `ho`: a response
        that is not null is sent as it is, a null one sends nothing, and an
        exception escapes with nothing sent. */
    ghost predicate Completed(ho: HandlerOutcome, o: Outcome<string>, before: seq<Emission>)
      reads this, socket
    {
      match ho
      case Returned(r) => o == Pass && Log() == before + (if r.Some? then Reply(r.value) else [])
      case Threw(m) => o == Fail(m) && Log() == before
    }

    /** The end of `ExecuteCommand` once the handler has run: a response
        that is not null is sent, and an exception is passed on. */
    method Forward(outcome: HandlerOutcome) returns (o: Outcome<string>)
      modifies socket
      ensures socket != null ==> socket.connected == old(socket.connected)
      ensures Completed(outcome, o, old(Log()))
    {
      match outcome {
        case Returned(response) =>
          if response.Some? {
            SendResponse(response.value);
          }
          o := Pass;
        case Threw(message) =>
          o := Fail(message);
      }
    }

    /** `ExecuteCommand(cmd)`; an exception a handler throws comes back as
        `Fail` with its message. */
    method ExecuteCommand(cmd: CommandData, env: Environment)
      returns (o: Outcome<string>, ghost ho: HandlerOutcome, ghost names: seq<string>, ghost order: seq<Connection>)
      modifies socket
      ensures socket != null ==> socket.connected == old(socket.connected)
      ensures IsNullOrEmpty(cmd.cmd) ==>
        o == Pass && Log() == old(Log()) + old(Reply(ServerError(EmptyCommandMessage)))
      ensures !IsNullOrEmpty(cmd.cmd) && cmd.cmd.value !in commandHandlers ==>
        o == Pass && Log() == old(Log()) + old(Reply(NotFound(cmd.cmd.value)))
      ensures old(allocated(order))
      ensures Has(commandHandlers, cmd.cmd) ==>
        old(ProducesWith(commandHandlers[cmd.cmd.value], cmd, env, names, order, ho)) && Completed(ho, o, old(Log()))
    {
      if IsNullOrEmpty(cmd.cmd) {
        SendResponse(ServerError(EmptyCommandMessage));
        return Pass, Returned(None), [], [];
      }
      var name := cmd.cmd.value;
      if name in commandHandlers {
        var handler := commandHandlers[name];
        var outcome;
        outcome, names, order := Invoke(handler, cmd, env);
        ho := outcome;
        if handler.ServerPlayersCommand? && handler.serverManager != null {
          assert forall i :: 0 <= i < |order| ==> order[i] in old(handler.serverManager.players);
        }
        o := Forward(outcome);
      } else {
        SendResponse(NotFound(name));
        o, ho, names, order := Pass, Returned(None), [], [];
      }
    }

    /** `HandleCommand(response)`: `request` is the decoded `{cmd, data}`
        or the message of the exception decoding threw. Any exception,
        from decoding or from the handler, is answered with one server
        error carrying its message. */
    method HandleCommand(request: Result<CommandData, string>, env: Environment)
      returns (ghost ho: HandlerOutcome, ghost names: seq<string>, ghost order: seq<Connection>)
      modifies socket
      ensures request.Err? ==>
        Log() == old(Log()) + old(Reply(ServerError(HandlingErrorPrefix + request.error)))
      ensures request.Ok? && IsNullOrEmpty(request.value.cmd) ==>
        Log() == old(Log()) + old(Reply(ServerError(EmptyCommandMessage)))
      ensures request.Ok? && !IsNullOrEmpty(request.value.cmd) && request.value.cmd.value !in commandHandlers ==>
        Log() == old(Log()) + old(Reply(NotFound(request.value.cmd.value)))
      ensures old(allocated(order))
      ensures request.Ok? && Has(commandHandlers, request.value.cmd) ==>
        old(ProducesWith(commandHandlers[request.value.cmd.value], request.value, env, names, order, ho)) && Handled(ho, old(Log()))
    {
      if request.Err? {
        SendResponse(ServerError(HandlingErrorPrefix + request.error));
        return Returned(None), [], [];
      }
      var o;
      o, ho, names, order := ExecuteCommand(request.value, env);
      if o.Fail? {
        SendResponse(ServerError(HandlingErrorPrefix + o.error));
      }
    }

    /** What was sent once the handler gave `ho` inside `HandleCommand`:
        its response, nothing for a null one, or one server error for an
        exception. */
    ghost predicate Handled(ho: HandlerOutcome, before: seq<Emission>)
      reads this, socket
    {
      match ho
      case Returned(r) => Log() == before + (if r.Some? then Reply(r.value) else [])
      case Threw(m) => Log() == before + Reply(ServerError(HandlingErrorPrefix + m))
    }
  }
}
