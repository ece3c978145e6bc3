/** The client side: `ClientAccountAuthenticator`, the `LocalPlayer` slot
    of `NetClientManager`, and `PlayerBaseModule.OnStartClient`, which
    links a spawned player to either. */
module NetClient {
  import opened Wrappers
  import opened Core
  import opened Transport
  import opened Packets
  import opened Players
  import opened NetServer

  /** The code with which the server accepts a login. */
  const AcceptCode := 100

  /** What the client authenticator does with a response. */
  datatype ClientVerdict = ClientAccept | ClientReject

  /** Exactly code 100 is an acceptance; any other code, including the
      server's 200, is a rejection. */
  function Verdict(code: int): (v: ClientVerdict)
    ensures v == ClientAccept <==> code == AcceptCode
    ensures v == ClientReject <==> code != AcceptCode
  {
    if code == AcceptCode then ClientAccept else ClientReject
  }

  class ClientAccountAuthenticator {
    var username: string
    var password: string
    /** The login requests sent to the server. */
    var sent: seq<AuthPacket>
    /** The `ClientAccept`/`ClientReject` calls made. */
    var verdicts: seq<ClientVerdict>

    constructor (username: string, password: string)
      ensures this.username == username && this.password == password && sent == [] && verdicts == []
    {
      this.username := username;
      this.password := password;
      sent := [];
      verdicts := [];
    }

    /** `OnClientAuthenticate`: one request with the stored credentials. */
    method OnClientAuthenticate()
      modifies this`sent
      ensures sent == old(sent) + [AuthPacket(username, password)]
    {
      sent := sent + [AuthPacket(username, password)];
    }

    /** `OnAuthResponseMessage`: exactly one of accept or reject. */
    method OnAuthResponseMessage(msg: AuthResponseMessage)
      modifies this`verdicts
      ensures verdicts == old(verdicts) + [Verdict(msg.code)]
    {
      if msg.code == AcceptCode {
        verdicts := verdicts + [ClientAccept];
      } else {
        verdicts := verdicts + [ClientReject];
      }
    }
  }

  class NetClientManager {
    var localPlayer: PlayerBaseModule?
    /** The values `OnPlayerChanged` was raised with. */
    var playerChanged: seq<PlayerBaseModule?>

    constructor ()
      ensures localPlayer == null && playerChanged == []
    {
      localPlayer := null;
      playerChanged := [];
    }

    /** The `LocalPlayer` setter: stores the player and raises
        `OnPlayerChanged` with it. */
    method SetLocalPlayer(player: PlayerBaseModule?)
      modifies this
      ensures localPlayer == player && playerChanged == old(playerChanged) + [player]
    {
      localPlayer := player;
      playerChanged := playerChanged + [player];
    }
  }

  /** `PlayerBaseModule.OnStartClient`. Where the server runs, the player
      becomes its connection's `playerObject`; the record is looked up in
      the server's table, and a connection without one leaves nothing to
      assign to. Elsewhere the local player becomes `LocalPlayer`; any
      other player changes nothing. */
  method OnStartClient(player: PlayerBaseModule, serverActive: bool, server: NetServerManager, client: NetClientManager)
    returns (o: Outcome<Exception>)
    modifies if serverActive && player.connectionToClient in server.players then {server.players[player.connectionToClient]} else {}
    modifies client
    ensures serverActive && player.connectionToClient in server.players ==>
      o == Pass && server.players[player.connectionToClient].playerObject == player && unchanged(client)
    ensures serverActive && player.connectionToClient !in server.players ==>
      o == Fail(NullReferenceException) && unchanged(client)
    ensures !serverActive && player.isLocalPlayer ==>
      o == Pass && client.localPlayer == player && client.playerChanged == old(client.playerChanged) + [player]
    ensures !serverActive && !player.isLocalPlayer ==> o == Pass && unchanged(client)
  {
    if serverActive {
      if player.connectionToClient in server.players {
        server.players[player.connectionToClient].playerObject := player;
        o := Pass;
      } else {
        o := Fail(NullReferenceException);
      }
    } else if player.isLocalPlayer {
      client.SetLocalPlayer(player);
      o := Pass;
    } else {
      o := Pass;
    }
  }
}
