/** `NetServerManager`: the server's table of connected players. */
module NetServer {
  import opened Text
  import opened Transport
  import opened Players

  /** `System.DateTime`, an instant read from the clock outside this
      model, given by its round-trip ("o") text. */
  datatype DateTime = DateTime(roundTrip: string)

  /** The name a player gets: "Player" followed by the decimal connection
      id. */
  function PlayerName(connectionId: int): (name: string)
    ensures |name| > 6 && name[..6] == "Player" && name[6..] == IntToString(connectionId)
  {
    "Player" + IntToString(connectionId)
  }

  /** Different connections give their players different names. */
  lemma PlayerNamesDistinct(a: int, b: int)
    ensures PlayerName(a) == PlayerName(b) ==> a == b
  {
    if PlayerName(a) == PlayerName(b) {
      assert IntToString(a) == PlayerName(a)[6..];
      IntToStringInjective(a, b);
    }
  }

  /** `NetworkPlayer`, a record of one connection. */
  class NetworkPlayer {
    var conn: Connection
    var username: string
    var connectedAt: DateTime
    var playerObject: PlayerBaseModule?

    constructor (conn: Connection, username: string, connectedAt: DateTime)
      ensures this.conn == conn && this.username == username && this.connectedAt == connectedAt
      ensures playerObject == null
    {
      this.conn := conn;
      this.username := username;
      this.connectedAt := connectedAt;
      playerObject := null;
    }
  }

  class NetServerManager {
    /** Keyed by connection object; nothing in this class removes an
        entry. */
    var players: map<Connection, NetworkPlayer>

    constructor ()
      ensures players == map[]
    {
      players := map[];
    }

    /** `OnServerAddPlayer(conn)` at time `now`: a new record for the
        connection replaces any earlier one; every other entry stays. */
    method OnServerAddPlayer(conn: Connection, now: DateTime)
      modifies this`players
      ensures players.Keys == old(players).Keys + {conn}
      ensures fresh(players[conn])
      ensures players[conn].conn == conn && players[conn].username == PlayerName(conn.connectionId)
      ensures players[conn].connectedAt == now && players[conn].playerObject == null
      ensures forall c :: c in old(players) && c != conn ==> players[c] == old(players)[c]
    {
      var player := new NetworkPlayer(conn, "Player" + IntToString(conn.connectionId), now);
      players := players[conn := player];
    }
  }
}
