/** `AccountManager`, the server's authenticator: it checks a login
    against its accounts, accepts it, or answers with a failure and
    disconnects the client a second later. */
module ServerAuth {
  import opened Transport
  import opened Packets
  import opened NetClient

  const SuccessResponse := AuthResponseMessage(100, "Success")
  const FailureResponse := AuthResponseMessage(200, "Invalid Credentials")
  /** The delay, in seconds, before a failed login is disconnected. */
  const DisconnectDelay := 1.0

  /** The login names an account whose stored password equals the one
      given. */
  predicate CredentialsMatch(accounts: map<string, string>, msg: AuthPacket)
  {
    msg.username in accounts && accounts[msg.username] == msg.password
  }

  /** The response a login that is not ignored gets. */
  function ResponseFor(accounts: map<string, string>, msg: AuthPacket): (r: AuthResponseMessage)
    ensures CredentialsMatch(accounts, msg) ==> r == SuccessResponse
    ensures !CredentialsMatch(accounts, msg) ==> r == FailureResponse
  {
    if CredentialsMatch(accounts, msg) then SuccessResponse else FailureResponse
  }

  /** An unknown name is answered exactly like a wrong password. */
  lemma UnknownUserLikeWrongPassword(accounts: map<string, string>, unknown: AuthPacket, wrong: AuthPacket)
    requires unknown.username !in accounts
    requires wrong.username in accounts && accounts[wrong.username] != wrong.password
    ensures ResponseFor(accounts, unknown) == ResponseFor(accounts, wrong) == FailureResponse
  {
  }

  /** Client and server agree: the client accepts the server's answer
      exactly when the credentials match an account. */
  lemma HandshakeAgrees(accounts: map<string, string>, msg: AuthPacket)
    ensures Verdict(ResponseFor(accounts, msg).code) == ClientAccept <==> CredentialsMatch(accounts, msg)
    ensures Verdict(ResponseFor(accounts, msg).code) == ClientReject <==> !CredentialsMatch(accounts, msg)
  {
  }

  /** What the authenticator has done: a message sent, `ServerAccept` or
      `ServerReject`. */
  datatype ServerAction =
    | Sent(conn: Connection, response: AuthResponseMessage)
    | Accepted(conn: Connection)
    | Rejected(conn: Connection)

  /** A running `DelayedDisconnect` coroutine: waiting out its delay, or
      past the reject and waiting one frame. */
  datatype Stage = Waiting | AfterReject
  datatype DelayedDisconnect = DelayedDisconnect(conn: Connection, waitTime: real, stage: Stage)

  /** The connections the given coroutines disconnect. */
  function Conns(coroutines: seq<DelayedDisconnect>): set<Connection>
  {
    set i | 0 <= i < |coroutines| :: coroutines[i].conn
  }

  lemma ConnsSnoc(coroutines: seq<DelayedDisconnect>, d: DelayedDisconnect)
    ensures Conns(coroutines + [d]) == Conns(coroutines) + {d.conn}
  {
    var cs := coroutines + [d];
    assert cs[|coroutines|].conn == d.conn;
    forall c | c in Conns(coroutines)
      ensures c in Conns(cs)
    {
      var i :| 0 <= i < |coroutines| && coroutines[i].conn == c;
      assert cs[i].conn == c;
    }
  }

  class AccountManager {
    var pending: set<Connection>
    var accounts: map<string, string>
    var actions: seq<ServerAction>
    var coroutines: seq<DelayedDisconnect>

    /** A connection is pending disconnect exactly while one coroutine for
        it runs. */
    ghost predicate Valid()
      reads this
    {
      pending == Conns(coroutines) &&
      (forall i, j :: 0 <= i < j < |coroutines| ==> coroutines[i].conn != coroutines[j].conn)
    }

    constructor (accounts: map<string, string>)
      ensures this.accounts == accounts && pending == {} && actions == [] && coroutines == [] && Valid()
    {
      this.accounts := accounts;
      pending := {};
      actions := [];
      coroutines := [];
    }

    /** `OnAuthRequestMessage(conn, msg)`. A login from a connection that
        is pending disconnect is ignored. Otherwise exactly one response is
        sent; a match is then accepted, a failure marks the connection
        pending, unauthenticated, and starts its delayed disconnect. */
    method OnAuthRequestMessage(conn: Connection, msg: AuthPacket)
      requires Valid()
      modifies this, conn
      ensures Valid() && accounts == old(accounts)
      ensures old(conn in pending) ==> unchanged(this) && unchanged(conn)
      ensures !old(conn in pending) && CredentialsMatch(accounts, msg) ==>
        actions == old(actions) + [Sent(conn, SuccessResponse), Accepted(conn)] &&
        pending == old(pending) && coroutines == old(coroutines) && unchanged(conn)
      ensures !old(conn in pending) && !CredentialsMatch(accounts, msg) ==>
        actions == old(actions) + [Sent(conn, FailureResponse)] &&
        pending == old(pending) + {conn} && !conn.isAuthenticated &&
        coroutines == old(coroutines) + [DelayedDisconnect(conn, DisconnectDelay, Waiting)]
    {
      if conn in pending {
        return;
      }
      if msg.username in accounts && accounts[msg.username] == msg.password {
        actions := actions + [Sent(conn, SuccessResponse)];
        actions := actions + [Accepted(conn)];
      } else {
        pending := pending + {conn};
        actions := actions + [Sent(conn, FailureResponse)];
        conn.isAuthenticated := false;
        ConnsSnoc(coroutines, DelayedDisconnect(conn, DisconnectDelay, Waiting));
        coroutines := coroutines + [DelayedDisconnect(conn, DisconnectDelay, Waiting)];
      }
    }

    /** The coroutine at index `i` resumes. After its wait it rejects the
        connection, which stays pending; one frame later it removes the
        connection from the pending set and ends. */
    method ResumeDelayedDisconnect(i: nat)
      requires Valid() && i < |coroutines|
      modifies this
      ensures Valid() && accounts == old(accounts)
      ensures old(coroutines[i].stage) == Waiting ==>
        actions == old(actions) + [Rejected(old(coroutines[i].conn))] && pending == old(pending) &&
        coroutines == old(coroutines)[i := old(coroutines[i]).(stage := AfterReject)]
      ensures old(coroutines[i].stage) == AfterReject ==>
        actions == old(actions) && pending == old(pending) - {old(coroutines[i].conn)} &&
        coroutines == old(coroutines[..i] + coroutines[i + 1..])
    {
      var co := coroutines[i];
      if co.stage == Waiting {
        actions := actions + [Rejected(co.conn)];
        coroutines := coroutines[i := co.(stage := AfterReject)];
        assert forall k :: 0 <= k < |coroutines| ==> coroutines[k].conn == old(coroutines[k].conn);
      } else {
        var rest := coroutines[..i] + coroutines[i + 1..];
        assert forall k :: 0 <= k < |rest| ==> rest[k] == coroutines[if k < i then k else k + 1];
        forall c | c in pending - {co.conn}
          ensures exists k :: 0 <= k < |rest| && rest[k].conn == c
        {
          var j :| 0 <= j < |coroutines| && coroutines[j].conn == c;
          assert j != i;
          var k := if j < i then j else j - 1;
          assert rest[k].conn == c;
        }
        pending := pending - {co.conn};
        coroutines := rest;
      }
    }
  }
}
