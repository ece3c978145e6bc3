/** `PacketLoader`: the writer and reader extensions Mirror uses to
    serialise the game's packets. Each one delegates to the packet's own
    `Write` or `Read`. */
module PacketLoader {
  import opened Wrappers
  import opened Transport
  import opened Packets

  /** An `IPacket`: one of the three packet types. */
  datatype Packet = Move(move: MovePacket) | Auth(auth: AuthPacket) | Bullet(bullet: BulletPacket)

  /** Which `Read*Packet` extension reads a packet back. */
  datatype Kind = MoveKind | AuthKind | BulletKind

  function KindOf(p: Packet): Kind
  {
    match p
    case Move(_) => MoveKind
    case Auth(_) => AuthKind
    case Bullet(_) => BulletKind
  }

  /** What `IPacket.Write` appends, dispatched on the packet's type. */
  function Encoding(p: Packet): seq<Token>
  {
    match p
    case Move(m) => m.Encode()
    case Auth(a) => a.Encode()
    case Bullet(b) => b.Encode()
  }

  /** What the `Read*Packet` extension of the given kind yields. */
  function DecodeAs(kind: Kind, ts: seq<Token>, pos: nat): (r: Result<(Packet, nat), ReadError>)
    ensures r.Ok? ==> KindOf(r.value.0) == kind
    ensures r.Ok? ==> pos <= r.value.1 <= |ts| && ts[pos..r.value.1] == Encoding(r.value.0)
  {
    match kind
    case MoveKind =>
      (match MovePacket.Decode(ts, pos) case Err(e) => Err(e) case Ok((m, next)) => Ok((Move(m), next)))
    case AuthKind =>
      (match AuthPacket.Decode(ts, pos) case Err(e) => Err(e) case Ok((a, next)) => Ok((Auth(a), next)))
    case BulletKind =>
      (match BulletPacket.Decode(ts, pos) case Err(e) => Err(e) case Ok((b, next)) => Ok((Bullet(b), next)))
  }

  /** `WriteIPacket`: the packet's own `Write` on the same writer. */
  method WriteIPacket(writer: NetworkWriter, packet: Packet)
    modifies writer
    ensures writer.tokens == old(writer.tokens) + Encoding(packet)
  {
    match packet
    case Move(m) => m.Write(writer);
    case Auth(a) => a.Write(writer);
    case Bullet(b) => b.Write(writer);
  }

  method ReadMovePacket(reader: NetworkReader) returns (r: Result<MovePacket, ReadError>)
    requires reader.Valid()
    modifies reader
    ensures reader.Valid() && Follows(r, MovePacket.Decode(reader.tokens, old(reader.position)), reader.position)
  {
    r := MovePacket.Read(reader);
  }

  method ReadAuthPacket(reader: NetworkReader) returns (r: Result<AuthPacket, ReadError>)
    requires reader.Valid()
    modifies reader
    ensures reader.Valid() && Follows(r, AuthPacket.Decode(reader.tokens, old(reader.position)), reader.position)
  {
    r := AuthPacket.Read(reader);
  }

  method ReadBulletPacket(reader: NetworkReader) returns (r: Result<BulletPacket, ReadError>)
    requires reader.Valid()
    modifies reader
    ensures reader.Valid() && Follows(r, BulletPacket.Decode(reader.tokens, old(reader.position)), reader.position)
  {
    r := BulletPacket.Read(reader);
  }

  /** Whatever was written before and after it, a packet written with
      `WriteIPacket` is read back unchanged by the reader of its kind,
      which stops right after it. */
  lemma {:induction false} LoaderRoundTrip(p: Packet, before: seq<Token>, after: seq<Token>)
    ensures DecodeAs(KindOf(p), before + Encoding(p) + after, |before|) == Ok((p, |before| + |Encoding(p)|))
  {
    var ts := before + Encoding(p) + after;
    assert ts[|before|..|before| + |Encoding(p)|] == Encoding(p);
    match p
    case Move(m) => MoveRoundTrip(m, ts, |before|);
    case Auth(a) => AuthRoundTrip(a, ts, |before|);
    case Bullet(b) => BulletRoundTrip(b, ts, |before|);
  }
}
