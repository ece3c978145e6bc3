/** The game's network messages. Each writes its fields in a fixed order
    and reads them back in the same order. */
module Packets {
  import opened Wrappers
  import opened Core
  import opened Transport
  import opened BulletAssets

  /** The login request a client sends. */
  datatype AuthPacket = AuthPacket(username: string, password: string)
  {
    /** What `Write` appends: username, then password. */
    function Encode(): seq<Token>
    {
      [TString(username), TString(password)]
    }

    method Write(writer: NetworkWriter)
      modifies writer
      ensures writer.tokens == old(writer.tokens) + Encode()
    {
      writer.WriteString(username);
      writer.WriteString(password);
    }

    /** What `Read` yields on a stream whose next value is at `pos`: on
        success, the packet and the position after it, the tokens between
        being exactly the packet's encoding. */
    static function Decode(ts: seq<Token>, pos: nat): (r: Result<(AuthPacket, nat), ReadError>)
      ensures r.Ok? ==> pos <= r.value.1 <= |ts| && ts[pos..r.value.1] == r.value.0.Encode()
    {
      match StringAt(ts, pos)
      case Err(e) => Err(e)
      case Ok((username, p1)) =>
        match StringAt(ts, p1)
        case Err(e) => Err(e)
        case Ok((password, p2)) => Ok((AuthPacket(username, password), p2))
    }

    static method Read(reader: NetworkReader) returns (r: Result<AuthPacket, ReadError>)
      requires reader.Valid()
      modifies reader
      ensures reader.Valid() && Follows(r, Decode(reader.tokens, old(reader.position)), reader.position)
    {
      var username := reader.ReadString();
      if username.Err? {
        return Err(username.error);
      }
      var password := reader.ReadString();
      if password.Err? {
        return Err(password.error);
      }
      r := Ok(AuthPacket(username.value, password.value));
    }
  }

  /** Reading a stream that holds an `AuthPacket`'s encoding at `pos` yields
      that packet and stops right after it, whatever follows. */
  lemma AuthRoundTrip(p: AuthPacket, ts: seq<Token>, pos: nat)
    requires pos + |p.Encode()| <= |ts| && ts[pos..pos + |p.Encode()|] == p.Encode()
    ensures AuthPacket.Decode(ts, pos) == Ok((p, pos + |p.Encode()|))
  {
    assert ts[pos] == p.Encode()[0] && ts[pos + 1] == p.Encode()[1];
  }

  /** The first string read is the username: the two fields are never
      swapped, even when both strings look alike. */
  lemma AuthFieldOrder(first: string, second: string)
    ensures AuthPacket.Decode([TString(first), TString(second)], 0) == Ok((AuthPacket(first, second), 2))
    ensures first != second ==> AuthPacket(first, second).Encode() != AuthPacket(second, first).Encode()
  {
  }

  /** A movement input: a direction and whether the input was released. */
  datatype MovePacket = MovePacket(direction: Vector2, canceled: bool)
  {
    /** What `Write` appends: direction, then canceled. */
    function Encode(): seq<Token>
    {
      [TVector2(direction), TBool(canceled)]
    }

    method Write(writer: NetworkWriter)
      modifies writer
      ensures writer.tokens == old(writer.tokens) + Encode()
    {
      writer.WriteVector2(direction);
      writer.WriteBool(canceled);
    }

    static function Decode(ts: seq<Token>, pos: nat): (r: Result<(MovePacket, nat), ReadError>)
      ensures r.Ok? ==> pos <= r.value.1 <= |ts| && ts[pos..r.value.1] == r.value.0.Encode()
    {
      match Vector2At(ts, pos)
      case Err(e) => Err(e)
      case Ok((direction, p1)) =>
        match BoolAt(ts, p1)
        case Err(e) => Err(e)
        case Ok((canceled, p2)) => Ok((MovePacket(direction, canceled), p2))
    }

    static method Read(reader: NetworkReader) returns (r: Result<MovePacket, ReadError>)
      requires reader.Valid()
      modifies reader
      ensures reader.Valid() && Follows(r, Decode(reader.tokens, old(reader.position)), reader.position)
    {
      var direction := reader.ReadVector2();
      if direction.Err? {
        return Err(direction.error);
      }
      var canceled := reader.ReadBool();
      if canceled.Err? {
        return Err(canceled.error);
      }
      r := Ok(MovePacket(direction.value, canceled.value));
    }
  }

  lemma MoveRoundTrip(p: MovePacket, ts: seq<Token>, pos: nat)
    requires pos + |p.Encode()| <= |ts| && ts[pos..pos + |p.Encode()|] == p.Encode()
    ensures MovePacket.Decode(ts, pos) == Ok((p, pos + |p.Encode()|))
  {
    assert ts[pos] == p.Encode()[0] && ts[pos + 1] == p.Encode()[1];
  }

  /** A shot: which bullet asset, which team, from where, towards where and
      with what damage. No lifetime and no owner travels with it. */
  datatype BulletPacket = BulletPacket(typeName: string, teamName: string, startPos: Vector3, targetPos: Vector3, damage: real)
  {
    /** The 5-argument constructor keeps every argument as given. */
    static function New(typeName: string, teamName: string, startPos: Vector3, targetPos: Vector3, damage: real): (p: BulletPacket)
      ensures p.typeName == typeName && p.teamName == teamName && p.startPos == startPos && p.targetPos == targetPos
      ensures p.damage == damage
    {
      BulletPacket(typeName, teamName, startPos, targetPos, damage)
    }

    /** The (properties, team, ...) constructor. It takes the asset's name
        and the team's name, but the chained call assigns 1 to `damage`
        before passing it, so the damage argument is never used. */
    static function FromProperties(properties: BulletProperties, team: Team, startPos: Vector3, targetPos: Vector3, damage: real): (p: BulletPacket)
      ensures p.typeName == properties.name && p.teamName == team.name
      ensures p.startPos == startPos && p.targetPos == targetPos
      ensures p.damage == 1.0
    {
      New(properties.name, team.name, startPos, targetPos, 1.0)
    }

    /** The `Type` property: the registered asset of this name, or the
        dictionary's `KeyNotFoundException`. */
    function Type(registry: BulletRegistry): (r: Result<BulletProperties, Exception>)
      reads registry
      ensures r.Ok? <==> typeName in registry.bullets
      ensures r.Ok? ==> r.value == registry.bullets[typeName]
    {
      registry.Lookup(typeName)
    }

    /** The `Team` property: the team of this name. */
    function TeamOf(): (t: Team)
      ensures t.name == teamName
    {
      TeamNamed(teamName)
    }

    /** What `Write` appends: typeName, teamName, startPos, targetPos, damage. */
    function Encode(): seq<Token>
    {
      [TString(typeName), TString(teamName), TVector3(startPos), TVector3(targetPos), TFloat(damage)]
    }

    method Write(writer: NetworkWriter)
      modifies writer
      ensures writer.tokens == old(writer.tokens) + Encode()
    {
      writer.WriteString(typeName);
      writer.WriteString(teamName);
      writer.WriteVector3(startPos);
      writer.WriteVector3(targetPos);
      writer.WriteFloat(damage);
    }

    static function Decode(ts: seq<Token>, pos: nat): (r: Result<(BulletPacket, nat), ReadError>)
      ensures r.Ok? ==> pos <= r.value.1 <= |ts| && ts[pos..r.value.1] == r.value.0.Encode()
    {
      match StringAt(ts, pos)
      case Err(e) => Err(e)
      case Ok((typeName, p1)) =>
        match StringAt(ts, p1)
        case Err(e) => Err(e)
        case Ok((teamName, p2)) =>
          match Vector3At(ts, p2)
          case Err(e) => Err(e)
          case Ok((startPos, p3)) =>
            match Vector3At(ts, p3)
            case Err(e) => Err(e)
            case Ok((targetPos, p4)) =>
              match FloatAt(ts, p4)
              case Err(e) => Err(e)
              case Ok((damage, p5)) => Ok((New(typeName, teamName, startPos, targetPos, damage), p5))
    }

    static method Read(reader: NetworkReader) returns (r: Result<BulletPacket, ReadError>)
      requires reader.Valid()
      modifies reader
      ensures reader.Valid() && Follows(r, Decode(reader.tokens, old(reader.position)), reader.position)
    {
      var typeName := reader.ReadString();
      if typeName.Err? {
        return Err(typeName.error);
      }
      var teamName := reader.ReadString();
      if teamName.Err? {
        return Err(teamName.error);
      }
      var startPos := reader.ReadVector3();
      if startPos.Err? {
        return Err(startPos.error);
      }
      var targetPos := reader.ReadVector3();
      if targetPos.Err? {
        return Err(targetPos.error);
      }
      var damage := reader.ReadFloat();
      if damage.Err? {
        return Err(damage.error);
      }
      r := Ok(New(typeName.value, teamName.value, startPos.value, targetPos.value, damage.value));
    }
  }

  lemma BulletRoundTrip(p: BulletPacket, ts: seq<Token>, pos: nat)
    requires pos + |p.Encode()| <= |ts| && ts[pos..pos + |p.Encode()|] == p.Encode()
    ensures BulletPacket.Decode(ts, pos) == Ok((p, pos + |p.Encode()|))
  {
    var e := p.Encode();
    assert ts[pos] == e[0] && ts[pos + 1] == e[1] && ts[pos + 2] == e[2] && ts[pos + 3] == e[3] && ts[pos + 4] == e[4];
  }

  /** Whatever damage is passed to the (properties, team, ...) constructor,
      the packet is the same. */
  lemma FromPropertiesIgnoresDamage(properties: BulletProperties, team: Team, startPos: Vector3, targetPos: Vector3, d1: real, d2: real)
    ensures BulletPacket.FromProperties(properties, team, startPos, targetPos, d1)
         == BulletPacket.FromProperties(properties, team, startPos, targetPos, d2)
  {
  }

  /** Mirror's `AuthResponseMessage`: a status code and a message. Its
      encoding is generated by Mirror and is not part of this model. */
  datatype AuthResponseMessage = AuthResponseMessage(code: int, message: string)
}
