/** The parts of the Mirror networking library the game code relies on:
    a client connection and a message writer. Mirror's byte layout is not
    modelled; a writer holds a sequence of typed tokens, one per value
    written. */
module Transport {
  import opened Wrappers
  import opened Core

  /** `NetworkConnectionToClient`. Its identity is the object itself; only
      `isAuthenticated` is updated by the game code. */
  class Connection {
    const connectionId: int
    const address: string
    var isAuthenticated: bool

    constructor (connectionId: int, address: string)
      ensures this.connectionId == connectionId && this.address == address
      ensures !isAuthenticated
    {
      this.connectionId := connectionId;
      this.address := address;
      isAuthenticated := false;
    }
  }

  /** One value as written by a `NetworkWriter` method. */
  datatype Token =
    | TString(s: string)
    | TFloat(f: real)
    | TBool(b: bool)
    | TVector2(v2: Vector2)
    | TVector3(v3: Vector3)

  /** Why reading a value failed: nothing left (`EndOfStreamException`) or
      a value of another type in that position. */
  datatype ReadError = EndOfStream | TypeMismatch(position: nat)

  /** `NetworkWriter`: append-only. */
  class NetworkWriter {
    var tokens: seq<Token>

    constructor ()
      ensures tokens == []
    {
      tokens := [];
    }

    method WriteString(s: string)
      modifies this
      ensures tokens == old(tokens) + [TString(s)]
    {
      tokens := tokens + [TString(s)];
    }

    method WriteFloat(f: real)
      modifies this
      ensures tokens == old(tokens) + [TFloat(f)]
    {
      tokens := tokens + [TFloat(f)];
    }

    method WriteBool(b: bool)
      modifies this
      ensures tokens == old(tokens) + [TBool(b)]
    {
      tokens := tokens + [TBool(b)];
    }

    method WriteVector2(v: Vector2)
      modifies this
      ensures tokens == old(tokens) + [TVector2(v)]
    {
      tokens := tokens + [TVector2(v)];
    }

    method WriteVector3(v: Vector3)
      modifies this
      ensures tokens == old(tokens) + [TVector3(v)]
    {
      tokens := tokens + [TVector3(v)];
    }
  }

  /** The value at `pos` in a written stream, with the position after it. */
  function TokenAt(ts: seq<Token>, pos: nat): (r: Result<(Token, nat), ReadError>)
    ensures r.Ok? <==> pos < |ts|
    ensures r.Ok? ==> r.value == (ts[pos], pos + 1)
    ensures r.Err? ==> r.error == EndOfStream
  {
    if pos < |ts| then Ok((ts[pos], pos + 1)) else Err(EndOfStream)
  }

  /** `ReadString` on a stream whose next value is at `pos`. */
  function StringAt(ts: seq<Token>, pos: nat): (r: Result<(string, nat), ReadError>)
    ensures r.Ok? <==> pos < |ts| && ts[pos].TString?
    ensures r.Ok? ==> ts[pos] == TString(r.value.0) && r.value.1 == pos + 1
    ensures r.Err? ==> r.error == if pos < |ts| then TypeMismatch(pos) else EndOfStream
  {
    match TokenAt(ts, pos)
    case Err(e) => Err(e)
    case Ok((t, next)) => if t.TString? then Ok((t.s, next)) else Err(TypeMismatch(pos))
  }

  /** `ReadFloat` on a stream whose next value is at `pos`. */
  function FloatAt(ts: seq<Token>, pos: nat): (r: Result<(real, nat), ReadError>)
    ensures r.Ok? <==> pos < |ts| && ts[pos].TFloat?
    ensures r.Ok? ==> ts[pos] == TFloat(r.value.0) && r.value.1 == pos + 1
    ensures r.Err? ==> r.error == if pos < |ts| then TypeMismatch(pos) else EndOfStream
  {
    match TokenAt(ts, pos)
    case Err(e) => Err(e)
    case Ok((t, next)) => if t.TFloat? then Ok((t.f, next)) else Err(TypeMismatch(pos))
  }

  /** `ReadBool` on a stream whose next value is at `pos`. */
  function BoolAt(ts: seq<Token>, pos: nat): (r: Result<(bool, nat), ReadError>)
    ensures r.Ok? <==> pos < |ts| && ts[pos].TBool?
    ensures r.Ok? ==> ts[pos] == TBool(r.value.0) && r.value.1 == pos + 1
    ensures r.Err? ==> r.error == if pos < |ts| then TypeMismatch(pos) else EndOfStream
  {
    match TokenAt(ts, pos)
    case Err(e) => Err(e)
    case Ok((t, next)) => if t.TBool? then Ok((t.b, next)) else Err(TypeMismatch(pos))
  }

  /** `ReadVector2` on a stream whose next value is at `pos`. */
  function Vector2At(ts: seq<Token>, pos: nat): (r: Result<(Vector2, nat), ReadError>)
    ensures r.Ok? <==> pos < |ts| && ts[pos].TVector2?
    ensures r.Ok? ==> ts[pos] == TVector2(r.value.0) && r.value.1 == pos + 1
    ensures r.Err? ==> r.error == if pos < |ts| then TypeMismatch(pos) else EndOfStream
  {
    match TokenAt(ts, pos)
    case Err(e) => Err(e)
    case Ok((t, next)) => if t.TVector2? then Ok((t.v2, next)) else Err(TypeMismatch(pos))
  }

  /** `ReadVector3` on a stream whose next value is at `pos`. */
  function Vector3At(ts: seq<Token>, pos: nat): (r: Result<(Vector3, nat), ReadError>)
    ensures r.Ok? <==> pos < |ts| && ts[pos].TVector3?
    ensures r.Ok? ==> ts[pos] == TVector3(r.value.0) && r.value.1 == pos + 1
    ensures r.Err? ==> r.error == if pos < |ts| then TypeMismatch(pos) else EndOfStream
  {
    match TokenAt(ts, pos)
    case Err(e) => Err(e)
    case Ok((t, next)) => if t.TVector3? then Ok((t.v3, next)) else Err(TypeMismatch(pos))
  }

  /** A read that returned `r` and left the reader at `position` did what
      the decoder `d` says: on success it yields the decoded value and moves
      past it; on failure it reports the decoder's error. */
  predicate Follows<T(==)>(r: Result<T, ReadError>, d: Result<(T, nat), ReadError>, position: nat)
  {
    match d
    case Ok((v, next)) => r == Ok(v) && position == next
    case Err(e) => r == Err(e)
  }

  /** `NetworkReader` over what a writer produced, consumed front to back. */
  class NetworkReader {
    const tokens: seq<Token>
    var position: nat

    ghost predicate Valid()
      reads this
    {
      position <= |tokens|
    }

    constructor (tokens: seq<Token>)
      ensures this.tokens == tokens && position == 0 && Valid()
    {
      this.tokens := tokens;
      position := 0;
    }

    method ReadString() returns (r: Result<string, ReadError>)
      requires Valid()
      modifies this
      ensures Valid() && Follows(r, StringAt(tokens, old(position)), position)
      ensures r.Err? ==> position == old(position)
    {
      var d := StringAt(tokens, position);
      if d.Ok? {
        position := d.value.1;
        r := Ok(d.value.0);
      } else {
        r := Err(d.error);
      }
    }

    method ReadFloat() returns (r: Result<real, ReadError>)
      requires Valid()
      modifies this
      ensures Valid() && Follows(r, FloatAt(tokens, old(position)), position)
      ensures r.Err? ==> position == old(position)
    {
      var d := FloatAt(tokens, position);
      if d.Ok? {
        position := d.value.1;
        r := Ok(d.value.0);
      } else {
        r := Err(d.error);
      }
    }

    method ReadBool() returns (r: Result<bool, ReadError>)
      requires Valid()
      modifies this
      ensures Valid() && Follows(r, BoolAt(tokens, old(position)), position)
      ensures r.Err? ==> position == old(position)
    {
      var d := BoolAt(tokens, position);
      if d.Ok? {
        position := d.value.1;
        r := Ok(d.value.0);
      } else {
        r := Err(d.error);
      }
    }

    method ReadVector2() returns (r: Result<Vector2, ReadError>)
      requires Valid()
      modifies this
      ensures Valid() && Follows(r, Vector2At(tokens, old(position)), position)
      ensures r.Err? ==> position == old(position)
    {
      var d := Vector2At(tokens, position);
      if d.Ok? {
        position := d.value.1;
        r := Ok(d.value.0);
      } else {
        r := Err(d.error);
      }
    }

    method ReadVector3() returns (r: Result<Vector3, ReadError>)
      requires Valid()
      modifies this
      ensures Valid() && Follows(r, Vector3At(tokens, old(position)), position)
      ensures r.Err? ==> position == old(position)
    {
      var d := Vector3At(tokens, position);
      if d.Ok? {
        position := d.value.1;
        r := Ok(d.value.0);
      } else {
        r := Err(d.error);
      }
    }
  }
}
