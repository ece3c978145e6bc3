/** Engine value types the game code passes around: Unity's vectors and
    quaternions, the `Team` affiliation, and the vector helpers whose code is
    not part of this model. */
module Core {

  /** `UnityEngine.Vector2`; floats are modelled as reals. */
  datatype Vector2 = Vector2(x: real, y: real)

  /** `UnityEngine.Vector3`. */
  datatype Vector3 = Vector3(x: real, y: real, z: real)

  /** `UnityEngine.Quaternion`. */
  datatype Rotation = Rotation(x: real, y: real, z: real, w: real)

  /** An exception the game code raises or lets escape; a method that can
      throw returns it as its outcome. */
  datatype Exception =
    | InvalidOperationException(message: string)
    | KeyNotFoundException(key: string)
    | NullReferenceException

  /** `Vector2.zero`. */
  const Zero2 := Vector2(0.0, 0.0)

  /** `Vector2.kEpsilon * Vector2.kEpsilon` (kEpsilon is 1e-5). */
  const SqrEpsilon: real := 0.0000000001

  /** The squared distance between two 2-D points. */
  function SqrDistance(a: Vector2, b: Vector2): (d: real)
    ensures d >= 0.0
  {
    (a.x - b.x) * (a.x - b.x) + (a.y - b.y) * (a.y - b.y)
  }

  /** Unity's `Vector2 ==`: two vectors are equal when their squared
      distance is below `SqrEpsilon`, so a vector very close to zero
      compares equal to `Vector2.zero`. `!=` is its negation. */
  predicate ApproxEqual(a: Vector2, b: Vector2)
  {
    SqrDistance(a, b) < SqrEpsilon
  }

  /** Approximate equality agrees with exact equality at equal vectors,
      and a vector with a coordinate at least `kEpsilon` away from zero
      is not equal to zero. */
  lemma ApproxEqualZero(v: Vector2)
    ensures v == Zero2 ==> ApproxEqual(v, Zero2)
    ensures v.x >= 0.00001 || v.x <= -0.00001 || v.y >= 0.00001 || v.y <= -0.00001 ==> !ApproxEqual(v, Zero2)
  {
    if v.x >= 0.00001 || v.x <= -0.00001 {
      SquareAtLeast(v.x);
      assert SqrDistance(v, Zero2) >= v.x * v.x;
    } else if v.y >= 0.00001 || v.y <= -0.00001 {
      SquareAtLeast(v.y);
      assert SqrDistance(v, Zero2) >= v.y * v.y;
    }
  }

  lemma SquareAtLeast(x: real)
    requires x >= 0.00001 || x <= -0.00001
    ensures x * x >= SqrEpsilon
  {
    if x >= 0.00001 {
      assert x * x >= 0.00001 * x >= 0.00001 * 0.00001;
    } else {
      assert x * x == (-x) * (-x);
      assert (-x) * (-x) >= 0.00001 * (-x) >= 0.00001 * 0.00001;
    }
  }

  /** `v * k`. */
  function Scale(v: Vector2, k: real): Vector2
  {
    Vector2(v.x * k, v.y * k)
  }

  /** The implicit `(Vector2)` conversion of a `Vector3`: drops `z`. */
  function Flatten(v: Vector3): Vector2
  {
    Vector2(v.x, v.y)
  }

  /** A team, identified by its name: `team.Name` reads it back and
      `Team.Get(name)` looks it up. */
  datatype Team = Team(name: string)

  /** `Team.Get(name)`. */
  function TeamNamed(name: string): (t: Team)
    ensures t.name == name
  {
    Team(name)
  }

  /** The vector helpers used by the game code, given as functions because
      their code is not part of this model: `Vector2.normalized`, the
      `GetDirection` extension (rotation that faces from a point towards a
      target) and the `ToVector2Direction` extension (the facing of a
      rotation as a 2-D direction). */
  datatype Geometry = Geometry(
    normalize: Vector2 -> Vector2,
    lookAt: (Vector2, Vector3) -> Rotation,
    toDirection: Rotation -> Vector2)
}
