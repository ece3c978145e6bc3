/** `PlayerBaseModule`: the unit a connected player controls. */
module Players {
  import opened Wrappers
  import opened Core
  import opened Transport
  import opened BulletAssets
  import opened Packets
  import opened Units
  import opened Projectiles

  /** The direction `MoveCommand` stores: zero when the input was
      released, else the input scaled by the player's speed. */
  function MoveDirection(packet: MovePacket, speed: real): (d: Vector2)
    ensures packet.canceled ==> d == Zero2
    ensures !packet.canceled ==> d == Scale(packet.direction, speed)
  {
    if packet.canceled then Zero2 else Scale(packet.direction, speed)
  }

  /** The body velocity after `FixedUpdate`: the stored direction when it
      is not zero by Unity's approximate `!=`; otherwise the velocity is
      not written. */
  function NextVelocity(velocity: Vector2, direction: Vector2): (v: Vector2)
    ensures !ApproxEqual(direction, Zero2) ==> v == direction
    ensures ApproxEqual(direction, Zero2) ==> v == velocity
  {
    if !ApproxEqual(direction, Zero2) then direction else velocity
  }

  /** The zero test is Unity's, not exact: a direction that is not exactly
      zero but is within `kEpsilon` of it leaves the velocity as it was. */
  lemma TinyDirectionKeepsVelocity(velocity: Vector2)
    ensures Vector2(0.000001, 0.0) != Zero2
    ensures NextVelocity(velocity, Vector2(0.000001, 0.0)) == velocity
  {
    assert SqrDistance(Vector2(0.000001, 0.0), Zero2) == 0.000000000001;
  }

  /** Releasing the input does not stop the body: the next physics tick
      leaves the previous velocity in place. */
  lemma CancelKeepsVelocity(velocity: Vector2, packet: MovePacket, speed: real)
    requires packet.canceled
    ensures NextVelocity(velocity, MoveDirection(packet, speed)) == velocity
  {
    ApproxEqualZero(Zero2);
  }

  /** A held input becomes the body's velocity on the next tick once the
      scaled input is at least `kEpsilon` away from zero in some coordinate;
      a zero input or a zero speed leaves the velocity as it was. */
  lemma HeldInputDrivesVelocity(velocity: Vector2, packet: MovePacket, speed: real)
    requires !packet.canceled
    ensures var d := Scale(packet.direction, speed);
      d.x >= 0.00001 || d.x <= -0.00001 || d.y >= 0.00001 || d.y <= -0.00001 ==>
        NextVelocity(velocity, MoveDirection(packet, speed)) == d
    ensures packet.direction == Zero2 || speed == 0.0 ==>
      NextVelocity(velocity, MoveDirection(packet, speed)) == velocity
  {
    var d := Scale(packet.direction, speed);
    ApproxEqualZero(d);
    if packet.direction == Zero2 || speed == 0.0 {
      assert d == Zero2;
    }
  }

  class PlayerBaseModule {
    /** The `UnitBaseModule` this player is. */
    const unit: UnitBaseModule
    var speed: real
    var bullet: BulletProperties
    var direction: Vector2
    /** `body.linearVelocity` and `transform.position`. */
    var velocity: Vector2
    var position: Vector3
    var connectionToClient: Connection?
    var isLocalPlayer: bool

    constructor (unit: UnitBaseModule, bullet: BulletProperties, position: Vector3, connectionToClient: Connection?, isLocalPlayer: bool)
      ensures this.unit == unit && this.bullet == bullet && this.position == position
      ensures this.connectionToClient == connectionToClient && this.isLocalPlayer == isLocalPlayer
      ensures speed == 10.0 && direction == Zero2 && velocity == Zero2
    {
      this.unit := unit;
      this.bullet := bullet;
      this.position := position;
      this.connectionToClient := connectionToClient;
      this.isLocalPlayer := isLocalPlayer;
      speed := 10.0;
      direction := Zero2;
      velocity := Zero2;
    }

    /** `MoveCommand`. */
    method MoveCommand(packet: MovePacket)
      modifies this`direction
      ensures direction == MoveDirection(packet, speed)
    {
      direction := if packet.canceled then Zero2 else Scale(packet.direction, speed);
    }

    /** `FixedUpdate`. */
    method FixedUpdate()
      modifies this`velocity
      ensures velocity == NextVelocity(old(velocity), direction)
    {
      if !ApproxEqual(direction, Zero2) {
        velocity := direction;
      }
    }

    /** `ShootCommand`, a command that runs on the server: the player's
        bullet asset shoots from the player's position, for the player's
        team, at `target`, with damage 1. */
    method ShootCommand(target: Vector3, manager: BulletManager, registry: BulletRegistry, pooled: BulletBase, geometry: Geometry) returns (o: Outcome<Exception>)
      modifies manager`outbox, pooled
      ensures ShootDone(manager, true, BulletPacket.FromProperties(bullet, unit.team, position, target, 1.0), registry, pooled, geometry, o)
    {
      o := PropertiesShoot(bullet, unit.team, position, target, 1.0, manager, true, registry, pooled, geometry);
    }
  }
}
