/** Bullets, the pools they are recycled through, and `BulletManager`,
    which spawns them and routes shots between server and clients. */
module Projectiles {
  import opened Wrappers
  import opened Core
  import opened BulletAssets
  import opened Packets
  import opened Units
  import opened BulletRules

  /** Where a bullet's transform hangs: nowhere yet, under the manager, or
      under the manager's `released` transform. */
  datatype Parent = Unparented | UnderManager | UnderReleased

  /** The serialised values of a bullet prefab, which `Instantiate`
      copies. */
  datatype BulletPrefab = BulletPrefab(team: Team, damage: real, speed: real, lifeTime: real, ownerId: int, position: Vector3, rotation: Rotation)

  /** `ObjectPool`'s duplicate-release message and its default capacity. */
  const AlreadyReleasedMessage := "Trying to release an object that has already been released to the pool."
  const DefaultMaxSize := 10000

  /** The other collider of a trigger contact: its damageable unit, if
      any, its player component's connection, if it is a player, and its
      layer. A player is its own damageable unit. */
  datatype Collider = Collider(unit: Option<UnitBaseModule>, player: Option<PlayerLink>, layer: int)

  function View(c: Collider): (t: TargetView)
    reads if c.unit.Some? then {c.unit.value} else {}
    ensures t.unitTeam.Some? <==> c.unit.Some?
    ensures c.unit.Some? ==> t.unitTeam.value == c.unit.value.team
    ensures t.player == c.player && t.layer == c.layer
  {
    TargetView(if c.unit.Some? then Some(c.unit.value.team) else None, c.player, c.layer)
  }

  /** `BulletBase`, a `PooledObject`. */
  class BulletBase {
    var team: Team
    var damage: real
    var speed: real
    var lifeTime: real
    var direction: Vector2
    var ownerId: int
    var properties: Option<BulletProperties>
    /** `body.linearVelocity`. */
    var velocity: Vector2
    /** `transform.position` and `transform.rotation`. */
    var position: Vector3
    var rotation: Rotation
    /** `gameObject.activeSelf`, and whether the object was destroyed. */
    var active: bool
    var destroyed: bool
    var parent: Parent
    /** `PooledObject.pool`, the pool this object returns to; null unless
        the code that pools it sets it. */
    var pool: BulletPool?

    /** `Instantiate(prefab)`: an active copy of the prefab's values. */
    constructor (prefab: BulletPrefab)
      ensures team == prefab.team && damage == prefab.damage && speed == prefab.speed
      ensures lifeTime == prefab.lifeTime && ownerId == prefab.ownerId
      ensures position == prefab.position && rotation == prefab.rotation
      ensures properties == None && pool == null && active && !destroyed && parent == Unparented
    {
      team := prefab.team;
      damage := prefab.damage;
      speed := prefab.speed;
      lifeTime := prefab.lifeTime;
      ownerId := prefab.ownerId;
      position := prefab.position;
      rotation := prefab.rotation;
      direction := Zero2;
      velocity := Zero2;
      properties := None;
      active := true;
      destroyed := false;
      parent := Unparented;
      pool := null;
    }

    /** `PooledObject.Release`: back to the pool if there is one, destroyed
        otherwise. */
    method Release() returns (o: Outcome<Exception>)
      modifies this, pool
      ensures pool == old(pool) && InFlightUnchanged(this)
      ensures Released(this, pool, o)
    {
      if pool != null {
        o := pool.Release(this);
      } else {
        destroyed := true;
        o := Pass;
      }
    }

    /** `PooledObject.Duplicate`: an object from the pool if there is one,
        otherwise this object itself, with nothing created. */
    method Duplicate() returns (d: BulletBase)
      modifies this, pool, if pool != null then {pool.manager} else {}
      modifies if pool != null && pool.free != [] then {pool.free[|pool.free| - 1]} else {}
      ensures pool == old(pool)
      ensures old(pool) == null ==> d == this && unchanged(this)
      ensures old(pool) != null ==> PoolGave(pool, d)
    {
      if pool != null {
        d := pool.Get();
      } else {
        d := this;
      }
    }

    /** `FixedUpdate` with `Time.fixedDeltaTime` = `dt`. */
    method FixedUpdate(dt: real, geometry: Geometry) returns (o: Outcome<Exception>)
      modifies this, pool
      ensures pool == old(pool)
      ensures lifeTime == Tick(old(lifeTime), old(active), dt).lifeTime
      ensures old(lifeTime) > 0.0 ==> velocity == Scale(geometry.normalize(direction), speed)
      ensures Tick(old(lifeTime), old(active), dt).release ==> Released(this, pool, o)
      ensures !Tick(old(lifeTime), old(active), dt).release ==>
        o == Pass && active == old(active) && destroyed == old(destroyed) && parent == old(parent) &&
        (pool != null ==> unchanged(pool))
      ensures old(lifeTime) <= 0.0 ==> velocity == old(velocity)
      ensures team == old(team) && damage == old(damage) && speed == old(speed) && direction == old(direction)
      ensures ownerId == old(ownerId) && properties == old(properties) && position == old(position) && rotation == old(rotation)
    {
      if lifeTime > 0.0 {
        lifeTime := lifeTime - dt;
        velocity := Scale(geometry.normalize(direction), speed);
        o := Pass;
      } else if active {
        o := Release();
      } else {
        o := Pass;
      }
    }

    /** `OnTriggerEnter2D`: damages and releases as `HitRule` decides. A
        failed release (an exception) comes after the damage. */
    method OnTriggerEnter2D(other: Collider, obstacleLayer: int) returns (o: Outcome<Exception>)
      modifies this, pool, if other.unit.Some? then {other.unit.value} else {}
      ensures pool == old(pool) && InFlightUnchanged(this)
      ensures var outcome := HitRule(old(ownerId), old(team), old(View(other)), obstacleLayer);
        (outcome == NoEffect ==> o == Pass && unchanged(this) && (pool != null ==> unchanged(pool))) &&
        (outcome == NullReference ==> o == Fail(NullReferenceException) && unchanged(this) && (pool != null ==> unchanged(pool))) &&
        (outcome == ReleaseOnly ==> Released(this, pool, o)) &&
        (outcome == DamageAndRelease ==>
           Released(this, pool, o) &&
           other.unit.value.realHealth == StoredHealth(old(other.unit.value.realHealth) - damage, other.unit.value.maxHealth) &&
           other.unit.value.events == old(other.unit.value.events) + SetterEvents(old(other.unit.value.realHealth) - damage, other.unit.value.maxHealth))
      ensures HitRule(old(ownerId), old(team), old(View(other)), obstacleLayer) != DamageAndRelease && other.unit.Some? ==>
        unchanged(other.unit.value)
    {
      var outcome := HitRule(ownerId, team, View(other), obstacleLayer);
      match outcome
      case NoEffect =>
        o := Pass;
      case NullReference =>
        o := Fail(NullReferenceException);
      case ReleaseOnly =>
        o := Release();
      case DamageAndRelease =>
        other.unit.value.Damage(damage);
        o := Release();
    }
  }

  /** Everything a release leaves alone. */
  twostate predicate InFlightUnchanged(b: BulletBase)
    reads b
  {
    b.team == old(b.team) && b.damage == old(b.damage) && b.speed == old(b.speed) &&
    b.lifeTime == old(b.lifeTime) && b.direction == old(b.direction) && b.ownerId == old(b.ownerId) &&
    b.properties == old(b.properties) && b.velocity == old(b.velocity) &&
    b.position == old(b.position) && b.rotation == old(b.rotation) && b.pool == old(b.pool)
  }

  /** `PooledObject.Release` of `b` with pool `p` happened: with no pool the
      object is destroyed; a pool refuses an object it already holds, and
      otherwise deactivates it, parents it to `released` and keeps it, or
      destroys it when it already holds `maxSize` objects. */
  twostate predicate Released(b: BulletBase, p: BulletPool?, new o: Outcome<Exception>)
    reads b, p
  {
    if p == null then
      o == Pass && b.destroyed && b.active == old(b.active) && b.parent == old(b.parent)
    else if b in old(p.free) then
      o == Fail(InvalidOperationException(AlreadyReleasedMessage)) &&
      b.active == old(b.active) && b.destroyed == old(b.destroyed) && b.parent == old(b.parent) &&
      p.free == old(p.free) && p.countAll == old(p.countAll)
    else
      o == Pass && !b.active && b.parent == UnderReleased &&
      if |old(p.free)| < p.maxSize then
        p.free == old(p.free) + [b] && b.destroyed == old(b.destroyed) && p.countAll == old(p.countAll)
      else
        p.free == old(p.free) && b.destroyed && p.countAll == old(p.countAll) - 1
  }

  /** `ObjectPool.Get` of `p` gave `b`: a fresh instance of the prefab,
      recorded by the manager, when the pool was empty, otherwise the
      object released most recently; either way it is active and under the
      manager, and nothing else about it changed. */
  twostate predicate PoolGave(p: BulletPool, new b: BulletBase)
    reads p, p.manager, b
  {
    b.active && b.parent == UnderManager &&
    if old(p.free) == [] then
      fresh(b) && p.free == [] && p.countAll == old(p.countAll) + 1 &&
      p.manager.instances == old(p.manager.instances) + [b] &&
      b.team == p.prefab.team && b.damage == p.prefab.damage && b.speed == p.prefab.speed &&
      b.lifeTime == p.prefab.lifeTime && b.ownerId == p.prefab.ownerId &&
      b.properties == None && b.pool == null && !b.destroyed
    else
      b == old(p.free)[|old(p.free)| - 1] && p.free == old(p.free)[..|old(p.free)| - 1] &&
      p.countAll == old(p.countAll) && p.manager.instances == old(p.manager.instances) &&
      InFlightUnchanged(b) && b.destroyed == old(b.destroyed)
  }

  /** `ObjectPool<BulletBase>` with the four callbacks `InitPool` gives it.
      The inactive objects form a stack. */
  class BulletPool {
    const manager: BulletManager
    const prefab: BulletPrefab
    const maxSize: nat
    var free: seq<BulletBase>
    var countAll: int

    constructor (manager: BulletManager, prefab: BulletPrefab)
      ensures this.manager == manager && this.prefab == prefab && maxSize == DefaultMaxSize
      ensures free == [] && countAll == 0
    {
      this.manager := manager;
      this.prefab := prefab;
      maxSize := DefaultMaxSize;
      free := [];
      countAll := 0;
    }

    /** `Get`: pops an inactive object, or runs the create callback
        (instantiate, record in `instances`, parent to the manager); then
        the get callback activates it and parents it to the manager. */
    method Get() returns (b: BulletBase)
      modifies this, manager, if free == [] then {} else {free[|free| - 1]}
      ensures PoolGave(this, b)
    {
      if free == [] {
        b := new BulletBase(prefab);
        manager.instances := manager.instances + [b];
        b.parent := UnderManager;
        countAll := countAll + 1;
      } else {
        b := free[|free| - 1];
        free := free[..|free| - 1];
      }
      b.active := true;
      b.parent := UnderManager;
    }

    /** `Release`: refuses an object it already holds; otherwise the
        release callback deactivates it and parents it to `released`, and
        the pool keeps it, or runs the destroy callback when full. */
    method Release(b: BulletBase) returns (o: Outcome<Exception>)
      modifies this, b
      ensures InFlightUnchanged(b) && Released(b, this, o)
    {
      if b in free {
        return Fail(InvalidOperationException(AlreadyReleasedMessage));
      }
      b.active := false;
      b.parent := UnderReleased;
      if |free| < maxSize {
        free := free + [b];
      } else {
        countAll := countAll - 1;
        b.destroyed := true;
      }
      o := Pass;
    }
  }

  /** A network message `BulletManager` sends: the `ShootRpc` broadcast to
      clients or the `ShootRequest` command to the server. */
  datatype ShootMessage = ShootRpcMessage(packet: BulletPacket) | ShootRequestMessage(packet: BulletPacket)

  class BulletManager {
    var instances: seq<BulletBase>
    var pools: map<string, BulletPool>
    /** The messages sent so far. */
    var outbox: seq<ShootMessage>

    constructor ()
      ensures instances == [] && pools == map[] && outbox == []
    {
      instances := [];
      pools := map[];
      outbox := [];
    }

    /** `InitPool(id, prefab)`: at most one pool per id. */
    method InitPool(id: string, prefab: BulletPrefab) returns (pool: BulletPool)
      modifies this`pools
      ensures id in old(pools) ==> pool == old(pools)[id] && pools == old(pools)
      ensures id !in old(pools) ==>
        fresh(pool) && pools == old(pools)[id := pool] &&
        pool.manager == this && pool.prefab == prefab && pool.free == [] && pool.countAll == 0
    {
      if id in pools {
        return pools[id];
      }
      pool := new BulletPool(this, prefab);
      pools := pools[id := pool];
    }

    /** Calling the `ShootRpc` client RPC on the server: the broadcast is
        sent. */
    method SendShootRpc(packet: BulletPacket)
      modifies this`outbox
      ensures outbox == old(outbox) + [ShootRpcMessage(packet)]
    {
      outbox := outbox + [ShootRpcMessage(packet)];
    }

    /** Calling the `ShootRequest` command on a client: the request is
        sent. */
    method SendShootRequest(packet: BulletPacket)
      modifies this`outbox
      ensures outbox == old(outbox) + [ShootRequestMessage(packet)]
    {
      outbox := outbox + [ShootRequestMessage(packet)];
    }
  }

  /** `ShootFunc` set up `b` for a shot: the asset, the start position, the
      team, the rotation facing the target, the direction of that rotation
      and the damage. Lifetime, owner, speed and the rest stay as they
      were. */
  twostate predicate Spawned(b: BulletBase, properties: BulletProperties, startPos: Vector3, targetPos: Vector3, team: Team, damage: real, geometry: Geometry)
    reads b
  {
    b.properties == Some(properties) && b.position == startPos && b.team == team &&
    b.rotation == geometry.lookAt(Flatten(startPos), targetPos) &&
    b.direction == geometry.toDirection(b.rotation) && b.damage == damage &&
    b.lifeTime == old(b.lifeTime) && b.ownerId == old(b.ownerId) && b.speed == old(b.speed) &&
    b.velocity == old(b.velocity) && b.active == old(b.active) && b.destroyed == old(b.destroyed) &&
    b.parent == old(b.parent) && b.pool == old(b.pool)
  }

  /** `BulletProperties.Pooling`: the object the asset's prefab reference
      hands out (`pooled`, from code outside this model) gets these
      properties. */
  method Pooling(properties: BulletProperties, pooled: BulletBase) returns (b: BulletBase)
    modifies pooled`properties
    ensures b == pooled && b.properties == Some(properties)
  {
    pooled.properties := Some(properties);
    b := pooled;
  }

  /** `BulletManager.ShootFunc`. */
  method ShootFunc(properties: BulletProperties, startPos: Vector3, targetPos: Vector3, team: Team, damage: real, pooled: BulletBase, geometry: Geometry)
    modifies pooled
    ensures Spawned(pooled, properties, startPos, targetPos, team, damage, geometry)
  {
    var bullet := Pooling(properties, pooled);
    bullet.position := startPos;
    bullet.team := team;
    bullet.rotation := geometry.lookAt(Flatten(bullet.position), targetPos);
    bullet.direction := geometry.toDirection(bullet.rotation);
    bullet.damage := damage;
  }

  /** What `BulletManager.Shoot(packet)` did. On the server the packet's
      asset is looked up (a missing name throws and nothing happens), the
      bullet is spawned locally and exactly one broadcast of the same packet
      is sent; on a client nothing is spawned and exactly one request is
      sent. */
  twostate predicate ShootDone(manager: BulletManager, serverActive: bool, packet: BulletPacket, registry: BulletRegistry, pooled: BulletBase, geometry: Geometry, new o: Outcome<Exception>)
    reads manager, registry, pooled
  {
    if !serverActive then
      o == Pass && manager.outbox == old(manager.outbox) + [ShootRequestMessage(packet)] && unchanged(pooled)
    else if packet.typeName !in old(registry.bullets) then
      o == Fail(KeyNotFoundException(packet.typeName)) && manager.outbox == old(manager.outbox) && unchanged(pooled)
    else
      o == Pass && manager.outbox == old(manager.outbox) + [ShootRpcMessage(packet)] &&
      Spawned(pooled, old(registry.bullets)[packet.typeName], packet.startPos, packet.targetPos, TeamNamed(packet.teamName), packet.damage, geometry)
  }

  /** `BulletManager.Shoot`, on the current manager instance, with
      `NetworkServer.active` = `serverActive`. */
  method Shoot(manager: BulletManager, serverActive: bool, packet: BulletPacket, registry: BulletRegistry, pooled: BulletBase, geometry: Geometry) returns (o: Outcome<Exception>)
    modifies manager`outbox, pooled
    ensures unchanged(registry)
    ensures ShootDone(manager, serverActive, packet, registry, pooled, geometry, o)
  {
    if serverActive {
      var properties := packet.Type(registry);
      if properties.Err? {
        return Fail(properties.error);
      }
      ShootFunc(properties.value, packet.startPos, packet.targetPos, packet.TeamOf(), packet.damage, pooled, geometry);
      manager.SendShootRpc(packet);
      o := Pass;
    } else {
      manager.SendShootRequest(packet);
      o := Pass;
    }
  }

  /** `ShootRequest` arriving at the server: it runs `Shoot` there, which
      spawns and broadcasts. */
  method ReceiveShootRequest(manager: BulletManager, packet: BulletPacket, registry: BulletRegistry, pooled: BulletBase, geometry: Geometry) returns (o: Outcome<Exception>)
    modifies manager`outbox, pooled
    ensures ShootDone(manager, true, packet, registry, pooled, geometry, o)
  {
    o := Shoot(manager, true, packet, registry, pooled, geometry);
  }

  /** `ShootRpc` arriving at a peer: ignored where the server runs (it has
      spawned already); elsewhere the bullet is spawned from the registry
      entry for the packet's type name, which throws when it is missing.
      Nothing is sent. */
  method ReceiveShootRpc(serverActive: bool, packet: BulletPacket, registry: BulletRegistry, pooled: BulletBase, geometry: Geometry) returns (o: Outcome<Exception>)
    modifies pooled
    ensures serverActive ==> o == Pass && unchanged(pooled)
    ensures !serverActive && packet.typeName !in registry.bullets ==> o == Fail(KeyNotFoundException(packet.typeName)) && unchanged(pooled)
    ensures !serverActive && packet.typeName in registry.bullets ==>
      o == Pass && Spawned(pooled, registry.bullets[packet.typeName], packet.startPos, packet.targetPos, TeamNamed(packet.teamName), packet.damage, geometry)
  {
    if serverActive {
      return Pass;
    }
    var properties := registry.Lookup(packet.typeName);
    if properties.Err? {
      return Fail(properties.error);
    }
    ShootFunc(properties.value, packet.startPos, packet.targetPos, packet.TeamOf(), packet.damage, pooled, geometry);
    o := Pass;
  }

  /** `BulletProperties.Shoot`: one packet built from the asset, the team,
      the two positions and the damage (which that constructor replaces by
      1; the asset's lifetime is not carried), handed to `Shoot`. */
  method PropertiesShoot(properties: BulletProperties, team: Team, startPosition: Vector3, targetPosition: Vector3, damage: real,
                         manager: BulletManager, serverActive: bool, registry: BulletRegistry, pooled: BulletBase, geometry: Geometry)
    returns (o: Outcome<Exception>)
    modifies manager`outbox, pooled
    ensures ShootDone(manager, serverActive, BulletPacket.FromProperties(properties, team, startPosition, targetPosition, damage), registry, pooled, geometry, o)
  {
    o := Shoot(manager, serverActive, BulletPacket.FromProperties(properties, team, startPosition, targetPosition, damage), registry, pooled, geometry);
  }
}
