/** The decisions `BulletBase` makes each physics tick and on each trigger
    contact, as pure functions of the values it reads. */
module BulletRules {
  import opened Wrappers
  import opened Core

  /** One `FixedUpdate`: the lifetime after the tick and whether the tick
      releases the bullet. A bullet with lifetime left only counts down; a
      spent bullet is released if its object is still active. */
  datatype Step = Step(lifeTime: real, release: bool)

  function Tick(lifeTime: real, active: bool, dt: real): (s: Step)
    ensures s.release <==> lifeTime <= 0.0 && active
    ensures lifeTime > 0.0 ==> s.lifeTime == lifeTime - dt
    ensures lifeTime <= 0.0 ==> s.lifeTime == lifeTime
  {
    if lifeTime > 0.0 then Step(lifeTime - dt, false)
    else if active then Step(lifeTime, true)
    else Step(lifeTime, false)
  }

  /** The total of the first ticks' durations. */
  function Sum(dts: seq<real>): real
    decreases |dts|
  {
    if dts == [] then 0.0 else Sum(dts[..|dts| - 1]) + dts[|dts| - 1]
  }

  /** The index of the tick that releases a bullet with lifetime
      `lifeTime`, on a run of ticks of durations `dts`; a release
      deactivates the object, so later ticks do nothing. */
  function ReleaseTick(lifeTime: real, active: bool, dts: seq<real>): Option<nat>
    decreases |dts|
  {
    if dts == [] then None
    else if Tick(lifeTime, active, dts[0]).release then Some(0)
    else match ReleaseTick(Tick(lifeTime, active, dts[0]).lifeTime, active, dts[1..])
      case None => None
      case Some(k) => Some(k + 1)
  }

  /** The number of releases on a run of ticks. */
  function Releases(lifeTime: real, active: bool, dts: seq<real>): nat
    decreases |dts|
  {
    if dts == [] then 0
    else
      var s := Tick(lifeTime, active, dts[0]);
      (if s.release then 1 else 0) + Releases(s.lifeTime, active && !s.release, dts[1..])
  }

  /** A bullet is released at most once, and an inactive one never. */
  lemma {:induction false} ReleasedAtMostOnce(lifeTime: real, active: bool, dts: seq<real>)
    ensures Releases(lifeTime, active, dts) <= (if active then 1 else 0)
    decreases |dts|
  {
    if dts != [] {
      var s := Tick(lifeTime, active, dts[0]);
      ReleasedAtMostOnce(s.lifeTime, active && !s.release, dts[1..]);
    }
  }

  lemma SumSnoc(dts: seq<real>, d: real)
    ensures Sum(dts + [d]) == Sum(dts) + d
  {
    assert (dts + [d])[..|dts + [d]| - 1] == dts;
  }

  lemma {:induction false} SumCons(d: real, dts: seq<real>)
    ensures Sum([d] + dts) == d + Sum(dts)
    decreases |dts|
  {
    if dts != [] {
      var front := dts[..|dts| - 1];
      assert dts == front + [dts[|dts| - 1]];
      assert [d] + dts == ([d] + front) + [dts[|dts| - 1]];
      SumSnoc([d] + front, dts[|dts| - 1]);
      SumSnoc(front, dts[|dts| - 1]);
      SumCons(d, front);
    } else {
      assert [d] + dts == [] + [d];
      SumSnoc([], d);
    }
  }

  /** The lifetime an active bullet has left before tick `k`, while no tick
      before `k` has found it spent, is its starting lifetime minus the
      durations of the first `k` ticks. */
  function LeftBefore(lifeTime: real, dts: seq<real>, k: nat): real
    requires k <= |dts|
  {
    lifeTime - Sum(dts[..k])
  }

  /** An active bullet is released on the first tick that finds its
      lifetime at or below zero: every earlier tick still had lifetime left
      and only counted down, so the release never happens on the tick that
      brings the lifetime to zero or below, and the lifetime can end up
      negative. If no tick finds it spent, it is never released. */
  lemma {:induction false} ReleaseTiming(lifeTime: real, dts: seq<real>)
    ensures ReleaseTick(lifeTime, true, dts).Some? ==>
      var k := ReleaseTick(lifeTime, true, dts).value;
      k < |dts| && LeftBefore(lifeTime, dts, k) <= 0.0 &&
      forall j :: 0 <= j < k ==> LeftBefore(lifeTime, dts, j) > 0.0
    ensures ReleaseTick(lifeTime, true, dts).None? ==>
      forall j :: 0 <= j < |dts| ==> LeftBefore(lifeTime, dts, j) > 0.0
    decreases |dts|
  {
    if dts != [] {
      assert dts[..0] == [];
      var d := dts[0];
      if lifeTime > 0.0 {
        ReleaseTiming(lifeTime - d, dts[1..]);
        forall j | 0 < j <= |dts|
          ensures LeftBefore(lifeTime, dts, j) == LeftBefore(lifeTime - d, dts[1..], j - 1)
        {
          assert dts[..j] == [d] + dts[1..][..j - 1];
          SumCons(d, dts[1..][..j - 1]);
        }
      }
    }
  }

  /** What a trigger contact reveals about the other collider: the team of
      its `UnitBaseModule` when it has one (every damageable in this code
      base is a unit), its `PlayerBaseModule` when it has one, and its
      layer. */
  datatype TargetView = TargetView(unitTeam: Option<Team>, player: Option<PlayerLink>, layer: int)

  /** A player's `connectionToClient`: a connection with an id, or null
      (as on a client, where the server's connections do not exist). */
  datatype PlayerLink = Connected(connectionId: int) | Unconnected

  /** What `OnTriggerEnter2D` does. */
  datatype HitOutcome = NoEffect | ReleaseOnly | DamageAndRelease | NullReference

  /** The team rule: a unit of another team is damaged and the bullet
      released; anything else is left alone. */
  function TeamRule(team: Team, t: TargetView): HitOutcome
  {
    if t.unitTeam.Some? && t.unitTeam.value != team then DamageAndRelease else NoEffect
  }

  /** `OnTriggerEnter2D`'s decision. A bullet with an owner damages any
      player but its owner, without looking at teams; every other
      damageable contact, including the owner, goes to the team rule; a
      non-damageable obstacle stops the bullet. */
  function HitRule(ownerId: int, team: Team, t: TargetView, obstacleLayer: int): (o: HitOutcome)
    ensures t.unitTeam.None? ==> (o == ReleaseOnly <==> t.layer == obstacleLayer) && (o == NoEffect <==> t.layer != obstacleLayer)
    ensures o == NullReference <==> t.unitTeam.Some? && ownerId != -1 && t.player == Some(Unconnected)
  {
    if t.unitTeam.Some? then
      if ownerId != -1 && t.player.Some? then
        match t.player.value
        case Unconnected => NullReference
        case Connected(id) => if id != ownerId then DamageAndRelease else TeamRule(team, t)
      else TeamRule(team, t)
    else if t.layer == obstacleLayer then ReleaseOnly
    else NoEffect
  }

  /** A bullet with an owner damages and stops at any other player, even a
      team mate. */
  lemma OtherPlayerAlwaysHit(ownerId: int, team: Team, unitTeam: Team, id: int, layer: int, obstacleLayer: int)
    requires ownerId != -1 && id != ownerId
    ensures HitRule(ownerId, team, TargetView(Some(unitTeam), Some(Connected(id)), layer), obstacleLayer) == DamageAndRelease
  {
  }

  /** The owner's own player falls through to the team rule: it is damaged
      exactly when its team differs from the bullet's. */
  lemma OwnerFallsThroughToTeamRule(ownerId: int, team: Team, unitTeam: Team, layer: int, obstacleLayer: int)
    ensures HitRule(ownerId, team, TargetView(Some(unitTeam), Some(Connected(ownerId)), layer), obstacleLayer)
         == (if unitTeam != team then DamageAndRelease else NoEffect)
  {
  }

  /** Without the player exemption, a unit of the bullet's own team takes
      no damage and does not stop the bullet; a unit of another team does
      both. */
  lemma TeamRuleDecides(ownerId: int, team: Team, t: TargetView, obstacleLayer: int)
    requires t.unitTeam.Some?
    requires ownerId == -1 || t.player.None? || t.player == Some(Connected(ownerId))
    ensures HitRule(ownerId, team, t, obstacleLayer) == (if t.unitTeam.value == team then NoEffect else DamageAndRelease)
  {
  }
}
