/** `BulletProperties` assets and the process-wide registry they are loaded
    into (`BulletProperties.Bullets`, `BulletProperties.Loaded`). */
module BulletAssets {
  import opened Wrappers
  import opened Core

  /** A `BulletProperties` asset: its asset `name`, the address of the
      bullet prefab it pools, and its tuning values. */
  datatype BulletProperties = BulletProperties(
    name: string,
    bulletPath: string,
    speed: real,
    damageMultiplier: real,
    lifeTime: real)

  const AlreadyLoadedMessage := "BulletProperties is already loaded."

  /** The registry after the load callback has run for each of `assets` in
      turn: each asset is stored under its name. */
  function Registered(bullets: map<string, BulletProperties>, assets: seq<BulletProperties>): map<string, BulletProperties>
    decreases |assets|
  {
    if assets == [] then bullets
    else Registered(bullets[assets[0].name := assets[0]], assets[1..])
  }

  /** Registering `assets` and then one more asset is registering them all. */
  lemma {:induction false} RegisteredSnoc(bullets: map<string, BulletProperties>, assets: seq<BulletProperties>, p: BulletProperties)
    ensures Registered(bullets, assets + [p]) == Registered(bullets, assets)[p.name := p]
    decreases |assets|
  {
    if assets != [] {
      assert (assets + [p])[1..] == assets[1..] + [p];
      RegisteredSnoc(bullets[assets[0].name := assets[0]], assets[1..], p);
    }
  }

  /** The names of `assets`. */
  function Names(assets: seq<BulletProperties>): (ns: set<string>)
    ensures forall i :: 0 <= i < |assets| ==> assets[i].name in ns
    ensures forall n :: n in ns ==> exists i :: 0 <= i < |assets| && assets[i].name == n
    decreases |assets|
  {
    if assets == [] then {} else {assets[0].name} + Names(assets[1..])
  }

  /** Loading adds exactly the names of the loaded assets. */
  lemma {:induction false} RegisteredKeys(bullets: map<string, BulletProperties>, assets: seq<BulletProperties>)
    ensures Registered(bullets, assets).Keys == bullets.Keys + Names(assets)
    decreases |assets|
  {
    if assets != [] {
      RegisteredKeys(bullets[assets[0].name := assets[0]], assets[1..]);
    }
  }

  /** A name no loaded asset carries keeps its earlier entry, or stays absent. */
  lemma {:induction false} RegisteredUntouched(bullets: map<string, BulletProperties>, assets: seq<BulletProperties>, name: string)
    requires forall i :: 0 <= i < |assets| ==> assets[i].name != name
    ensures name in Registered(bullets, assets) <==> name in bullets
    ensures name in bullets ==> Registered(bullets, assets)[name] == bullets[name]
    decreases |assets|
  {
    if assets != [] {
      assert assets[0].name != name;
      forall i | 0 <= i < |assets[1..]|
        ensures assets[1..][i].name != name
      {
        assert assets[1..][i] == assets[i + 1];
      }
      RegisteredUntouched(bullets[assets[0].name := assets[0]], assets[1..], name);
    }
  }

  /** The last asset loaded under a name is the one the registry keeps. */
  lemma {:induction false} LastLoadWins(bullets: map<string, BulletProperties>, assets: seq<BulletProperties>, i: nat)
    requires i < |assets|
    requires forall j :: i < j < |assets| ==> assets[j].name != assets[i].name
    ensures assets[i].name in Registered(bullets, assets)
    ensures Registered(bullets, assets)[assets[i].name] == assets[i]
    decreases |assets|
  {
    var name := assets[i].name;
    forall j | 0 <= j < |assets[1..]| && i <= j
      ensures assets[1..][j].name != name
    {
      assert assets[1..][j] == assets[j + 1];
    }
    if i == 0 {
      RegisteredUntouched(bullets[name := assets[0]], assets[1..], name);
    } else {
      assert assets[1..][i - 1] == assets[i];
      LastLoadWins(bullets[assets[0].name := assets[0]], assets[1..], i - 1);
    }
  }

  /** The static state of `BulletProperties`: the `Loaded` flag and the
      `Bullets` dictionary. */
  class BulletRegistry {
    var loaded: bool
    var bullets: map<string, BulletProperties>

    constructor ()
      ensures !loaded && bullets == map[]
    {
      loaded := false;
      bullets := map[];
    }

    /** `BulletProperties.Load()`. A second call throws and changes nothing.
        The first sets `Loaded` before any asset arrives; the asynchronous
        load then runs its callback once per asset of the label, here the
        given `assets` in the order they arrive. */
    method Load(assets: seq<BulletProperties>) returns (o: Outcome<Exception>)
      modifies this
      ensures old(loaded) ==> o == Fail(InvalidOperationException(AlreadyLoadedMessage)) && bullets == old(bullets) && loaded
      ensures !old(loaded) ==> o == Pass && loaded && bullets == Registered(old(bullets), assets)
    {
      if loaded {
        return Fail(InvalidOperationException(AlreadyLoadedMessage));
      }
      loaded := true;
      var i := 0;
      while i < |assets|
        invariant 0 <= i <= |assets|
        invariant loaded
        invariant bullets == Registered(old(bullets), assets[..i])
      {
        assert assets[..i + 1] == assets[..i] + [assets[i]];
        RegisteredSnoc(old(bullets), assets[..i], assets[i]);
        OnAssetLoaded(assets[i]);
        i := i + 1;
      }
      assert assets[..i] == assets;
      o := Pass;
    }

    /** The load callback: stores the asset under its name, replacing any
        earlier asset of that name. */
    method OnAssetLoaded(p: BulletProperties)
      modifies this`bullets
      ensures bullets == old(bullets)[p.name := p]
    {
      bullets := bullets[p.name := p];
    }

    /** `Bullets[name]`, which throws when the name is not registered. */
    function Lookup(name: string): (r: Result<BulletProperties, Exception>)
      reads this
      ensures r.Ok? <==> name in bullets
      ensures r.Ok? ==> r.value == bullets[name]
      ensures r.Err? ==> r.error == KeyNotFoundException(name)
    {
      if name in bullets then Ok(bullets[name]) else Err(KeyNotFoundException(name))
    }
  }
}
