/** `GameControl` as this revision has it: the list of monkeys, the two
    queries over it, and spawning. */
module Game {
  import opened Domain
  import opened Util
  import opened Monkey

  /** Strictly between the two lift bounds; a monkey exactly on a bound is off the lift. */
  predicate OnLift(x: real, cfg: Constants) {
    x < cfg.liftMaxRightPosition && x > cfg.liftMaxLeftPosition
  }

  /** Indices of the listed monkeys that stand on the lift. */
  ghost function OnLiftIndices(ms: seq<MonkeyObject>, cfg: Constants): set<int>
    reads ms
  {
    set i | 0 <= i < |ms| && OnLift(ms[i].position.x, cfg)
  }

  /** LINQ `Count` over the list: counts exactly the monkeys on the lift. */
  function CountOnLift(ms: seq<MonkeyObject>, cfg: Constants): (n: int)
    reads ms
    ensures 0 <= n <= |ms|
    ensures n == |OnLiftIndices(ms, cfg)|
    decreases |ms|
  {
    if ms == [] then 0
    else
      var init := ms[..|ms| - 1];
      var last := |ms| - 1;
      var here := OnLift(ms[last].position.x, cfg);
      assert OnLiftIndices(ms, cfg) == OnLiftIndices(init, cfg) + (if here then {last} else {});
      CountOnLift(init, cfg) + (if here then 1 else 0)
  }

  /** LINQ `Any` over the list: some listed monkey has a target. */
  function AnyMoving(ms: seq<MonkeyObject>): (r: bool)
    reads ms
    ensures r <==> exists i :: 0 <= i < |ms| && ms[i].IsMoving()
    decreases |ms|
  {
    if ms == [] then false
    else
      var init := ms[..|ms| - 1];
      assert forall i :: 0 <= i < |init| ==> init[i] == ms[i];
      AnyMoving(init) || ms[|ms| - 1].IsMoving()
  }

  /** Adding one monkey adds one to the count exactly when it is on the lift. */
  lemma CountOnLiftAppend(ms: seq<MonkeyObject>, m: MonkeyObject, cfg: Constants)
    ensures CountOnLift(ms + [m], cfg) == CountOnLift(ms, cfg) + (if OnLift(m.position.x, cfg) then 1 else 0)
  {
    assert (ms + [m])[..|ms|] == ms;
  }

  /** A monkey standing exactly on either bound is not counted. */
  lemma BoundsAreExcluded(cfg: Constants)
    ensures !OnLift(cfg.liftMaxLeftPosition, cfg) && !OnLift(cfg.liftMaxRightPosition, cfg)
    ensures cfg.liftMaxLeftPosition < cfg.liftMaxRightPosition ==>
      OnLift((cfg.liftMaxLeftPosition + cfg.liftMaxRightPosition) / 2.0, cfg)
  {
  }

  class GameControl {
    var monkeys: seq<MonkeyObject>

    constructor ()
      ensures monkeys == []
    {
      monkeys := [];
    }

    function CountMonkeysOnLift(cfg: Constants): (n: int)
      reads this, monkeys
      ensures 0 <= n <= |monkeys|
      ensures n == |OnLiftIndices(monkeys, cfg)|
    {
      CountOnLift(monkeys, cfg)
    }

    function AreMonkeysMoving(): (r: bool)
      reads this, monkeys
      ensures r <==> exists i :: 0 <= i < |monkeys| && monkeys[i].IsMoving()
    {
      AnyMoving(monkeys)
    }

    /** `Start`: one monkey is spawned. */
    method Start(cfg: Constants, floorDraw: int, speedJitter: real, targetDraw: real)
      requires 0 <= floorDraw < |AllFloors|
      modifies this
      ensures |monkeys| == |old(monkeys)| + 1 && monkeys[..|old(monkeys)|] == old(monkeys)
      ensures forall i :: 0 <= i < |old(monkeys)| ==> monkeys[i].State() == old(monkeys[i].State())
      ensures var m := monkeys[|monkeys| - 1];
        && fresh(m)
        && m.State() == Initialized(Spawned(Vector3(cfg.offScreenHorizontalPosition, cfg.floorHeight, 0.0)),
                                    RIDER, Some(AllFloors[floorDraw]), speedJitter, targetDraw, cfg)
      ensures var m := monkeys[|monkeys| - 1];
        m.position == Vector3(cfg.offScreenHorizontalPosition, cfg.floorHeight, 0.0)
        && m.desiredFloorName == AllFloors[floorDraw] && m.monkeyType == RIDER
    {
      SpawnMonkey(cfg, floorDraw, speedJitter, targetDraw);
    }

    /** `SpawnMonkey`: a monkey is instantiated off screen at floor height,
        appended, and initialised as a rider for the floor at index
        `floorDraw` (the value `Random.Range(0, allFloors.Length)` drew). */
    method SpawnMonkey(cfg: Constants, floorDraw: int, speedJitter: real, targetDraw: real)
      requires 0 <= floorDraw < |AllFloors|
      modifies this
      ensures |monkeys| == |old(monkeys)| + 1 && monkeys[..|old(monkeys)|] == old(monkeys)
      ensures forall i :: 0 <= i < |old(monkeys)| ==> monkeys[i].State() == old(monkeys[i].State())
      ensures var m := monkeys[|monkeys| - 1];
        && fresh(m)
        && m.State() == Initialized(Spawned(Vector3(cfg.offScreenHorizontalPosition, cfg.floorHeight, 0.0)),
                                    RIDER, Some(AllFloors[floorDraw]), speedJitter, targetDraw, cfg)
      ensures var m := monkeys[|monkeys| - 1];
        m.position == Vector3(cfg.offScreenHorizontalPosition, cfg.floorHeight, 0.0)
        && m.desiredFloorName == AllFloors[floorDraw] && m.monkeyType == RIDER
    {
      var spawnPos := Vector3(cfg.offScreenHorizontalPosition, cfg.floorHeight, 0.0);
      var monkeyObject := new MonkeyObject(spawnPos);
      monkeys := monkeys + [monkeyObject];
      var desiredFloor := AllFloors[floorDraw];
      monkeyObject.Init(RIDER, Some(desiredFloor), speedJitter, targetDraw, cfg);
    }
  }

  /** A controller that starts with no monkeys has exactly one after `Start`:
      a rider for the drawn floor. */
  method StartFromEmpty(cfg: Constants, floorDraw: int, speedJitter: real, targetDraw: real)
    returns (count: int, spawnedType: MonkeyType, spawnedFloor: FloorName)
    requires 0 <= floorDraw < |AllFloors|
    ensures count == 1
    ensures spawnedType == RIDER && spawnedFloor == AllFloors[floorDraw]
  {
    var gc := new GameControl();
    gc.Start(cfg, floorDraw, speedJitter, targetDraw);
    count := |gc.monkeys|;
    spawnedType, spawnedFloor := gc.monkeys[0].monkeyType, gc.monkeys[0].desiredFloorName;
  }
}
