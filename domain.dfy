/** Types shared by every part of the game that are declared outside the
    files modelled here: the floors, the kinds of monkey, the game phases,
    and the scene configuration that the source reads from `Constants`. */
module Domain {

  datatype Option<T> = None | Some(value: T)

  /** The six floors, in the order the source's switches list them. */
  datatype FloorName =
    | LIBRARY_RED | LIBRARY_BLUE | LIBRARY_GREEN
    | ALCHEMY_RED | ALCHEMY_BLUE | ALCHEMY_GREEN

  /** The floor values the controller draws from. The controller enumerates
      an enum `Floor` that no modelled file declares; it is read here as the
      six floor names, in the order the monkey's switches list them. */
  const AllFloors: seq<FloorName> :=
    [LIBRARY_RED, LIBRARY_BLUE, LIBRARY_GREEN, ALCHEMY_RED, ALCHEMY_BLUE, ALCHEMY_GREEN]

  /** The value `GetValueOrDefault` yields for a missing floor: the enum's
      first member. */
  const DefaultFloor: FloorName := LIBRARY_RED

  datatype MonkeyType = PLAYER | MANAGER | RIDER

  datatype GamePhase =
    | INTRO | PLAYER_INPUT | LIFT_MOVEMENT | LIFT_MOVEMENT_FAILED
    | MONKEY_MOVEMENT | PLAYER_FAILED | GAME_OVER_SCREEN

  /** Scene configuration. The controller spells these `LiftMaxLeftPosition`,
      `OffScreenPosition`, ...; the monkey spells them `liftMaxLeftPosition`,
      `offScreenHorizontalPosition`, ...; both read the same values here. */
  datatype Constants = Constants(
    liftMaxLeftPosition: real,
    liftMaxRightPosition: real,
    offScreenHorizontalPosition: real,
    floorHeight: real,
    standingSpotPlayer: real,
    standingSpotManager: real)

  lemma AllFloorsEnumeratesFloorName(f: FloorName)
    ensures |AllFloors| == 6
    ensures f in AllFloors
    ensures forall i, j :: 0 <= i < j < |AllFloors| ==> AllFloors[i] != AllFloors[j]
  {
  }
}
