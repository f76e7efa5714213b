/** `MonkeyObject`: one monkey (the player, the manager or a rider). Each
    operation is specified by a function on `MonkeyState`, the value of all the
    fields the source updates; the class `MonkeyObject` holds those fields and
    its methods update them step by step. What the monkey asks of the
    controller (`AwardScore`, `OnMonkeyFinishedMoving`, ...) is appended to an
    event log rather than performed. */
module Monkey {
  import opened Domain
  import opened Util

  // ----- numbers as C# sees them -----

  function Abs(x: real): (r: real)
    ensures r >= 0.0 && (r == x || r == -x)
  {
    if x < 0.0 then -x else x
  }

  /** The `(int)` cast of C#: truncation toward zero, not `Floor`. */
  function Trunc(x: real): (n: int)
    ensures Abs(n as real) <= Abs(x) < Abs(n as real) + 1.0
    ensures x >= 0.0 ==> n >= 0
    ensures x <= 0.0 ==> n <= 0
  {
    if x >= 0.0 then x.Floor else -((-x).Floor)
  }

  // ----- sprites chosen for a rider -----

  datatype Colour = Red | Blue | Green
  datatype ItemKind = Book | Flask
  datatype Item = Item(kind: ItemKind, colour: Colour)

  /** The item sprite a rider carries for its desired floor. */
  function ItemSprite(f: FloorName): Item {
    match f
    case LIBRARY_RED => Item(Book, Red)
    case LIBRARY_BLUE => Item(Book, Blue)
    case LIBRARY_GREEN => Item(Book, Green)
    case ALCHEMY_RED => Item(Flask, Red)
    case ALCHEMY_BLUE => Item(Flask, Blue)
    case ALCHEMY_GREEN => Item(Flask, Green)
  }

  /** The hat sprite a rider wears for its desired floor. */
  function HatSprite(f: FloorName): Colour {
    match f
    case LIBRARY_RED => Red
    case LIBRARY_BLUE => Blue
    case LIBRARY_GREEN => Green
    case ALCHEMY_RED => Red
    case ALCHEMY_BLUE => Blue
    case ALCHEMY_GREEN => Green
  }

  predicate IsLibrary(f: FloorName) {
    f == LIBRARY_RED || f == LIBRARY_BLUE || f == LIBRARY_GREEN
  }

  function ColourOf(f: FloorName): Colour {
    if f == LIBRARY_RED || f == ALCHEMY_RED then Red
    else if f == LIBRARY_BLUE || f == ALCHEMY_BLUE then Blue
    else Green
  }

  /** Library floors give books, alchemy floors flasks, in the floor's colour. */
  lemma ItemSpriteByFloor(f: FloorName)
    ensures ItemSprite(f).kind == (if IsLibrary(f) then Book else Flask)
    ensures ItemSprite(f).colour == ColourOf(f)
  {
  }

  /** The hat tells only the colour of the floor. */
  lemma HatSpriteByColour(f: FloorName, g: FloorName)
    ensures HatSprite(f) == ColourOf(f)
    ensures ColourOf(f) == ColourOf(g) ==> HatSprite(f) == HatSprite(g)
  {
  }

  /** The item tells the whole floor. */
  lemma ItemSpriteInjective(f: FloorName, g: FloorName)
    requires ItemSprite(f) == ItemSprite(g)
    ensures f == g
  {
  }

  // ----- observable effects -----

  /** Calls a monkey makes into the controller (and, once, into the spell). */
  datatype ControllerCall =
    | AwardScore(isAngry: bool, position: Vector3)
    | OnMonkeyFinishedMoving
    | DestroyMonkey
    | GoToGameOverScreenPhase
    | GoToMonkeyMovementPhase
    | SpellStartFading

  /** Which family of clips `MakeNoise` picks from; the clip itself, its pitch
      and its delay are random. */
  datatype NoiseKind = AngryNoise | TalkingNoise | HappyNoise

  // ----- state -----

  datatype MonkeyState = MonkeyState(
    position: Vector3,
    moveSpeed: real,
    monkeyType: MonkeyType,
    desiredFloorName: FloorName,
    targetPosition: Option<real>,
    isAngry: bool,
    stage: int,
    speechShown: bool,
    speechText: string,
    itemSprite: Option<Item>,
    hatSprite: Option<Colour>,
    sortingOrder: Option<int>,
    calls: seq<ControllerCall>,
    noises: seq<NoiseKind>)
  {
    /** `IsMoving`: a target position is set. */
    predicate IsMoving() {
      targetPosition.Some?
    }
  }

  /** A monkey just instantiated at `position`, with the field initialisers'
      values. Sprites and sorting order left at `None` are the prefab's. */
  function Spawned(position: Vector3): MonkeyState {
    MonkeyState(position, 6.0, PLAYER, DefaultFloor, None, false, 0, false, "",
                None, None, None, [], [])
  }

  function MovingTo(s: MonkeyState, newPosition: real): MonkeyState {
    s.(targetPosition := Some(newPosition))
  }

  function NoiseFor(s: MonkeyState): NoiseKind {
    if s.isAngry then AngryNoise
    else if s.monkeyType == MANAGER then TalkingNoise
    else HappyNoise
  }

  function WithNoise(s: MonkeyState): MonkeyState {
    s.(noises := s.noises + [NoiseFor(s)])
  }

  /** `InitRiderMonkey`, given the speed jitter and the target the random
      draws produced. */
  function RiderInitialized(s: MonkeyState, f: FloorName, speedJitter: real, targetDraw: real): MonkeyState {
    MovingTo(s.(moveSpeed := 6.0 + speedJitter, desiredFloorName := f,
                itemSprite := Some(ItemSprite(f)), hatSprite := Some(HatSprite(f))),
             targetDraw)
  }

  /** `Init`. Only a rider reaches the sorting-order assignment. */
  function Initialized(s: MonkeyState, t: MonkeyType, desired: Option<FloorName>,
                       speedJitter: real, targetDraw: real, cfg: Constants): MonkeyState
  {
    var s1 := s.(monkeyType := t);
    match t
    case PLAYER => MovingTo(s1.(moveSpeed := 8.0), cfg.standingSpotPlayer)
    case MANAGER => MovingTo(s1, cfg.standingSpotManager)
    case RIDER =>
      var f := if desired.Some? then desired.value else DefaultFloor;
      var s2 := RiderInitialized(s1, f, speedJitter, targetDraw);
      s2.(sortingOrder := Some(Trunc(Abs(s2.position.y) * 1000.0)))
  }

  /** `LeaveAngrily`. */
  function LeftAngrily(s: MonkeyState, cfg: Constants): MonkeyState {
    if s.monkeyType != RIDER then s
    else MovingTo(WithNoise(s.(isAngry := true)), cfg.offScreenHorizontalPosition)
  }

  /** `OnLiftArrivedAtFloor`, with the controller's current floor. */
  function ArrivedAtFloor(s: MonkeyState, currentFloor: FloorName, cfg: Constants): MonkeyState {
    if s.monkeyType != RIDER then s
    else
      var s1 :=
        if currentFloor == s.desiredFloorName then
          MovingTo(s.(calls := s.calls + [AwardScore(s.isAngry, s.position)], isAngry := false),
                   cfg.offScreenHorizontalPosition)
        else
          s.(isAngry := true);
      WithNoise(s1)
  }

  /** `UpdateMovement` for one frame lasting `deltaTime`. */
  function Moved(s: MonkeyState, target: real, deltaTime: real, cfg: Constants): MonkeyState {
    var pos := s.position;
    var distanceToMove := s.moveSpeed * deltaTime;
    if Abs(pos.x - target) <= distanceToMove then
      var s1 := s.(position := WithX(pos, target), targetPosition := None,
                   calls := s.calls + [OnMonkeyFinishedMoving]);
      if Trunc(target) == Trunc(cfg.offScreenHorizontalPosition) then
        s1.(calls := s1.calls + [DestroyMonkey])
      else if s.monkeyType == MANAGER then
        WithNoise(s1)
      else
        s1
    else
      var dx := if target > pos.x then distanceToMove else -distanceToMove;
      s.(position := Vector3(pos.x + dx, pos.y + 0.0, pos.z + 0.0))
  }

  /** The manager's line for a dialogue stage. */
  function SpeechText(stage: int, playerFailed: bool): string {
    if stage == 0 then (if playerFailed then "LIFT TOO HEAVY, THIS BAD!" else "TAKE MONKEY TO FLOOR")
    else if stage == 1 then (if playerFailed then "YOU FIRED!" else "LIFT WEIGHT MATTER!")
    else if stage == 2 then "LIGHT IS THE WAY!!!"
    else ""
  }

  /** `UpdateManager`, in game phase `phase`, with `anyKeyPressed` the value
      of `Util.IsAnyKeyPressed` for the frame. */
  function ManagerStepped(s: MonkeyState, phase: GamePhase, anyKeyPressed: bool, cfg: Constants): MonkeyState {
    var playerFailed := phase == PLAYER_FAILED;
    if phase != INTRO && !playerFailed then s
    else
      var s1 := s.(isAngry := playerFailed);
      if s1.stage > 2 then
        var requests := if playerFailed then [GoToGameOverScreenPhase]
                        else [GoToMonkeyMovementPhase, SpellStartFading];
        MovingTo(s1.(speechShown := false, calls := s1.calls + requests), cfg.offScreenHorizontalPosition)
      else
        var s2 :=
          if anyKeyPressed then
            var t := s1.(stage := s1.stage + 1);
            if t.stage <= 2 then WithNoise(t) else t
          else s1;
        s2.(speechShown := true, speechText := SpeechText(s2.stage, playerFailed))
  }

  /** `Update`: walk while a target is set; otherwise a manager runs its
      dialogue (the player's and riders' idle work is only sprites). */
  function Updated(s: MonkeyState, phase: GamePhase, anyKeyPressed: bool, deltaTime: real,
                   cfg: Constants): MonkeyState
  {
    if s.targetPosition.Some? then Moved(s, s.targetPosition.value, deltaTime, cfg)
    else if s.monkeyType == MANAGER then ManagerStepped(s, phase, anyKeyPressed, cfg)
    else s
  }

  /** The state after `n` frames of `deltaTime` in which `Update` takes its
      moving branch, stopping once the target is reached. */
  function Walk(s: MonkeyState, deltaTime: real, cfg: Constants, n: nat): MonkeyState
    decreases n
  {
    if n == 0 || s.targetPosition.None? then s
    else Walk(Moved(s, s.targetPosition.value, deltaTime, cfg), deltaTime, cfg, n - 1)
  }

  // ----- properties -----

  /** `StartMovingTo` sets the target and so makes the monkey moving. */
  lemma StartMovingToMakesMoving(s: MonkeyState, p: real)
    ensures MovingTo(s, p).IsMoving() && MovingTo(s, p).targetPosition == Some(p)
    ensures MovingTo(s, p).(targetPosition := s.targetPosition) == s
  {
  }

  lemma InitPlayer(s: MonkeyState, desired: Option<FloorName>, j: real, d: real, cfg: Constants)
    ensures var r := Initialized(s, PLAYER, desired, j, d, cfg);
      r == s.(monkeyType := PLAYER, moveSpeed := 8.0, targetPosition := Some(cfg.standingSpotPlayer))
  {
  }

  lemma InitManager(s: MonkeyState, desired: Option<FloorName>, j: real, d: real, cfg: Constants)
    ensures var r := Initialized(s, MANAGER, desired, j, d, cfg);
      r == s.(monkeyType := MANAGER, targetPosition := Some(cfg.standingSpotManager))
  {
  }

  /** A rider walks to the drawn point of the lift, carries the item and hat
      of its floor (the first floor when none is given) and is sorted by its
      height. With the draws in Unity's ranges it targets a point of the lift
      and walks at 5 to 7 units a second. */
  lemma InitRider(s: MonkeyState, desired: Option<FloorName>, j: real, d: real, cfg: Constants)
    ensures var r := Initialized(s, RIDER, desired, j, d, cfg);
      var f := if desired.Some? then desired.value else DefaultFloor;
      r == s.(monkeyType := RIDER, desiredFloorName := f, moveSpeed := 6.0 + j,
              targetPosition := Some(d),
              itemSprite := Some(ItemSprite(f)), hatSprite := Some(HatSprite(f)),
              sortingOrder := Some(Trunc(Abs(s.position.y) * 1000.0)))
    ensures cfg.liftMaxLeftPosition <= d <= cfg.liftMaxRightPosition ==>
      var r := Initialized(s, RIDER, desired, j, d, cfg);
      cfg.liftMaxLeftPosition <= r.targetPosition.value <= cfg.liftMaxRightPosition
    ensures -1.0 <= j <= 1.0 ==> 5.0 <= Initialized(s, RIDER, desired, j, d, cfg).moveSpeed <= 7.0
  {
  }

  /** Only a rider's initialisation touches the sorting order. */
  lemma InitSortingOrderOnlyForRiders(s: MonkeyState, t: MonkeyType, desired: Option<FloorName>,
                                      j: real, d: real, cfg: Constants)
    ensures Initialized(s, t, desired, j, d, cfg).sortingOrder != s.sortingOrder ==> t == RIDER
    ensures s.sortingOrder.None? ==> (Initialized(s, t, desired, j, d, cfg).sortingOrder.Some? <==> t == RIDER)
  {
  }

  lemma LeaveAngrilyEffect(s: MonkeyState, cfg: Constants)
    ensures s.monkeyType != RIDER ==> LeftAngrily(s, cfg) == s
    ensures s.monkeyType == RIDER ==>
      LeftAngrily(s, cfg) == s.(isAngry := true, targetPosition := Some(cfg.offScreenHorizontalPosition),
                                noises := s.noises + [AngryNoise])
  {
  }

  /** Leaving angrily twice is leaving once, apart from the second noise. */
  lemma LeaveAngrilyIdempotent(s: MonkeyState, cfg: Constants)
    ensures var once := LeftAngrily(s, cfg);
      LeftAngrily(once, cfg).(noises := once.noises) == once
  {
  }

  lemma ArrivalIgnoredByNonRiders(s: MonkeyState, currentFloor: FloorName, cfg: Constants)
    requires s.monkeyType != RIDER
    ensures ArrivedAtFloor(s, currentFloor, cfg) == s
  {
  }

  /** On its floor a rider is scored once, with the mood it had when the lift
      arrived, then calms down and walks off. */
  lemma ArrivalAtDesiredFloor(s: MonkeyState, cfg: Constants)
    requires s.monkeyType == RIDER
    ensures var r := ArrivedAtFloor(s, s.desiredFloorName, cfg);
      r == s.(calls := s.calls + [AwardScore(s.isAngry, s.position)], isAngry := false,
              targetPosition := Some(cfg.offScreenHorizontalPosition),
              noises := s.noises + [HappyNoise])
  {
  }

  /** Anywhere else a rider gets angry and stays where it was heading. */
  lemma ArrivalAtOtherFloor(s: MonkeyState, currentFloor: FloorName, cfg: Constants)
    requires s.monkeyType == RIDER && currentFloor != s.desiredFloorName
    ensures ArrivedAtFloor(s, currentFloor, cfg) == s.(isAngry := true, noises := s.noises + [AngryNoise])
  {
  }

  /** Within one step the monkey lands exactly on the target, stops, tells the
      controller once, and is destroyed exactly when the target truncates to
      the off-screen position. */
  lemma MoveNear(s: MonkeyState, target: real, dt: real, cfg: Constants)
    requires Abs(s.position.x - target) <= s.moveSpeed * dt
    ensures var r := Moved(s, target, dt, cfg);
      var destroyed := Trunc(target) == Trunc(cfg.offScreenHorizontalPosition);
      && r.position == WithX(s.position, target)
      && r.targetPosition == None
      && r.calls == s.calls + [OnMonkeyFinishedMoving] + (if destroyed then [DestroyMonkey] else [])
      && r.noises == (if !destroyed && s.monkeyType == MANAGER then s.noises + [NoiseFor(s)] else s.noises)
      && r.(position := s.position, targetPosition := s.targetPosition, calls := s.calls, noises := s.noises) == s
  {
  }

  /** Farther away the monkey moves exactly one step toward the target and
      does not pass it. */
  lemma MoveFar(s: MonkeyState, target: real, dt: real, cfg: Constants)
    requires s.moveSpeed * dt >= 0.0
    requires Abs(s.position.x - target) > s.moveSpeed * dt
    ensures var r := Moved(s, target, dt, cfg);
      && Abs(r.position.x - target) == Abs(s.position.x - target) - s.moveSpeed * dt
      && (s.position.x < target <==> r.position.x < target)
      && r.position.y == s.position.y && r.position.z == s.position.z
      && r.(position := s.position) == s
  {
  }

  /** The compare is by truncation: a target of -0.5 counts as the off-screen
      position 0.5 (a compare of their floors, -1 and 0, would not). */
  lemma DestroyComparesTruncation(s: MonkeyState, dt: real, cfg: Constants)
    requires cfg.offScreenHorizontalPosition == 0.5
    requires Abs(s.position.x + 0.5) <= s.moveSpeed * dt
    ensures DestroyMonkey in Moved(s, -0.5, dt, cfg).calls[|s.calls|..]
  {
    assert Trunc(-0.5) == 0 && Trunc(0.5) == 0;
    MoveNear(s, -0.5, dt, cfg);
    var r := Moved(s, -0.5, dt, cfg);
    assert r.calls[|s.calls|..] == [OnMonkeyFinishedMoving, DestroyMonkey];
  }

  /** With a positive step, a monkey that is at most `n + 1` steps away has
      reached its target after `n + 1` walking frames. */
  lemma {:induction false} WalkReachesTarget(s: MonkeyState, dt: real, cfg: Constants, n: nat)
    requires s.targetPosition.Some?
    requires s.moveSpeed * dt > 0.0
    requires Abs(s.position.x - s.targetPosition.value) <= (n as real + 1.0) * (s.moveSpeed * dt)
    ensures Walk(s, dt, cfg, n + 1).targetPosition == None
    ensures Walk(s, dt, cfg, n + 1).position.x == s.targetPosition.value
    decreases n
  {
    var t, step := s.targetPosition.value, s.moveSpeed * dt;
    var s' := Moved(s, t, dt, cfg);
    if Abs(s.position.x - t) <= step {
      MoveNear(s, t, dt, cfg);
      assert Walk(s', dt, cfg, n) == s';
    } else {
      MoveFar(s, t, dt, cfg);
      assert (n as real + 1.0) * step == n as real * step + step;
      assert n > 0;
      WalkReachesTarget(s', dt, cfg, n - 1);
    }
  }

  lemma ManagerIdleOutsideDialoguePhases(s: MonkeyState, phase: GamePhase, anyKey: bool, cfg: Constants)
    requires phase != INTRO && phase != PLAYER_FAILED
    ensures ManagerStepped(s, phase, anyKey, cfg) == s
  {
  }

  /** During the dialogue the manager's anger shows whether the player failed,
      a key press advances the stage by exactly one, and the bubble shows the
      stage's line. */
  lemma ManagerDialogueStep(s: MonkeyState, phase: GamePhase, anyKey: bool, cfg: Constants)
    requires phase == INTRO || phase == PLAYER_FAILED
    requires s.stage <= 2
    ensures var r := ManagerStepped(s, phase, anyKey, cfg);
      var st := s.stage + (if anyKey then 1 else 0);
      r == s.(isAngry := phase == PLAYER_FAILED, stage := st,
              speechShown := true, speechText := SpeechText(st, phase == PLAYER_FAILED),
              noises := if anyKey && s.stage < 2 then s.noises + [NoiseFor(r)] else s.noises)
  {
  }

  /** Past the last stage the manager hides the bubble, requests the next
      phase (game over after a failure) once, and walks off. */
  lemma ManagerDialogueEnd(s: MonkeyState, phase: GamePhase, anyKey: bool, cfg: Constants)
    requires phase == INTRO || phase == PLAYER_FAILED
    requires s.stage > 2
    ensures var r := ManagerStepped(s, phase, anyKey, cfg);
      && r == s.(isAngry := phase == PLAYER_FAILED, speechShown := false,
                 calls := s.calls + (if phase == PLAYER_FAILED then [GoToGameOverScreenPhase]
                                     else [GoToMonkeyMovementPhase, SpellStartFading]),
                 targetPosition := Some(cfg.offScreenHorizontalPosition))
      && r.IsMoving()
  {
  }

  /** While moving, `Update` only walks: the dialogue does not run, so its
      stage, bubble and phase requests are untouched. */
  lemma UpdateWhileMovingOnlyWalks(s: MonkeyState, phase: GamePhase, anyKey: bool, dt: real, cfg: Constants)
    requires s.IsMoving()
    ensures var r := Updated(s, phase, anyKey, dt, cfg);
      && r == Moved(s, s.targetPosition.value, dt, cfg)
      && r.stage == s.stage && r.speechShown == s.speechShown && r.speechText == s.speechText
      && r.isAngry == s.isAngry
      && r.calls[..|s.calls|] == s.calls
      && forall i :: |s.calls| <= i < |r.calls| ==> r.calls[i] == OnMonkeyFinishedMoving || r.calls[i] == DestroyMonkey
  {
  }

  /** The intro dialogue from its start: a frame without a key press shows
      the first line; since the stage is raised before the text is chosen,
      the three presses that follow show the second and third lines and then
      an empty bubble, and the next frame asks once for the monkey-movement
      phase. */
  lemma IntroDialogue(s: MonkeyState, dt: real, cfg: Constants)
    requires s.monkeyType == MANAGER && !s.IsMoving() && s.stage == 0
    ensures var s0 := Updated(s, INTRO, false, dt, cfg);
      var s1 := Updated(s0, INTRO, true, dt, cfg);
      var s2 := Updated(s1, INTRO, true, dt, cfg);
      var s3 := Updated(s2, INTRO, true, dt, cfg);
      var s4 := Updated(s3, INTRO, false, dt, cfg);
      && s0.speechShown && s0.speechText == "TAKE MONKEY TO FLOOR" && s0.stage == 0
      && s1.speechText == "LIFT WEIGHT MATTER!" && s2.speechText == "LIGHT IS THE WAY!!!"
      && s3.speechText == "" && s3.stage == 3 && s3.calls == s.calls
      && s3.noises == s.noises + [TalkingNoise, TalkingNoise]
      && s4.calls == s.calls + [GoToMonkeyMovementPhase, SpellStartFading]
      && s4.IsMoving() && !s4.speechShown
  {
  }

  // ----- the object -----

  class MonkeyObject {
    var position: Vector3
    var moveSpeed: real
    var monkeyType: MonkeyType
    var desiredFloorName: FloorName
    var targetPosition: Option<real>
    var isAngry: bool
    var managerIntroConversationStage: int
    var speechShown: bool
    var speechText: string
    var itemSprite: Option<Item>
    var hatSprite: Option<Colour>
    var sortingOrder: Option<int>
    var calls: seq<ControllerCall>
    var noises: seq<NoiseKind>

    function State(): MonkeyState
      reads this
    {
      MonkeyState(position, moveSpeed, monkeyType, desiredFloorName, targetPosition, isAngry,
                  managerIntroConversationStage, speechShown, speechText, itemSprite, hatSprite,
                  sortingOrder, calls, noises)
    }

    /** Instantiation of the prefab at `position`. */
    constructor (position: Vector3)
      ensures State() == Spawned(position)
    {
      this.position := position;
      moveSpeed := 6.0;
      monkeyType := PLAYER;
      desiredFloorName := DefaultFloor;
      targetPosition := None;
      isAngry := false;
      managerIntroConversationStage := 0;
      speechShown := false;
      speechText := "";
      itemSprite := None;
      hatSprite := None;
      sortingOrder := None;
      calls := [];
      noises := [];
    }

    /** `IsMoving`: a target position is set. */
    predicate IsMoving()
      reads this
      ensures IsMoving() <==> targetPosition.Some?
    {
      State().IsMoving()
    }

    method StartMovingTo(newPosition: real)
      modifies this
      ensures State() == MovingTo(old(State()), newPosition)
    {
      targetPosition := Some(newPosition);
    }

    method MakeNoise()
      modifies this
      ensures State() == WithNoise(old(State()))
    {
      var kind := if isAngry then AngryNoise
                  else if monkeyType == MANAGER then TalkingNoise
                  else HappyNoise;
      noises := noises + [kind];
    }

    method Init(t: MonkeyType, desired: Option<FloorName>, speedJitter: real, targetDraw: real, cfg: Constants)
      modifies this
      ensures State() == Initialized(old(State()), t, desired, speedJitter, targetDraw, cfg)
    {
      monkeyType := t;
      match t {
        case PLAYER =>
          moveSpeed := 8.0;
          StartMovingTo(cfg.standingSpotPlayer);
          return;
        case MANAGER =>
          StartMovingTo(cfg.standingSpotManager);
          return;
        case RIDER =>
          InitRiderMonkey(if desired.Some? then desired.value else DefaultFloor, speedJitter, targetDraw);
      }
      sortingOrder := Some(Trunc(Abs(position.y) * 1000.0));
    }

    method InitRiderMonkey(f: FloorName, speedJitter: real, targetDraw: real)
      modifies this
      ensures State() == RiderInitialized(old(State()), f, speedJitter, targetDraw)
    {
      moveSpeed := 6.0 + speedJitter;
      desiredFloorName := f;
      itemSprite := Some(ItemSprite(f));
      hatSprite := Some(HatSprite(f));
      StartMovingTo(targetDraw);
    }

    method LeaveAngrily(cfg: Constants)
      modifies this
      ensures State() == LeftAngrily(old(State()), cfg)
    {
      if monkeyType != RIDER {
        return;
      }
      isAngry := true;
      MakeNoise();
      StartMovingTo(cfg.offScreenHorizontalPosition);
    }

    method OnLiftArrivedAtFloor(currentFloor: FloorName, cfg: Constants)
      modifies this
      ensures State() == ArrivedAtFloor(old(State()), currentFloor, cfg)
    {
      if monkeyType != RIDER {
        return;
      }
      if currentFloor == desiredFloorName {
        calls := calls + [AwardScore(isAngry, position)];
        isAngry := false;
        StartMovingTo(cfg.offScreenHorizontalPosition);
      } else {
        isAngry := true;
      }
      MakeNoise();
    }

    method Update(phase: GamePhase, anyKeyPressed: bool, deltaTime: real, cfg: Constants)
      modifies this
      ensures State() == Updated(old(State()), phase, anyKeyPressed, deltaTime, cfg)
    {
      if targetPosition.Some? {
        UpdateMovement(targetPosition.value, deltaTime, cfg);
      } else if monkeyType == MANAGER {
        UpdateManager(phase, anyKeyPressed, cfg);
      }
    }

    method UpdateManager(phase: GamePhase, anyKeyPressed: bool, cfg: Constants)
      modifies this
      ensures State() == ManagerStepped(old(State()), phase, anyKeyPressed, cfg)
    {
      var playerFailed := phase == PLAYER_FAILED;
      if phase != INTRO && !playerFailed {
        return;
      }
      isAngry := playerFailed;
      if managerIntroConversationStage > 2 {
        speechShown := false;
        if playerFailed {
          calls := calls + [GoToGameOverScreenPhase];
        } else {
          calls := calls + [GoToMonkeyMovementPhase];
          calls := calls + [SpellStartFading];
        }
        StartMovingTo(cfg.offScreenHorizontalPosition);
        return;
      }
      if anyKeyPressed {
        managerIntroConversationStage := managerIntroConversationStage + 1;
        if managerIntroConversationStage <= 2 {
          MakeNoise();
        }
      }
      speechShown := true;
      speechText := SpeechText(managerIntroConversationStage, playerFailed);
    }

    method UpdateMovement(target: real, deltaTime: real, cfg: Constants)
      modifies this
      ensures State() == Moved(old(State()), target, deltaTime, cfg)
    {
      var pos := position;
      var distanceToTarget := pos.x - target;
      var distanceToMove := moveSpeed * deltaTime;
      if Abs(distanceToTarget) <= distanceToMove {
        position := WithX(pos, target);
        targetPosition := None;
        calls := calls + [OnMonkeyFinishedMoving];
        if Trunc(target) == Trunc(cfg.offScreenHorizontalPosition) {
          calls := calls + [DestroyMonkey];
        } else if monkeyType == MANAGER {
          MakeNoise();
        }
        return;
      }
      var dx := if target > pos.x then distanceToMove else -distanceToMove;
      position := Vector3(pos.x + dx, pos.y + 0.0, pos.z + 0.0);
    }
  }
}
