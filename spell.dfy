/** `Spell.Update`: each frame, the pressed direction buttons append their key
    to `lastFourKeysPressed` (in the order Up, Down, Left, Right) and turn
    their arrow green; a released button turns its arrow white. Nothing ever
    removes or caps the keys, whatever the list's name says. */
module Spells {
  import opened Util

  /** `SceneColour` is whatever colour an arrow's renderer has in the scene
      before the spell first recolours it. */
  datatype ArrowColour = White | Green | SceneColour

  datatype Arrows = Arrows(up: ArrowColour, down: ArrowColour, left: ArrowColour, right: ArrowColour)

  datatype SpellState = SpellState(keys: seq<Key>, arrows: Arrows)

  function AddIf(keys: seq<Key>, pressed: bool, k: Key): seq<Key> {
    if pressed then keys + [k] else keys
  }

  /** The list after one frame's presses, checked in the order Up, Down, Left, Right. */
  function Appended(keys: seq<Key>, b: Buttons): seq<Key> {
    AddIf(AddIf(AddIf(AddIf(keys, b.up.pressed, Up), b.down.pressed, Down), b.left.pressed, Left),
          b.right.pressed, Right)
  }

  /** The keys one frame appends. */
  function PressedKeys(b: Buttons): seq<Key> {
    Appended([], b)
  }

  /** An arrow's colour after a frame: the release is checked after the press. */
  function ArrowAfter(c: ArrowColour, e: Edges): ArrowColour {
    if e.released then White else if e.pressed then Green else c
  }

  /** One `Update`. */
  function Step(s: SpellState, b: Buttons): SpellState {
    SpellState(Appended(s.keys, b),
               Arrows(ArrowAfter(s.arrows.up, b.up), ArrowAfter(s.arrows.down, b.down),
                      ArrowAfter(s.arrows.left, b.left), ArrowAfter(s.arrows.right, b.right)))
  }

  /** The state after one `Update` per frame. */
  function Run(s: SpellState, frames: seq<Buttons>): SpellState
    decreases |frames|
  {
    if frames == [] then s else Run(Step(s, frames[0]), frames[1..])
  }

  function EdgesOf(b: Buttons, k: Key): Edges {
    match k
    case Up => b.up
    case Down => b.down
    case Left => b.left
    case Right => b.right
  }

  function PressCount(b: Buttons): nat {
    (if b.up.pressed then 1 else 0) + (if b.down.pressed then 1 else 0)
      + (if b.left.pressed then 1 else 0) + (if b.right.pressed then 1 else 0)
  }

  function TotalPresses(frames: seq<Buttons>): nat
    decreases |frames|
  {
    if frames == [] then 0 else PressCount(frames[0]) + TotalPresses(frames[1..])
  }

  /** One key per pressed button, nothing else, in the order Up, Down, Left, Right. */
  lemma PressedKeysExactly(b: Buttons)
    ensures |PressedKeys(b)| == PressCount(b)
    ensures forall k :: k in PressedKeys(b) <==> EdgesOf(b, k).pressed
    ensures forall i, j :: 0 <= i < j < |PressedKeys(b)| ==> Ord(PressedKeys(b)[i]) < Ord(PressedKeys(b)[j])
  {
  }

  /** A frame appends its pressed keys at the end and keeps the old ones. */
  lemma StepAppends(s: SpellState, b: Buttons)
    ensures Step(s, b).keys == s.keys + PressedKeys(b)
    ensures |Step(s, b).keys| == |s.keys| + PressCount(b)
    ensures Step(s, b).keys[..|s.keys|] == s.keys
    ensures Step(s, b).keys[|s.keys|..] == PressedKeys(b)
  {
    PressedKeysExactly(b);
    assert (s.keys + PressedKeys(b))[|s.keys|..] == PressedKeys(b);
  }

  /** Releases never change the keys. */
  lemma ReleasesKeepKeys(s: SpellState, b: Buttons)
    requires !b.up.pressed && !b.down.pressed && !b.left.pressed && !b.right.pressed
    ensures Step(s, b).keys == s.keys
  {
  }

  /** An arrow is green after its press alone, white after any release
      (a press and release in one frame included), and otherwise kept. */
  lemma ArrowColours(c: ArrowColour, e: Edges)
    ensures e.pressed && !e.released ==> ArrowAfter(c, e) == Green
    ensures e.released ==> ArrowAfter(c, e) == White
    ensures !e.pressed && !e.released ==> ArrowAfter(c, e) == c
  {
  }

  /** Each arrow follows only its own button. */
  lemma ArrowsAreIndependent(s: SpellState, b: Buttons, b': Buttons)
    ensures b.up == b'.up ==> Step(s, b).arrows.up == Step(s, b').arrows.up
    ensures b.down == b'.down ==> Step(s, b).arrows.down == Step(s, b').arrows.down
    ensures b.left == b'.left ==> Step(s, b).arrows.left == Step(s, b').arrows.left
    ensures b.right == b'.right ==> Step(s, b).arrows.right == Step(s, b').arrows.right
  {
  }

  /** Over any number of frames the list only grows, by one key per press. */
  lemma {:induction false} RunOnlyGrows(s: SpellState, frames: seq<Buttons>)
    ensures |Run(s, frames).keys| == |s.keys| + TotalPresses(frames)
    ensures Run(s, frames).keys[..|s.keys|] == s.keys
    decreases |frames|
  {
    if frames != [] {
      var s' := Step(s, frames[0]);
      StepAppends(s, frames[0]);
      RunOnlyGrows(s', frames[1..]);
      assert Run(s, frames).keys[..|s'.keys|] == s'.keys;
      assert s'.keys[..|s.keys|] == s.keys;
    }
  }

  /** Five frames pressing Up leave five keys: the list is not capped at four. */
  lemma NotCappedAtFour(s: SpellState)
    requires s.keys == []
    ensures var up := Buttons(Edges(true, false), Edges(false, false), Edges(false, false), Edges(false, false));
      |Run(s, [up, up, up, up, up]).keys| == 5
  {
    var up := Buttons(Edges(true, false), Edges(false, false), Edges(false, false), Edges(false, false));
    RunOnlyGrows(s, [up, up, up, up, up]);
    assert TotalPresses([up]) == 1;
    assert [up, up][1..] == [up] && [up, up, up][1..] == [up, up];
    assert [up, up, up, up][1..] == [up, up, up] && [up, up, up, up, up][1..] == [up, up, up, up];
    assert TotalPresses([up, up]) == 2;
    assert TotalPresses([up, up, up]) == 3;
    assert TotalPresses([up, up, up, up]) == 4;
    assert TotalPresses([up, up, up, up, up]) == 5;
  }

  class Spell {
    var lastFourKeysPressed: seq<Key>
    var upArrow: ArrowColour
    var downArrow: ArrowColour
    var leftArrow: ArrowColour
    var rightArrow: ArrowColour

    function State(): SpellState
      reads this
    {
      SpellState(lastFourKeysPressed, Arrows(upArrow, downArrow, leftArrow, rightArrow))
    }

    /** A spell with no keys yet and the arrows coloured as the scene has them. */
    constructor (initial: Arrows)
      ensures State() == SpellState([], initial)
    {
      lastFourKeysPressed := [];
      upArrow, downArrow, leftArrow, rightArrow := initial.up, initial.down, initial.left, initial.right;
    }

    method Update(input: Buttons)
      modifies this
      ensures State() == Step(old(State()), input)
    {
      if input.up.pressed {
        lastFourKeysPressed := lastFourKeysPressed + [Up];
        upArrow := Green;
      }
      if input.up.released {
        upArrow := White;
      }
      if input.down.pressed {
        lastFourKeysPressed := lastFourKeysPressed + [Down];
        downArrow := Green;
      }
      if input.down.released {
        downArrow := White;
      }
      if input.left.pressed {
        lastFourKeysPressed := lastFourKeysPressed + [Left];
        leftArrow := Green;
      }
      if input.left.released {
        leftArrow := White;
      }
      if input.right.pressed {
        lastFourKeysPressed := lastFourKeysPressed + [Right];
        rightArrow := Green;
      }
      if input.right.released {
        rightArrow := White;
      }
    }
  }
}
