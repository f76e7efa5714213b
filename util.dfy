/** The static helpers of `Util`: vector field replacement, the direction
    keys, the key-sequence hash and the "any key pressed" input test. */
module Util {

  /** Unity's `Vector3`, with its float components read as exact reals. */
  datatype Vector3 = Vector3(x: real, y: real, z: real)

  function WithY(v: Vector3, newValue: real): Vector3 {
    Vector3(v.x, newValue, v.z)
  }

  function WithX(v: Vector3, newValue: real): Vector3 {
    Vector3(newValue, v.y, v.z)
  }

  lemma WithXLaws(v: Vector3, a: real, b: real)
    ensures WithX(v, a).x == a && WithX(v, a).y == v.y && WithX(v, a).z == v.z
    ensures WithX(WithX(v, a), b) == WithX(v, b)
    ensures WithX(v, v.x) == v
  {
  }

  lemma WithYLaws(v: Vector3, a: real, b: real)
    ensures WithY(v, a).y == a && WithY(v, a).x == v.x && WithY(v, a).z == v.z
    ensures WithY(WithY(v, a), b) == WithY(v, b)
    ensures WithY(v, v.y) == v
  {
  }

  /** The four direction keys. */
  datatype Key = Up | Down | Left | Right

  /** The enum's underlying value, which is also what `GetHashCode` returns for it. */
  function Ord(k: Key): (n: int)
    ensures 0 <= n < 4
  {
    match k
    case Up => 0
    case Down => 1
    case Left => 2
    case Right => 3
  }

  // ----- 32-bit signed integers (C# `int`, unchecked arithmetic) -----

  const MinInt32: int := -0x8000_0000
  const MaxInt32: int := 0x7FFF_FFFF

  predicate InInt32(x: int) {
    MinInt32 <= x <= MaxInt32
  }

  /** Two's-complement wrap-around of an exact integer into `int`. */
  function Wrap32(x: int): (r: int)
    ensures InInt32(r)
    ensures (r - x) % 0x1_0000_0000 == 0
    ensures InInt32(x) ==> r == x
  {
    (x - MinInt32) % 0x1_0000_0000 + MinInt32
  }

  /** `GetKeySequenceHashCode`: a left fold with seed 487, each step
      `current * 31 + ordinal` in unchecked 32-bit arithmetic. */
  function KeySequenceHash(keys: seq<Key>): (h: int)
    ensures InInt32(h)
  {
    if keys == [] then 487
    else Wrap32(KeySequenceHash(keys[..|keys| - 1]) * 31 + Ord(keys[|keys| - 1]))
  }

  /** The same fold over unbounded integers: the value the hash is meant to be. */
  function ExactHash(keys: seq<Key>): int {
    if keys == [] then 487
    else ExactHash(keys[..|keys| - 1]) * 31 + Ord(keys[|keys| - 1])
  }

  /** Largest exact hash of a sequence of `n` keys. */
  function HashCap(n: nat): int {
    if n == 0 then 487 else HashCap(n - 1) * 31 + 3
  }

  /** Smallest exact hash of a sequence of `n` keys: `487 * 31^n`. */
  function HashFloor(n: nat): int {
    if n == 0 then 487 else HashFloor(n - 1) * 31
  }

  lemma HashOfEmpty()
    ensures KeySequenceHash([]) == 487
  {
  }

  /** Appending a key folds one more step. */
  lemma HashSnoc(keys: seq<Key>, k: Key)
    ensures KeySequenceHash(keys + [k]) == Wrap32(KeySequenceHash(keys) * 31 + Ord(k))
  {
    assert (keys + [k])[..|keys|] == keys;
  }

  lemma {:induction false} ExactHashBounds(keys: seq<Key>)
    ensures 487 <= HashFloor(|keys|) <= ExactHash(keys) <= HashCap(|keys|)
  {
    if keys != [] {
      ExactHashBounds(keys[..|keys| - 1]);
    }
  }

  /** For at most four keys no step of the fold leaves the `int` range, so the
      32-bit hash is the exact one. */
  lemma {:induction false} HashDoesNotWrap(keys: seq<Key>)
    requires |keys| <= 4
    ensures KeySequenceHash(keys) == ExactHash(keys)
    ensures 487 <= KeySequenceHash(keys) <= 449_847_079
  {
    ExactHashBounds(keys);
    if keys != [] {
      var init := keys[..|keys| - 1];
      HashDoesNotWrap(init);
      ExactHashBounds(init);
      assert HashCap(1) == 15_100 && HashCap(2) == 468_103;
      assert HashCap(3) == 14_511_196 && HashCap(4) == 449_847_079;
    }
  }

  /** With ordinals below the multiplier, distinct key sequences have distinct
      exact hashes. */
  lemma {:induction false} ExactHashInjective(a: seq<Key>, b: seq<Key>)
    requires ExactHash(a) == ExactHash(b)
    ensures a == b
  {
    if a == [] && b == [] {
    } else if a == [] {
      ExactHashBounds(b[..|b| - 1]);
    } else if b == [] {
      ExactHashBounds(a[..|a| - 1]);
    } else {
      var a', b' := a[..|a| - 1], b[..|b| - 1];
      var x, y := a[|a| - 1], b[|b| - 1];
      assert ExactHash(a') * 31 + Ord(x) == ExactHash(b') * 31 + Ord(y);
      assert Ord(x) == Ord(y) && ExactHash(a') == ExactHash(b');
      ExactHashInjective(a', b');
      assert x == y;
      assert a == a' + [x] && b == b' + [y];
    }
  }

  /** Key sequences of at most four keys collide only when they are equal. */
  lemma HashInjective(a: seq<Key>, b: seq<Key>)
    requires |a| <= 4 && |b| <= 4
    ensures KeySequenceHash(a) == KeySequenceHash(b) <==> a == b
  {
    HashDoesNotWrap(a);
    HashDoesNotWrap(b);
    if KeySequenceHash(a) == KeySequenceHash(b) {
      ExactHashInjective(a, b);
    }
  }

  lemma TwoKeyHash(k1: Key, k2: Key)
    ensures KeySequenceHash([k1, k2]) == 468_007 + 31 * Ord(k1) + Ord(k2)
  {
    HashDoesNotWrap([k1, k2]);
    assert [k1, k2][..1] == [k1];
    assert [k1][..0] == [];
    assert ExactHash([k1]) == 15_097 + Ord(k1);
    assert ExactHash([k1, k2]) == ExactHash([k1]) * 31 + Ord(k2);
  }

  /** The hash depends on the order of the keys. */
  lemma TwoKeyOrderMatters(k1: Key, k2: Key)
    requires k1 != k2
    ensures KeySequenceHash([k1, k2]) != KeySequenceHash([k2, k1])
  {
    TwoKeyHash(k1, k2);
    TwoKeyHash(k2, k1);
  }

  /** From five keys on, the exact fold exceeds `int`. */
  lemma {:induction false} HashFloorFromFive(n: nat)
    requires n >= 5
    ensures HashFloor(n) >= 13_942_396_537
  {
    if n > 5 {
      HashFloorFromFive(n - 1);
    }
  }

  /** Five keys are already too many: for every sequence of at least five
      keys the 32-bit fold has wrapped around. */
  lemma FiveKeysWrap(keys: seq<Key>)
    requires |keys| >= 5
    ensures KeySequenceHash(keys) != ExactHash(keys)
  {
    ExactHashBounds(keys);
    HashFloorFromFive(|keys|);
  }

  // ----- Input -----

  /** What the input system reports for one button in one frame. */
  datatype Edges = Edges(pressed: bool, released: bool)

  /** The four direction buttons' edges in one frame. */
  datatype Buttons = Buttons(up: Edges, down: Edges, left: Edges, right: Edges)

  /** `IsAnyKeyPressed`: note that the source tests the RELEASE of Left, while
      it tests the press of every other button. */
  function IsAnyKeyPressed(b: Buttons, jumpPressed: bool): bool {
    b.up.pressed || b.down.pressed || b.left.released || b.right.pressed || jumpPressed
  }

  /** Pressing Left alone does not count as a key press; releasing it does. */
  lemma AnyKeyUsesLeftRelease()
    ensures !IsAnyKeyPressed(Buttons(Edges(false, false), Edges(false, false), Edges(true, false), Edges(false, false)), false)
    ensures IsAnyKeyPressed(Buttons(Edges(false, false), Edges(false, false), Edges(false, true), Edges(false, false)), false)
  {
  }
}
