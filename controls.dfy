/**
 * Keyboard handling of RoboSim: the map of held keys, the resolution of each
 * opposing pair of keys into a rate or speed, and the edge-triggered shot.
 *
 * Each pair is an if / else-if chain in the source, so when keys of both
 * sides are held the side checked first wins.
 */
module Controls {

  /** Key code -> pressed state, as kept by the key-down and key-up handlers. */
  type KeyMap = map<int, bool>

  /** A key counts as held only if its code was recorded as pressed (a missing code is falsy). */
  predicate Held(keys: KeyMap, code: int) {
    code in keys && keys[code]
  }

  /** Some key of the group `codes` is held. */
  predicate AnyHeld(keys: KeyMap, codes: seq<int>) {
    exists i :: 0 <= i < |codes| && Held(keys, codes[i])
  }

  const PageUp := 33
  const PageDown := 34
  const KeyQ := 81
  const KeyE := 69
  const Space := 32
  const ArrowLeft := 37
  const KeyA := 65
  const ArrowRight := 39
  const KeyD := 68
  const ArrowUp := 38
  const KeyW := 87
  const ArrowDown := 40
  const KeyS := 83

  /** The key groups of the four pairs, first-checked side first. */
  const PitchUpKeys: seq<int> := [PageUp]
  const PitchDownKeys: seq<int> := [PageDown]
  const YawLeftKeys: seq<int> := [KeyQ]
  const YawRightKeys: seq<int> := [KeyE]
  const StrafeLeftKeys: seq<int> := [ArrowLeft, KeyA]
  const StrafeRightKeys: seq<int> := [ArrowRight, KeyD]
  const ForwardKeys: seq<int> := [ArrowUp, KeyW]
  const BackwardKeys: seq<int> := [ArrowDown, KeyS]

  /** Every key code the pairs look at. */
  const PairKeys: seq<int> :=
    PitchUpKeys + PitchDownKeys + YawLeftKeys + YawRightKeys
    + StrafeLeftKeys + StrafeRightKeys + ForwardKeys + BackwardKeys

  /**
   * One opposing pair: a key of `first` gives `value`, failing that a key of
   * `second` gives `-value`, and with neither the result is zero.
   */
  function Resolve(keys: KeyMap, first: seq<int>, second: seq<int>, value: real): (r: real)
    ensures r == value || r == -value || r == 0.0
    ensures value != 0.0 ==> (r == value <==> AnyHeld(keys, first))
    ensures value != 0.0 ==> (r == -value <==> !AnyHeld(keys, first) && AnyHeld(keys, second))
    ensures value != 0.0 ==> (r == 0.0 <==> !AnyHeld(keys, first) && !AnyHeld(keys, second))
  {
    if AnyHeld(keys, first) then value
    else if AnyHeld(keys, second) then -value
    else 0.0
  }

  /** A group of one key is held exactly when that key is. */
  lemma AnyHeldOne(keys: KeyMap, a: int)
    ensures AnyHeld(keys, [a]) <==> Held(keys, a)
  {
    if Held(keys, a) {
      assert [a][0] == a;
    }
  }

  /** A group of two keys is held exactly when one of them is. */
  lemma AnyHeldTwo(keys: KeyMap, a: int, b: int)
    ensures AnyHeld(keys, [a, b]) <==> Held(keys, a) || Held(keys, b)
  {
    if Held(keys, a) {
      assert [a, b][0] == a;
    }
    if Held(keys, b) {
      assert [a, b][1] == b;
    }
  }

  /** Each key group of the pairs is held exactly when one of its keys is. */
  lemma GroupsHeld(keys: KeyMap)
    ensures AnyHeld(keys, PitchUpKeys) <==> Held(keys, PageUp)
    ensures AnyHeld(keys, PitchDownKeys) <==> Held(keys, PageDown)
    ensures AnyHeld(keys, YawLeftKeys) <==> Held(keys, KeyQ)
    ensures AnyHeld(keys, YawRightKeys) <==> Held(keys, KeyE)
    ensures AnyHeld(keys, StrafeLeftKeys) <==> Held(keys, ArrowLeft) || Held(keys, KeyA)
    ensures AnyHeld(keys, StrafeRightKeys) <==> Held(keys, ArrowRight) || Held(keys, KeyD)
    ensures AnyHeld(keys, ForwardKeys) <==> Held(keys, ArrowUp) || Held(keys, KeyW)
    ensures AnyHeld(keys, BackwardKeys) <==> Held(keys, ArrowDown) || Held(keys, KeyS)
  {
    AnyHeldOne(keys, PageUp);
    AnyHeldOne(keys, PageDown);
    AnyHeldOne(keys, KeyQ);
    AnyHeldOne(keys, KeyE);
    AnyHeldTwo(keys, ArrowLeft, KeyA);
    AnyHeldTwo(keys, ArrowRight, KeyD);
    AnyHeldTwo(keys, ArrowUp, KeyW);
    AnyHeldTwo(keys, ArrowDown, KeyS);
  }

  /** The rates and speeds that the key handler derives from the held keys. */
  datatype Rates = Rates(pitchRate: real, yawRate: real, sideSpeed: real, speed: real)

  /**
   * The rates and speeds set by the held keys. Each is positive, negative or
   * zero according to which side of its pair is held, the first-checked side
   * taking precedence: pitching up, turning left, strafing left (a negative
   * side speed) and walking forward.
   */
  function KeyRates(keys: KeyMap): (r: Rates)
    ensures r.pitchRate > 0.0 <==> AnyHeld(keys, PitchUpKeys)
    ensures r.pitchRate < 0.0 <==> !AnyHeld(keys, PitchUpKeys) && AnyHeld(keys, PitchDownKeys)
    ensures r.yawRate > 0.0 <==> AnyHeld(keys, YawLeftKeys)
    ensures r.yawRate < 0.0 <==> !AnyHeld(keys, YawLeftKeys) && AnyHeld(keys, YawRightKeys)
    ensures r.sideSpeed < 0.0 <==> AnyHeld(keys, StrafeLeftKeys)
    ensures r.sideSpeed > 0.0 <==> !AnyHeld(keys, StrafeLeftKeys) && AnyHeld(keys, StrafeRightKeys)
    ensures r.speed > 0.0 <==> AnyHeld(keys, ForwardKeys)
    ensures r.speed < 0.0 <==> !AnyHeld(keys, ForwardKeys) && AnyHeld(keys, BackwardKeys)
  {
    Rates(
      Resolve(keys, PitchUpKeys, PitchDownKeys, 0.1),
      Resolve(keys, YawLeftKeys, YawRightKeys, 0.15),
      Resolve(keys, StrafeLeftKeys, StrafeRightKeys, -0.004),
      Resolve(keys, ForwardKeys, BackwardKeys, 0.004))
  }

  /**
   * The pairs key code by key code, as the key handler tests them: the
   * first-checked side of each pair wins, and with neither side held the
   * value is zero.
   */
  lemma KeyRatesByCode(keys: KeyMap)
    ensures KeyRates(keys).pitchRate ==
      if Held(keys, 33) then 0.1 else if Held(keys, 34) then -0.1 else 0.0
    ensures KeyRates(keys).yawRate ==
      if Held(keys, 81) then 0.15 else if Held(keys, 69) then -0.15 else 0.0
    ensures KeyRates(keys).sideSpeed ==
      if Held(keys, 37) || Held(keys, 65) then -0.004
      else if Held(keys, 39) || Held(keys, 68) then 0.004 else 0.0
    ensures KeyRates(keys).speed ==
      if Held(keys, 38) || Held(keys, 87) then 0.004
      else if Held(keys, 40) || Held(keys, 83) then -0.004 else 0.0
  {
    GroupsHeld(keys);
  }

  /** A pair only looks at its own keys: two key maps that agree on them resolve alike. */
  lemma ResolveLocal(k1: KeyMap, k2: KeyMap, first: seq<int>, second: seq<int>, value: real)
    requires forall c :: c in first + second ==> (Held(k1, c) <==> Held(k2, c))
    ensures Resolve(k1, first, second, value) == Resolve(k2, first, second, value)
  {
    assert AnyHeld(k1, first) <==> AnyHeld(k2, first) by {
      if AnyHeld(k1, first) {
        var i :| 0 <= i < |first| && Held(k1, first[i]);
        assert first[i] in first + second;
      }
      if AnyHeld(k2, first) {
        var i :| 0 <= i < |first| && Held(k2, first[i]);
        assert first[i] in first + second;
      }
    }
    assert AnyHeld(k1, second) <==> AnyHeld(k2, second) by {
      if AnyHeld(k1, second) {
        var i :| 0 <= i < |second| && Held(k1, second[i]);
        assert second[i] in first + second;
      }
      if AnyHeld(k2, second) {
        var i :| 0 <= i < |second| && Held(k2, second[i]);
        assert second[i] in first + second;
      }
    }
  }

  /** With none of the pairs' keys held, every rate and speed is zero. */
  lemma NoKeysNoRates(keys: KeyMap)
    requires forall c :: c in PairKeys ==> !Held(keys, c)
    ensures KeyRates(keys) == Rates(0.0, 0.0, 0.0, 0.0)
  {
    ResolveLocal(keys, map[], PitchUpKeys, PitchDownKeys, 0.1);
    ResolveLocal(keys, map[], YawLeftKeys, YawRightKeys, 0.15);
    ResolveLocal(keys, map[], StrafeLeftKeys, StrafeRightKeys, -0.004);
    ResolveLocal(keys, map[], ForwardKeys, BackwardKeys, 0.004);
  }

  /** Holding a forward key and a backward key together moves forward: the forward check comes first. */
  lemma ForwardBeatsBackward(keys: KeyMap)
    requires Held(keys, ArrowUp) && Held(keys, ArrowDown)
    ensures KeyRates(keys).speed == 0.004
  {
    assert Held(keys, ForwardKeys[0]);
  }

  /** Holding a left key and a right key together strafes left. */
  lemma LeftBeatsRight(keys: KeyMap)
    requires Held(keys, KeyA) && Held(keys, KeyD)
    ensures KeyRates(keys).sideSpeed == -0.004
  {
    assert Held(keys, StrafeLeftKeys[1]);
  }

  // ---------------------------------------------------------------------------
  // The shot latch

  /**
   * One check of the Space key: while it is held, the first check fires and
   * sets the latch; releasing it clears the latch. The result is the pair
   * (fired, latch afterwards).
   */
  function Shoot(spaceHeld: bool, hasShot: bool): (r: (bool, bool))
    ensures r.0 <==> spaceHeld && !hasShot
    ensures r.1 == spaceHeld
  {
    if spaceHeld then (!hasShot, true) else (false, false)
  }

  /** How many times the shot fires over consecutive checks of the Space key. */
  function Fired(history: seq<bool>, hasShot: bool): nat
  {
    if history == [] then 0
    else
      var (fired, latch) := Shoot(history[0], hasShot);
      (if fired then 1 else 0) + Fired(history[1..], latch)
  }

  /** Presses of Space: checks where it is held and was not held at the check before. */
  function Presses(history: seq<bool>, wasHeld: bool): nat
  {
    if history == [] then 0
    else (if history[0] && !wasHeld then 1 else 0) + Presses(history[1..], history[0])
  }

  /**
   * Edge triggering: every press of Space fires exactly once, however long it
   * is held. A latch already set at the start counts as Space held before.
   */
  lemma {:induction false} FiresOncePerPress(history: seq<bool>, hasShot: bool)
    ensures Fired(history, hasShot) == Presses(history, hasShot)
  {
    if history != [] {
      FiresOncePerPress(history[1..], history[0]);
    }
  }

  /** Keeping Space held for any number of checks fires at most once, and not at all if the latch was already set. */
  lemma {:induction false} HoldingFiresOnce(n: nat, hasShot: bool)
    ensures Fired(seq(n, _ => true), hasShot) == (if n > 0 && !hasShot then 1 else 0)
  {
    if n > 0 {
      var h := seq(n, _ => true);
      assert h[1..] == seq(n - 1, _ => true);
      HoldingFiresOnce(n - 1, true);
    }
  }
}
