/**
 * Keyboard and mouse latches (src/GameUserInput.cpp, include/GameUserInput.h).
 *
 * Every latch table maps a key or button to a flag; a key never recorded
 * reads as false. Keys are unsigned chars. Buttons are ints, but the two
 * tables of pressed and pressed-and-released flags for buttons are keyed by
 * unsigned char, so a button is stored there under its value modulo 256,
 * while the other two button tables are keyed by unsigned int (modulo 2^32).
 */
module GameUserInput {
  import opened MoveDirs

  /** An unsigned char. */
  type Key = k: int | 0 <= k < 256

  const Escape: Key := 27

  /** The keys whose events are recorded: w, a, s, d, x, y, c and Esc. */
  const TrackedKeys: set<Key> := {'w' as int, 'a' as int, 's' as int, 'd' as int, 'x' as int, 'y' as int, 'c' as int, Escape}

  /** GLUT's button and state codes. */
  const LeftButton: int := 0
  const MiddleButton: int := 1
  const RightButton: int := 2
  const WheelDown: int := 3
  const WheelUp: int := 4
  const StateDown: int := 0
  const StateUp: int := 1

  const TrackedButtons: set<int> := {LeftButton, RightButton, MiddleButton, WheelDown, WheelUp}

  /** The key a button gets in a table keyed by unsigned int. */
  function ButtonSlot(button: int): nat
  {
    button % 0x1_0000_0000
  }

  /** The key a button gets in a table keyed by unsigned char. */
  function FlagSlot(button: int): Key
  {
    button % 256
  }

  /** `count(k) && at(k)`: a recorded true flag. */
  predicate Flag<K>(m: map<K, bool>, k: K)
  {
    k in m && m[k]
  }

  /** `m[k]` as an rvalue: the recorded flag, or false (the default value) when absent. */
  function Get<K>(m: map<K, bool>, k: K): bool
  {
    if k in m then m[k] else false
  }

  /** No entry outside `tracked` holds true. */
  ghost predicate OnlyTracked<K>(m: map<K, bool>, tracked: set<K>)
  {
    forall k :: k in m && k !in tracked ==> !m[k]
  }

  class Input {
    var pressedKeys: map<Key, bool>
    var lastPressedKeys: map<Key, bool>
    var pressedButtons: map<nat, bool>
    var lastPressedButtons: map<nat, bool>
    var pressedFlagKeys: map<Key, bool>
    var pressedFlagButtons: map<Key, bool>
    var pressedAndReleasedFlagKeys: map<Key, bool>
    var pressedAndReleasedFlagButtons: map<Key, bool>

    var mouseX: real
    var mouseY: real
    var lastMouseX: real
    var lastMouseY: real
    var mouseXDelta: real
    var mouseYDelta: real

    var movementChanged: bool
    var moveDir: MoveDir

    /** Only tracked keys and buttons are ever latched true. */
    ghost predicate Valid()
      reads this
    {
      OnlyTracked(pressedKeys, TrackedKeys) &&
      OnlyTracked(lastPressedKeys, TrackedKeys) &&
      OnlyTracked(pressedFlagKeys, TrackedKeys) &&
      OnlyTracked(pressedAndReleasedFlagKeys, TrackedKeys) &&
      OnlyTracked(pressedButtons, set b | b in TrackedButtons && b >= 0) &&
      OnlyTracked(lastPressedButtons, set b | b in TrackedButtons && b >= 0) &&
      OnlyTracked(pressedFlagButtons, set b | b in TrackedButtons && 0 <= b < 256) &&
      OnlyTracked(pressedAndReleasedFlagButtons, set b | b in TrackedButtons && 0 <= b < 256)
    }

    constructor ()
      ensures Valid()
      ensures pressedKeys == map[] && lastPressedKeys == map[]
      ensures pressedFlagKeys == map[] && pressedAndReleasedFlagKeys == map[]
      ensures pressedButtons == map[] && lastPressedButtons == map[]
      ensures pressedFlagButtons == map[] && pressedAndReleasedFlagButtons == map[]
      ensures mouseX == 0.0 && mouseY == 0.0 && lastMouseX == 0.0 && lastMouseY == 0.0
      ensures mouseXDelta == 0.0 && mouseYDelta == 0.0
      ensures !movementChanged && moveDir == None
    {
      pressedKeys, lastPressedKeys := map[], map[];
      pressedFlagKeys, pressedAndReleasedFlagKeys := map[], map[];
      pressedButtons, lastPressedButtons := map[], map[];
      pressedFlagButtons, pressedAndReleasedFlagButtons := map[], map[];
      mouseX, mouseY, lastMouseX, lastMouseY := 0.0, 0.0, 0.0, 0.0;
      mouseXDelta, mouseYDelta := 0.0, 0.0;
      movementChanged := false;
      moveDir := None;
    }

    /** Whether the key is held down now: the recorded flag, false when never recorded. */
    function IsKeyPressed(key: Key): (b: bool)
      reads this
      ensures b == Get(pressedKeys, key)
      ensures key !in pressedKeys ==> !b
    {
      Flag(pressedKeys, key)
    }

    /** Whether the last event of the key was a release: the recorded flag, false when never recorded. */
    function IsKeyReleased(key: Key): (b: bool)
      reads this
      ensures b == Get(lastPressedKeys, key)
      ensures key !in lastPressedKeys ==> !b
    {
      Flag(lastPressedKeys, key)
    }

    /** The latched press of the key: the recorded flag, false when never recorded. */
    function IsKeyFlagPressed(key: Key): (b: bool)
      reads this
      ensures b == Get(pressedFlagKeys, key)
      ensures key !in pressedFlagKeys ==> !b
    {
      Flag(pressedFlagKeys, key)
    }

    /** The latched press-and-release of the key: the recorded flag, false when never recorded. */
    function IsKeyFlagPressedAndReleased(key: Key): (b: bool)
      reads this
      ensures b == Get(pressedAndReleasedFlagKeys, key)
      ensures key !in pressedAndReleasedFlagKeys ==> !b
    {
      Flag(pressedAndReleasedFlagKeys, key)
    }

    /** Whether the button is held down now: the recorded flag, false when never recorded. */
    function IsButtonPressed(button: int): (b: bool)
      reads this
      ensures b == Get(pressedButtons, ButtonSlot(button))
      ensures ButtonSlot(button) !in pressedButtons ==> !b
    {
      Flag(pressedButtons, ButtonSlot(button))
    }

    /** Whether the last up/down event of the button was a release: the recorded flag, false when never recorded. */
    function IsButtonReleased(button: int): (b: bool)
      reads this
      ensures b == Get(lastPressedButtons, ButtonSlot(button))
      ensures ButtonSlot(button) !in lastPressedButtons ==> !b
    {
      Flag(lastPressedButtons, ButtonSlot(button))
    }

    /** The latched press of the button: the recorded flag, false when never recorded. */
    function IsButtonFlagPressed(button: int): (b: bool)
      reads this
      ensures b == Get(pressedFlagButtons, FlagSlot(button))
      ensures FlagSlot(button) !in pressedFlagButtons ==> !b
    {
      Flag(pressedFlagButtons, FlagSlot(button))
    }

    /** The latched press-and-release of the button: the recorded flag, false when never recorded. */
    function IsButtonFlagPressedAndReleased(button: int): (b: bool)
      reads this
      ensures b == Get(pressedAndReleasedFlagButtons, FlagSlot(button))
      ensures FlagSlot(button) !in pressedAndReleasedFlagButtons ==> !b
    {
      Flag(pressedAndReleasedFlagButtons, FlagSlot(button))
    }

    /** Every key query answers false for a key outside the tracked set. */
    lemma UntrackedKeyReadsFalse(key: Key)
      requires Valid() && key !in TrackedKeys
      ensures !IsKeyPressed(key) && !IsKeyReleased(key)
      ensures !IsKeyFlagPressed(key) && !IsKeyFlagPressedAndReleased(key)
    {
    }

    /** Every button query answers false for a button whose table key is not a tracked button. */
    lemma UntrackedButtonReadsFalse(button: int)
      requires Valid()
      ensures ButtonSlot(button) !in TrackedButtons ==> !IsButtonPressed(button) && !IsButtonReleased(button)
      ensures FlagSlot(button) !in TrackedButtons ==>
        !IsButtonFlagPressed(button) && !IsButtonFlagPressedAndReleased(button)
    {
    }

    /** Key-down event: pressed, not released, and the pressed flag raised. */
    method Keyboard(key: Key)
      requires Valid()
      modifies this`pressedKeys, this`lastPressedKeys, this`pressedFlagKeys
      ensures Valid()
      ensures key in TrackedKeys ==>
        pressedKeys == old(pressedKeys)[key := true] &&
        lastPressedKeys == old(lastPressedKeys)[key := false] &&
        pressedFlagKeys == old(pressedFlagKeys)[key := true]
      ensures key !in TrackedKeys ==>
        pressedKeys == old(pressedKeys) && lastPressedKeys == old(lastPressedKeys) &&
        pressedFlagKeys == old(pressedFlagKeys)
      ensures key in TrackedKeys ==> IsKeyPressed(key) && !IsKeyReleased(key) && IsKeyFlagPressed(key)
    {
      if key in TrackedKeys {
        pressedKeys := pressedKeys[key := true];
        lastPressedKeys := lastPressedKeys[key := false];
        pressedFlagKeys := pressedFlagKeys[key := true];
      }
    }

    /**
     * Key-up event: released, and the pressed-and-released flag takes over
     * the pressed flag, which is then cleared.
     */
    method KeyboardUp(key: Key)
      requires Valid()
      modifies this`pressedKeys, this`lastPressedKeys, this`pressedFlagKeys, this`pressedAndReleasedFlagKeys
      ensures Valid()
      ensures key in TrackedKeys ==>
        pressedKeys == old(pressedKeys)[key := false] &&
        lastPressedKeys == old(lastPressedKeys)[key := true] &&
        pressedAndReleasedFlagKeys == old(pressedAndReleasedFlagKeys)[key := Get(old(pressedFlagKeys), key)] &&
        pressedFlagKeys == old(pressedFlagKeys)[key := false]
      ensures key !in TrackedKeys ==>
        pressedKeys == old(pressedKeys) && lastPressedKeys == old(lastPressedKeys) &&
        pressedFlagKeys == old(pressedFlagKeys) && pressedAndReleasedFlagKeys == old(pressedAndReleasedFlagKeys)
      ensures key in TrackedKeys ==>
        !IsKeyPressed(key) && IsKeyReleased(key) && !IsKeyFlagPressed(key) &&
        (IsKeyFlagPressedAndReleased(key) <==> old(IsKeyFlagPressed(key)))
    {
      if key in TrackedKeys {
        pressedKeys := pressedKeys[key := false];
        lastPressedKeys := lastPressedKeys[key := true];
        pressedAndReleasedFlagKeys := pressedAndReleasedFlagKeys[key := Get(pressedFlagKeys, key)];
        pressedFlagKeys := pressedFlagKeys[key := false];
      }
    }

    /**
     * Mouse-button event. The wheel raises both of its flags at once; other
     * tracked buttons follow the key-down and key-up rules; other states and
     * untracked buttons change nothing.
     */
    method MouseButton(button: int, state: int)
      requires Valid()
      modifies this`pressedButtons, this`lastPressedButtons, this`pressedFlagButtons, this`pressedAndReleasedFlagButtons
      ensures Valid()
      ensures button !in TrackedButtons ==> unchanged(this)
      ensures button in {WheelDown, WheelUp} ==>
        pressedFlagButtons == old(pressedFlagButtons)[button := true] &&
        pressedAndReleasedFlagButtons == old(pressedAndReleasedFlagButtons)[button := true] &&
        pressedButtons == old(pressedButtons) && lastPressedButtons == old(lastPressedButtons)
      ensures button in {LeftButton, MiddleButton, RightButton} && state == StateDown ==>
        pressedButtons == old(pressedButtons)[button := true] &&
        lastPressedButtons == old(lastPressedButtons)[button := false] &&
        pressedFlagButtons == old(pressedFlagButtons)[button := true] &&
        pressedAndReleasedFlagButtons == old(pressedAndReleasedFlagButtons)
      ensures button in {LeftButton, MiddleButton, RightButton} && state == StateUp ==>
        pressedButtons == old(pressedButtons)[button := false] &&
        lastPressedButtons == old(lastPressedButtons)[button := true] &&
        pressedAndReleasedFlagButtons ==
          old(pressedAndReleasedFlagButtons)[button := Get(old(pressedFlagButtons), button)] &&
        pressedFlagButtons == old(pressedFlagButtons)[button := false]
      ensures button in {LeftButton, MiddleButton, RightButton} && state !in {StateDown, StateUp} ==>
        unchanged(this)
    {
      if button !in TrackedButtons {
        return;
      }
      if button == WheelUp || button == WheelDown {
        pressedFlagButtons := pressedFlagButtons[button := true];
        pressedAndReleasedFlagButtons := pressedAndReleasedFlagButtons[button := true];
        return;
      }
      if state == StateDown {
        pressedButtons := pressedButtons[button := true];
        lastPressedButtons := lastPressedButtons[button := false];
        pressedFlagButtons := pressedFlagButtons[button := true];
      } else if state == StateUp {
        pressedButtons := pressedButtons[button := false];
        lastPressedButtons := lastPressedButtons[button := true];
        pressedAndReleasedFlagButtons := pressedAndReleasedFlagButtons[button := Get(pressedFlagButtons, button)];
        pressedFlagButtons := pressedFlagButtons[button := false];
      }
    }

    method ResetKeyFlagPressed(key: Key)
      requires Valid()
      modifies this`pressedFlagKeys
      ensures Valid()
      ensures pressedFlagKeys == old(pressedFlagKeys)[key := false]
      ensures !IsKeyFlagPressed(key)
    {
      pressedFlagKeys := pressedFlagKeys[key := false];
    }

    method ResetKeyFlagPressedAndReleased(key: Key)
      requires Valid()
      modifies this`pressedAndReleasedFlagKeys
      ensures Valid()
      ensures pressedAndReleasedFlagKeys == old(pressedAndReleasedFlagKeys)[key := false]
      ensures !IsKeyFlagPressedAndReleased(key)
    {
      pressedAndReleasedFlagKeys := pressedAndReleasedFlagKeys[key := false];
    }

    method ResetButtonFlagPressed(button: int)
      requires Valid()
      modifies this`pressedFlagButtons
      ensures Valid()
      ensures pressedFlagButtons == old(pressedFlagButtons)[FlagSlot(button) := false]
      ensures !IsButtonFlagPressed(button)
    {
      pressedFlagButtons := pressedFlagButtons[FlagSlot(button) := false];
    }

    method ResetButtonFlagPressedAndReleased(button: int)
      requires Valid()
      modifies this`pressedAndReleasedFlagButtons
      ensures Valid()
      ensures pressedAndReleasedFlagButtons == old(pressedAndReleasedFlagButtons)[FlagSlot(button) := false]
      ensures !IsButtonFlagPressedAndReleased(button)
    {
      pressedAndReleasedFlagButtons := pressedAndReleasedFlagButtons[FlagSlot(button) := false];
    }

    /** The pointer moved to (x, y): the deltas are measured from the previous position. */
    method MouseMotion(x: int, y: int)
      modifies this`mouseX, this`mouseY, this`lastMouseX, this`lastMouseY, this`mouseXDelta, this`mouseYDelta
      ensures lastMouseX == old(mouseX) && lastMouseY == old(mouseY)
      ensures mouseX == x as real && mouseY == y as real
      ensures mouseXDelta == x as real - old(mouseX) && mouseYDelta == y as real - old(mouseY)
    {
      lastMouseX := mouseX;
      lastMouseY := mouseY;
      mouseX := x as real;
      mouseY := y as real;
      mouseXDelta := mouseX - lastMouseX;
      mouseYDelta := mouseY - lastMouseY;
    }

    /** Forgets the last movement: both deltas become zero and the last position catches up. */
    method ResetMouseDelta()
      modifies this`lastMouseX, this`lastMouseY, this`mouseXDelta, this`mouseYDelta
      ensures lastMouseX == mouseX && lastMouseY == mouseY
      ensures mouseXDelta == 0.0 && mouseYDelta == 0.0
    {
      lastMouseX := mouseX;
      lastMouseY := mouseY;
      mouseXDelta := 0.0;
      mouseYDelta := 0.0;
    }

    method SetMovementChanged()
      modifies this`movementChanged
      ensures movementChanged
    {
      movementChanged := true;
    }

    method ResetMovementChanged()
      modifies this`movementChanged
      ensures !movementChanged
    {
      movementChanged := false;
    }

    method SetMoveDir(dir: MoveDir)
      modifies this`moveDir
      ensures moveDir == dir
    {
      moveDir := dir;
    }
  }
}
