/**
 * The GLUT callbacks that steer the camera and the player
 * (src/GameControl.cpp). The game object they update through setters is
 * modelled by the fields those setters write.
 */
module GameControls {
  import opened MoveDirs
  import opened Wrappers

  const LeftButton: int := 0
  const ButtonDown: int := 0
  const WheelUp: int := 3
  const WheelDown: int := 4

  const MinCameraDistance: real := 10.0
  const MaxCameraDistance: real := 100.0
  const MaxCameraAngleX: real := 89.0

  /** v limited to [lo, hi]: the upper bound is applied first, then the lower, as the source does. */
  function Clamp(v: real, lo: real, hi: real): (r: real)
    ensures lo <= hi ==> lo <= r <= hi
    ensures lo <= v <= hi ==> r == v
    ensures v < lo ==> r == lo
    ensures hi < v && lo <= hi ==> r == hi
  {
    var capped := if v > hi then hi else v;
    if capped < lo then lo else capped
  }

  /** Clamping is monotone in the clamped value. */
  lemma ClampMonotone(v: real, w: real, lo: real, hi: real)
    requires lo <= hi && v <= w
    ensures Clamp(v, lo, hi) <= Clamp(w, lo, hi)
  {
  }

  /** The direction a movement key selects, if it is one. */
  function KeyDirection(key: char): (d: Option<MoveDir>)
    ensures d.Some? <==> key in {'w', 's', 'd', 'a'}
    ensures d == Some(Fwd) <==> key == 'w'
    ensures d == Some(Bwd) <==> key == 's'
    ensures d == Some(Right) <==> key == 'd'
    ensures d == Some(Left) <==> key == 'a'
  {
    if key == 'w' then Some(Fwd)
    else if key == 's' then Some(Bwd)
    else if key == 'd' then Some(Right)
    else if key == 'a' then Some(Left)
    else Option.None
  }

  /** The camera distance after a wheel click; the wheel up button brings the camera closer. */
  function WheelDistance(distance: real, button: int): (r: real)
    requires button == WheelUp || button == WheelDown
    ensures MinCameraDistance <= r <= MaxCameraDistance
    ensures button == WheelUp && MinCameraDistance + 2.0 <= distance <= MaxCameraDistance + 2.0 ==> r == distance - 2.0
    ensures button == WheelDown && MinCameraDistance - 2.0 <= distance <= MaxCameraDistance - 2.0 ==> r == distance + 2.0
  {
    Clamp(if button == WheelUp then distance - 2.0 else distance + 2.0, MinCameraDistance, MaxCameraDistance)
  }

  class GameControl {
    var cameraDistance: real
    var cameraAngleX: real
    var cameraAngleY: real
    var isMousePressed: bool
    var lastMouseX: int
    var lastMouseY: int
    var moveDir: MoveDir
    var isDirectionChanged: bool

    constructor ()
      ensures cameraDistance == 50.0 && cameraAngleX == 0.0 && cameraAngleY == 0.0
      ensures !isMousePressed && moveDir == MoveDir.None && !isDirectionChanged
    {
      cameraDistance := 50.0;
      cameraAngleX := 0.0;
      cameraAngleY := 0.0;
      isMousePressed := false;
      lastMouseX := 0;
      lastMouseY := 0;
      moveDir := MoveDir.None;
      isDirectionChanged := false;
    }

    /**
     * Left button: down starts a drag at (x, y), any other state ends it.
     * Wheel buttons, only when down, step the distance by 2 and clamp it.
     */
    method MouseButton(button: int, state: int, x: int, y: int)
      modifies this`isMousePressed, this`lastMouseX, this`lastMouseY, this`cameraDistance
      ensures button == LeftButton ==>
        isMousePressed == (state == ButtonDown) && cameraDistance == old(cameraDistance) &&
        (lastMouseX, lastMouseY) == (if state == ButtonDown then (x, y) else old((lastMouseX, lastMouseY)))
      ensures (button == WheelUp || button == WheelDown) ==>
        isMousePressed == old(isMousePressed) && (lastMouseX, lastMouseY) == old((lastMouseX, lastMouseY)) &&
        cameraDistance == (if state == ButtonDown then WheelDistance(old(cameraDistance), button) else old(cameraDistance))
      ensures button !in {LeftButton, WheelUp, WheelDown} ==>
        isMousePressed == old(isMousePressed) && (lastMouseX, lastMouseY) == old((lastMouseX, lastMouseY)) &&
        cameraDistance == old(cameraDistance)
    {
      if button == LeftButton {
        if state == ButtonDown {
          isMousePressed := true;
          lastMouseX := x;
          lastMouseY := y;
        } else {
          isMousePressed := false;
        }
      } else if button == WheelUp || button == WheelDown {
        if state == ButtonDown {
          if button == WheelUp {
            cameraDistance := cameraDistance - 2.0;
          } else if button == WheelDown {
            cameraDistance := cameraDistance + 2.0;
          }
          if cameraDistance < MinCameraDistance {
            cameraDistance := MinCameraDistance;
          }
          if cameraDistance > MaxCameraDistance {
            cameraDistance := MaxCameraDistance;
          }
        }
      }
    }

    /**
     * While dragging, the mouse travel turns the camera by a tenth of a
     * degree per pixel, the pitch is held within [-89, 89] and the position
     * is remembered; otherwise nothing changes.
     */
    method MouseMotion(x: int, y: int)
      modifies this`cameraAngleX, this`cameraAngleY, this`lastMouseX, this`lastMouseY
      ensures !old(isMousePressed) ==>
        cameraAngleX == old(cameraAngleX) && cameraAngleY == old(cameraAngleY) &&
        lastMouseX == old(lastMouseX) && lastMouseY == old(lastMouseY)
      ensures old(isMousePressed) ==>
        cameraAngleY == old(cameraAngleY) + (x - old(lastMouseX)) as real / 10.0 &&
        cameraAngleX == Clamp(old(cameraAngleX) + (y - old(lastMouseY)) as real / 10.0, -MaxCameraAngleX, MaxCameraAngleX) &&
        lastMouseX == x && lastMouseY == y
    {
      if isMousePressed {
        var deltaX := x - lastMouseX;
        var deltaY := y - lastMouseY;
        cameraAngleY := cameraAngleY + deltaX as real / 10.0;
        cameraAngleX := cameraAngleX + deltaY as real / 10.0;
        if cameraAngleX > MaxCameraAngleX {
          cameraAngleX := MaxCameraAngleX;
        }
        if cameraAngleX < -MaxCameraAngleX {
          cameraAngleX := -MaxCameraAngleX;
        }
        lastMouseX := x;
        lastMouseY := y;
      }
    }

    /** w, s, d and a choose a direction and flag the change; other keys do nothing. */
    method Keyboard(key: char)
      modifies this`moveDir, this`isDirectionChanged
      ensures KeyDirection(key).Some? ==> moveDir == KeyDirection(key).value && isDirectionChanged
      ensures KeyDirection(key).None? ==> moveDir == old(moveDir) && isDirectionChanged == old(isDirectionChanged)
    {
      if key == 'w' {
        moveDir := Fwd;
        isDirectionChanged := true;
      }
      if key == 's' {
        moveDir := Bwd;
        isDirectionChanged := true;
      }
      if key == 'd' {
        moveDir := Right;
        isDirectionChanged := true;
      }
      if key == 'a' {
        moveDir := Left;
        isDirectionChanged := true;
      }
    }
  }
}
