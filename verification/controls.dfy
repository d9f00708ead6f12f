/** Input flags of the "Raster Doer" program (src/main.cpp): the global
    `controls` struct that the GLFW key and mouse-button callbacks set and
    the main loop reads and clears. */
module Controls {

  /** The keys key_callback tests; every other key code is OtherKey. */
  datatype Key =
    | KeyQ | KeyW | KeyE | KeyA | KeyS | KeyD
    | KeyRight | KeyLeft | KeyUp | KeyDown | KeyZ | KeyEscape
    | OtherKey(code: int)

  /** GLFW_PRESS, GLFW_RELEASE and GLFW_REPEAT. */
  datatype Action = Press | Release | Repeat

  datatype MouseButton = LeftButton | OtherButton(code: int)

  /** The keys that own a flag in `controls`. */
  predicate HasFlag(k: Key) {
    !k.KeyEscape? && !k.OtherKey?
  }

  class ControlState {
    var w: bool
    var a: bool
    var s: bool
    var d: bool
    var q: bool
    var e: bool
    var right: bool
    var left: bool
    var up: bool
    var down: bool
    var didMouseClick: bool
    var didMouseUnclick: bool
    var z: bool
    /** The window's close flag, which escape raises through GLFW. */
    var windowShouldClose: bool

    /** The flag that belongs to key k. */
    function Flag(k: Key): bool
      requires HasFlag(k)
      reads this
    {
      match k
      case KeyQ => q
      case KeyW => w
      case KeyE => e
      case KeyA => a
      case KeyS => s
      case KeyD => d
      case KeyRight => right
      case KeyLeft => left
      case KeyUp => up
      case KeyDown => down
      case KeyZ => z
    }

    /** The zero-initialised global struct. */
    constructor ()
      ensures forall k :: HasFlag(k) ==> !Flag(k)
      ensures !didMouseClick && !didMouseUnclick && !windowShouldClose
    {
      w, a, s, d, q, e := false, false, false, false, false, false;
      right, left, up, down := false, false, false, false;
      didMouseClick, didMouseUnclick, z := false, false, false;
      windowShouldClose := false;
    }

    /** key_callback: a press raises exactly the pressed key's flag and a
        release lowers it; Z is never lowered by a release (the main loop
        clears it when it undoes a line); escape asks the window to close;
        repeats and other keys change nothing. */
    method KeyCallback(key: Key, action: Action)
      modifies this
      ensures forall k :: HasFlag(k) ==> (
                Flag(k) == if k == key && action == Press then true
                           else if k == key && action == Release && k != KeyZ then false
                           else old(Flag(k)))
      ensures didMouseClick == old(didMouseClick) && didMouseUnclick == old(didMouseUnclick)
      ensures windowShouldClose == (old(windowShouldClose) || (key == KeyEscape && action == Press))
    {
      if action == Press {
        if key == KeyQ { q := true; }
        if key == KeyW { w := true; }
        if key == KeyE { e := true; }
        if key == KeyA { a := true; }
        if key == KeyS { s := true; }
        if key == KeyD { d := true; }
        if key == KeyRight { right := true; }
        if key == KeyLeft { left := true; }
        if key == KeyUp { up := true; }
        if key == KeyDown { down := true; }
        if key == KeyEscape { windowShouldClose := true; }
        if key == KeyZ { z := true; }
      }
      if action == Release {
        if key == KeyQ { q := false; }
        if key == KeyW { w := false; }
        if key == KeyE { e := false; }
        if key == KeyA { a := false; }
        if key == KeyS { s := false; }
        if key == KeyD { d := false; }
        if key == KeyRight { right := false; }
        if key == KeyLeft { left := false; }
        if key == KeyUp { up := false; }
        if key == KeyDown { down := false; }
      }
    }

    /** mouse_button_callback: unless the UI has captured the mouse or the
        keyboard, a left press raises the click flag and a left release the
        unclick flag; key flags never change. */
    method MouseButtonCallback(button: MouseButton, action: Action, uiCapturesInput: bool)
      modifies this
      ensures forall k :: HasFlag(k) ==> Flag(k) == old(Flag(k))
      ensures windowShouldClose == old(windowShouldClose)
      ensures didMouseClick == (old(didMouseClick) || (!uiCapturesInput && button == LeftButton && action == Press))
      ensures didMouseUnclick == (old(didMouseUnclick) || (!uiCapturesInput && button == LeftButton && action == Release))
    {
      if uiCapturesInput {
        return;
      }
      if action == Press && button == LeftButton {
        didMouseClick := true;
      }
      if action == Release && button == LeftButton {
        didMouseUnclick := true;
      }
    }
  }

  /** Press then release: on fresh controls, every key's flag is back down
      afterwards except Z's, which stays raised. */
  method PressThenRelease(key: Key) returns (raised: bool)
    requires HasFlag(key)
    ensures raised <==> key == KeyZ
  {
    var controls := new ControlState();
    controls.KeyCallback(key, Press);
    controls.KeyCallback(key, Release);
    raised := controls.Flag(key);
  }
}
