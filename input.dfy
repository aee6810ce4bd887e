/** Keyboard and mouse state with edge detection (engine/platform/input.rs).
    SDL's key and button codes are reduced to the ones the game reads, plus a
    catch-all. */
module Input {
  import opened Core

  datatype Key =
    | A | D | W | S | Q | E | R
    | Left | Right | Up | Down | Space | LShift | RShift
    | Num1 | Num2 | Num3 | Num4 | Num5
    | OtherKey(code: int)

  datatype MouseButton = ButtonLeft | ButtonMiddle | ButtonRight | OtherButton(code: int)

  /** `InputState`: the keys and buttons held down, and those that went down
      or up since the last frame. */
  class InputState {
    var keysDown: set<Key>
    var keysPressed: set<Key>
    var keysReleased: set<Key>
    var buttonsDown: set<MouseButton>
    var buttonsPressed: set<MouseButton>
    var buttonsReleased: set<MouseButton>
    var mousePosition: Vec2
    var mouseDelta: Vec2
    var lastMousePosition: Vec2

    /** `InputState::new`: nothing held, the mouse at the origin. */
    constructor ()
      ensures keysDown == keysPressed == keysReleased == {}
      ensures buttonsDown == buttonsPressed == buttonsReleased == {}
      ensures mousePosition == mouseDelta == lastMousePosition == Zero
    {
      keysDown, keysPressed, keysReleased := {}, {}, {};
      buttonsDown, buttonsPressed, buttonsReleased := {}, {}, {};
      mousePosition, mouseDelta, lastMousePosition := Zero, Zero, Zero;
    }

    /** `update`, once per frame: the edges are forgotten, what is held stays
        held, and the mouse delta is the movement since the previous frame. */
    method Update()
      modifies this
      ensures keysPressed == keysReleased == {} && buttonsPressed == buttonsReleased == {}
      ensures keysDown == old(keysDown) && buttonsDown == old(buttonsDown)
      ensures mouseDelta == old(mousePosition).Sub(old(lastMousePosition))
      ensures lastMousePosition == old(mousePosition) && mousePosition == old(mousePosition)
    {
      keysPressed := {};
      keysReleased := {};
      buttonsPressed := {};
      buttonsReleased := {};
      mouseDelta := mousePosition.Sub(lastMousePosition);
      lastMousePosition := mousePosition;
    }

    /** `handle_key_down`: a key counts as pressed only on its up-to-down
        transition (key repeat is ignored); it is held afterwards either way. */
    method HandleKeyDown(k: Key)
      modifies this
      ensures keysDown == old(keysDown) + {k}
      ensures keysPressed == if k in old(keysDown) then old(keysPressed) else old(keysPressed) + {k}
      ensures keysReleased == old(keysReleased)
      ensures buttonsDown == old(buttonsDown) && buttonsPressed == old(buttonsPressed)
      ensures buttonsReleased == old(buttonsReleased)
      ensures mousePosition == old(mousePosition) && mouseDelta == old(mouseDelta)
      ensures lastMousePosition == old(lastMousePosition)
    {
      if k !in keysDown {
        keysPressed := keysPressed + {k};
      }
      keysDown := keysDown + {k};
    }

    /** `handle_key_up`: the key is no longer held and is reported released. */
    method HandleKeyUp(k: Key)
      modifies this
      ensures keysDown == old(keysDown) - {k} && keysReleased == old(keysReleased) + {k}
      ensures keysPressed == old(keysPressed)
      ensures buttonsDown == old(buttonsDown) && buttonsPressed == old(buttonsPressed)
      ensures buttonsReleased == old(buttonsReleased)
      ensures mousePosition == old(mousePosition) && mouseDelta == old(mouseDelta)
      ensures lastMousePosition == old(lastMousePosition)
    {
      keysDown := keysDown - {k};
      keysReleased := keysReleased + {k};
    }

    /** `handle_mouse_down`: records the position, then the button logic
        mirrors the keys. */
    method HandleMouseDown(x: int, y: int, b: MouseButton)
      modifies this
      ensures mousePosition == Vec2(x as real, y as real)
      ensures buttonsDown == old(buttonsDown) + {b}
      ensures buttonsPressed == if b in old(buttonsDown) then old(buttonsPressed) else old(buttonsPressed) + {b}
      ensures buttonsReleased == old(buttonsReleased)
      ensures keysDown == old(keysDown) && keysPressed == old(keysPressed) && keysReleased == old(keysReleased)
      ensures mouseDelta == old(mouseDelta) && lastMousePosition == old(lastMousePosition)
    {
      mousePosition := Vec2(x as real, y as real);
      if b !in buttonsDown {
        buttonsPressed := buttonsPressed + {b};
      }
      buttonsDown := buttonsDown + {b};
    }

    /** `handle_mouse_up`. */
    method HandleMouseUp(x: int, y: int, b: MouseButton)
      modifies this
      ensures mousePosition == Vec2(x as real, y as real)
      ensures buttonsDown == old(buttonsDown) - {b} && buttonsReleased == old(buttonsReleased) + {b}
      ensures buttonsPressed == old(buttonsPressed)
      ensures keysDown == old(keysDown) && keysPressed == old(keysPressed) && keysReleased == old(keysReleased)
      ensures mouseDelta == old(mouseDelta) && lastMousePosition == old(lastMousePosition)
    {
      mousePosition := Vec2(x as real, y as real);
      buttonsDown := buttonsDown - {b};
      buttonsReleased := buttonsReleased + {b};
    }

    /** `handle_mouse_motion`. */
    method HandleMouseMotion(x: int, y: int)
      modifies this
      ensures mousePosition == Vec2(x as real, y as real)
      ensures keysDown == old(keysDown) && keysPressed == old(keysPressed) && keysReleased == old(keysReleased)
      ensures buttonsDown == old(buttonsDown) && buttonsPressed == old(buttonsPressed)
      ensures buttonsReleased == old(buttonsReleased)
      ensures mouseDelta == old(mouseDelta) && lastMousePosition == old(lastMousePosition)
    {
      mousePosition := Vec2(x as real, y as real);
    }

    /** The queries `is_key_down`, `is_key_pressed`, `is_key_released`,
        `is_mouse_button_down` and `is_mouse_button_pressed`. */
    predicate IsKeyDown(k: Key)
      reads this
    {
      k in keysDown
    }

    predicate IsKeyPressed(k: Key)
      reads this
    {
      k in keysPressed
    }

    predicate IsKeyReleased(k: Key)
      reads this
    {
      k in keysReleased
    }

    predicate IsMouseButtonDown(b: MouseButton)
      reads this
    {
      b in buttonsDown
    }

    predicate IsMouseButtonPressed(b: MouseButton)
      reads this
    {
      b in buttonsPressed
    }
  }

  /** A key held across two frames is reported pressed in the first frame
      only: after `update`, another key-down event for it does not press it
      again. */
  method HeldKeyPressedOnce(input: InputState, k: Key)
    requires k !in input.keysDown
    modifies input
    ensures input.keysDown == old(input.keysDown) + {k} && input.keysPressed == {}
  {
    input.HandleKeyDown(k);
    assert input.IsKeyPressed(k);
    input.Update();
    input.HandleKeyDown(k);
  }
}
