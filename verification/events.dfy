/** The slice of winit's window events that the renderer looks at. */
module Events {
  import opened Optional

  datatype ElementState = Pressed | Released

  /** The keys the renderer reacts to; every other key is `Other`. */
  datatype VirtualKeyCode = W | A | S | D | F | Escape | Up | Left | Right | Other(code: nat)

  /** `PhysicalSize<u32>`. */
  datatype PhysicalSize = PhysicalSize(width: nat, height: nat)

  datatype WindowEvent =
    | KeyboardInput(state: ElementState, keycode: Option<VirtualKeyCode>)
    | CursorMoved(x: real, y: real)
    | CloseRequested
    | Resized(size: PhysicalSize)
    | ScaleFactorChanged(newInnerSize: PhysicalSize)
    | OtherEvent

  /** `e` is a keyboard event for `key`, pressed or released. */
  predicate IsKey(e: WindowEvent, key: VirtualKeyCode)
  {
    e.KeyboardInput? && e.keycode == Some(key)
  }

  /** `e` is a key press of `key`. */
  predicate IsPress(e: WindowEvent, key: VirtualKeyCode)
  {
    IsKey(e, key) && e.state == Pressed
  }
}
