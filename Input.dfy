/**
 * The input vocabulary the engine and the video player react to. The Input class that buffers
 * and dispatches events is not part of this model; only the event kinds, the key symbols the
 * handlers switch on and the mouse buttons are.
 */
module Input {

  datatype EventType =
    | Undefined
    | KeyPress
    | KeyRelease
    | MouseButtonPress
    | MouseButtonRelease
    | MouseMotion
    | Scroll

  datatype MouseButton = First | Second | Middle | OtherButton

  /** The key symbols some handler of the model switches on; every other key is `OtherKey`. */
  datatype KeySym =
    | Escape | Space | Home | Tab
    | Num1 | Num2 | Num3
    | E | G | H | I | K | L | O | P | R | U | Y
    | OtherKey(code: int)

  /** GLFW's key action codes (GLFW_RELEASE, GLFW_PRESS, GLFW_REPEAT). */
  const GlfwRelease: int := 0
  const GlfwPress: int := 1
  const GlfwRepeat: int := 2

  /** One key event as the operating-system glue hands it to the input system. */
  datatype KeyEvent = KeyEvent(eventType: EventType, key: int, scancode: int)
}
