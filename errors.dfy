/**
 * The errors a board raises towards its callers, each carrying the message text
 * the board gives it.
 */
module Errors {
  import opened Params

  datatype BoardError =
    | BoardUnavailable(message: string)
    | BoardIncompatible(message: string)
    | UnsupportedArchitecture(message: string)
    | BoardPinNotFound(message: string)
    | InvalidArgument(message: string)
      /** The plain error the LED controller raises for a parameter outside 0..255. */
    | ParameterRange(message: string)

  const NotOnlineMessage := "Unable to execute action on this board since it is not online."
  const BlinkAlreadyEnabledMessage := "LED blink is already enabled."
  const ArchitectureNotSupportedMessage := "This architecture is not supported."
  const ParametersMessage := "Parameters should be 8 bit numbers (0-255)."

  /** The message for an action name that is not in the board's action table. */
  function IncompatibleMessage(action: Param): string
  {
    "'" + Render(action) + "' is not a valid action for this board."
  }

  /** The message for a pin that is not in the board's pin table. */
  function PinNotFoundMessage(pin: Param): string
  {
    "Attempted to set value of unknown pin " + Render(pin) + "."
  }

  /** The message for a pin value that is not a number. */
  function NotANumberMessage(pin: Param, value: Param): string
  {
    "Attempted to write value " + Render(value) + " to pin " + Render(pin) + "."
  }
}
