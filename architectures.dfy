/**
 * The architecture registry: named pin-role maps for the board families the
 * system supports. A board only ever takes an architecture that is in the
 * registry.
 */
module Architectures {

  /** Which physical pin serves as the onboard LED and as the serial RX and TX lines. */
  datatype PinMap = PinMap(led: nat, rx: nat, tx: nat)

  datatype BoardArchitecture = BoardArchitecture(name: string, pinMap: PinMap)

  const Esp8266 := BoardArchitecture("ESP_8266", PinMap(2, 3, 1))
  const ArduinoUno := BoardArchitecture("ARDUINO_UNO", PinMap(13, 1, 0))

  /** The registry of supported architectures. */
  const SupportedArchitectures: seq<BoardArchitecture> := [Esp8266, ArduinoUno]

  /** An architecture is supported when the registry has an entry of the same name. */
  predicate IsSupported(arch: BoardArchitecture)
  {
    exists i :: 0 <= i < |SupportedArchitectures| && SupportedArchitectures[i].name == arch.name
  }
}
