# Board service core, modelled in Dafny

The service manages microcontroller boards (Arduino- and ESP8266-class
devices) attached over a Firmata transport. This project models three parts
of it:

- **The board lifecycle and action dispatch.** A `Board` is a stateful object.
  It holds:
  - `online`, the architecture (a name and an LED/RX/TX pin map taken from a
    registry) and the current program;
  - an optional transport handle;
  - the lists of interval and timeout handles, and an optional blink interval.

  `executeAction` looks a name up in a fixed, ordered action table. It fails
  when the board is offline or the name is unknown. Otherwise it runs the bound
  handler and then posts a snapshot of the board (`toDiscrete`) on the
  transport. The handlers are blink on/off, toggle LED and set pin value.
  `disconnect` releases every timer, the listeners and the transport handle.
- **The LED controller's serial sub-protocol.** An LED controller is a board
  whose constructor configures the software serial port. It adds four actions,
  SETCOLOR, KITT, PULSECOLOR and RAINBOW. Each action writes the frame
  `'[' , tag , params… , ']'` to the software serial port, with tag `C`, `K`,
  `P` or `R`. Every parameter must first pass the 8-bit validator.
- **One connection attempt.** `ConnectionService.connectToBoard` opens a
  transport and arms a 10-second timeout. It then reacts to the transport's
  ready, error, update and disconnect events. On ready, it derives the board's
  type and id from the firmware's sketch name and registers the board.

The board and LED controller implementation files are not part of this
model. Their behaviour is taken from their unit tests, which serve as the
specification. The connection logic is modelled from its source.

Modules:

- **Infrastructure:**
  - `Wrappers`: Option, Outcome, Result.
  - `Params`: the JavaScript values that actions receive, and how they are
    rendered into text.
  - `Errors`: the error kinds and their messages.
  - `Architectures`: the registry.
- **Pure board specification:**
  - `LedProtocol`: the validator, the frame encoder and its parser.
  - `BoardSpec`: the board state as a value, with one function per operation.
    Each operation returns the new state, and an Outcome where the operation
    can fail. Calls the board makes
    to its transport and to the timer runtime are appended to a `calls` trace.
- **Proofs about the board:**
  - `BoardProperties`: lemmas about the board operations.
  - `LedControllerProperties`: lemmas about the LED controller.
- **Class and connection models:**
  - `Boards`: the class `Board`. Its fields mirror the state, and each method
    is proved to perform the `BoardSpec` transition.
  - `FirmwareName`: the sketch-name parsing, built from JavaScript's `split`,
    `shift`, `pop` and `replace`.
  - `Connection`: the connection attempt as a pure `Step` over events, a class
    with one handler method per event, and lemmas over whole event sequences.

Where the descriptions of the service and the code differ, the model follows
the code:

- **The id's extension.** The id is the last `_`-segment with the first
  occurrence of `.ino` removed, wherever that occurrence is. The extension is
  not only stripped from the end (`FirmwareName.FirstExtensionRemoved`).
- **The disconnect callback's argument.** The disconnect handler clears the
  board reference before it calls the `disconnected` callback. The callback
  therefore always receives no board (`Connection.DisconnectHandledOnce`).
- **An error before ready.** The error handler does not cancel the
  connection timeout. An attempt that never becomes ready and sees an error
  therefore reports a disconnect twice: once from the error handler and once
  from the timeout (`Connection.ErrorThenTimeoutReportsTwice`). The
  end-to-end promise of exactly one disconnect without a board holds only
  when the timeout comes first (`Connection.TimeoutFirst`).
- **An offline board may hold a transport and timers.** The design says that
  a board that is not online holds no interval or timeout handles and no
  transport. The code does not keep this. The tests build a board offline
  with a transport attached (board.model.test.ts:44-47), and a board starts
  offline with the transport it is given (`BoardProperties.OfflineBoardWithTransport`).
  They also start blink on that offline board (board.model.test.ts:323-336).
  So blink can be started on a disconnected board, which then holds an
  interval while offline (`BoardProperties.OfflineBoardCanBlink`). The model
  keeps only the weaker invariant that an online board has a transport
  (`BoardSpec.Valid`). The promise of no handles and no transport holds right
  after a disconnect (`BoardProperties.DisconnectReleases`).

Two choices are not fixed by the tests, and the model follows the design of
the service:

- **Registry membership is by name.** setArchitecture accepts an
  architecture whose name is a registry name and installs it as given
  (`Architectures.IsSupported`). The tests cannot tell this apart from a
  comparison of whole values, because the refused 'Bacon' entry has an
  unregistered name.
- **Disconnect also forgets the blink interval.** After a disconnect the
  blink interval is unset. Stopping blink then cancels nothing a second time
  (`BoardProperties.BlinkAfterDisconnect`).

## Model

| member | source | states |
|---|---|---|
| BoardProperties.ActionTableOrder | src/domain/board/base/board.model.test.ts:56-70 | The table starts with BLINKON, BLINKOFF, TOGGLELED, SETPINVALUE in that order, only SETPINVALUE requires parameters, and a plain board has exactly these four |
| BoardProperties.ActionNamesDistinct | src/domain/board/base/board.model.test.ts:56-70 | No two entries of either table share a name |
| BoardProperties.FindOwnName | src/domain/board/base/board.model.test.ts:173-190 | In a table with distinct names, looking up an entry's name yields that entry |
| BoardProperties.FindsEveryAction | src/domain/board/base/board.model.test.ts:173-190 | Every action of a board's table is found by its own name |
| BoardSpec.FindAction | src/domain/board/base/board.model.test.ts:205-238 | The lookup finds something exactly when some table entry has the given name (a non-string never matches), and what it finds is an entry of the table with that name |
| BoardProperties.SetArchitectureAcceptsRegistryOnly | src/domain/board/base/board.model.test.ts:73-104 | setArchitecture succeeds exactly when the name is ESP_8266 or ARDUINO_UNO; on success only the architecture changes, otherwise the board is unchanged and 'This architecture is not supported.' is raised |
| BoardProperties.RegistryEntries | src/domain/board/base/board.model.test.ts:75-102 | ESP_8266 gives LED 2, RX 3, TX 1; ARDUINO_UNO gives LED 13, RX 1, TX 0; names are copied; 'Bacon' with Uno's pin map is refused |
| BoardProperties.SetIdleSetsIdle | src/domain/board/base/board.model.test.ts:106-111 | setIdle sets the current program to IDLE and changes nothing else |
| BoardSpec.Snapshot | src/domain/board/base/board.model.test.ts:124-157 | The snapshot carries identity, program, online flag, architecture, actions and pins, and has a refresh rate exactly when a transport is attached |
| BoardProperties.SnapshotRefreshRate | src/domain/board/base/board.model.test.ts:124-157 | With a transport the snapshot's refresh rate is the transport's; without one it has none and no pins |
| Boards.Board.ToDiscreteArray | src/domain/board/base/board.model.test.ts:161-169 | One snapshot per board, in order, each the board's own snapshot |
| BoardProperties.ExecuteOffline | src/domain/board/base/board.model.test.ts:194-202 | Any action on an offline board raises BoardUnavailableError with the not-online message and changes nothing |
| BoardProperties.ExecuteUnknownName | src/domain/board/base/board.model.test.ts:205-238 | On an online board, a name (string or not) that is in no table entry raises BoardIncompatibleError quoting the name, and changes nothing |
| BoardProperties.RenderedActionNames | src/domain/board/base/board.model.test.ts:205-207 | The quoted names in the expected error messages render as 'bacon' and '1337' |
| BoardProperties.ExecuteByName | src/domain/board/base/board.model.test.ts:173-190 | On an online board, executing the i-th action's name runs that action's handler with the parameters and then posts an update |
| BoardProperties.ExecuteRunsBoundHandler | src/domain/board/base/board.model.test.ts:173-190 | BLINKON, BLINKOFF, TOGGLELED and SETPINVALUE run setBlinkLEDEnabled(true), setBlinkLEDEnabled(false), toggleLED() and setPinValue(p[0], p[1]) and then post |
| BoardProperties.ExecutePostsUpdateLast | src/domain/board/base/board.model.test.ts:185-188 | The last call of a successful action posts an update on the transport, carrying the snapshot of the board the handler left |
| BoardProperties.DispatchExtendsCalls | src/domain/board/base/board.model.test.ts:173-190 | A handler only appends to the calls already made |
| BoardProperties.ExecuteFailureChangesNothing | src/domain/board/base/board.model.test.ts:193-238 | An action that raises leaves the board exactly as it was |
| Boards.Board.ExecuteAction | src/domain/board/base/board.model.test.ts:171-240 | The method performs the specified executeAction transition and returns its outcome |
| BoardSpec.Without | src/domain/board/base/board.model.test.ts:285-310 | Removing a handle keeps exactly the other handles, and is the identity when the handle is absent |
| BoardProperties.WithoutKeepsDistinct | src/domain/board/base/board.model.test.ts:285-310 | Removing a handle from a duplicate-free list keeps it duplicate-free |
| BoardProperties.WithoutAppended | src/domain/board/base/board.model.test.ts:338-346 | Removing a freshly appended handle gives back the list before it |
| BoardProperties.ClearIntervalDropsHandle | src/domain/board/base/board.model.test.ts:283-311 | clearInterval/clearTimeout cancel the handle with the runtime and drop it from its list; a one-handle list becomes empty |
| Boards.Board.ClearInterval | src/domain/board/base/board.model.test.ts:285-294 | The method performs the clearInterval transition |
| Boards.Board.ClearTimeout | src/domain/board/base/board.model.test.ts:300-309 | The method performs the clearTimeout transition |
| Boards.Board.ClearAllIntervals | src/domain/board/base/board.model.test.ts:624-631 | The loop cancels every interval handle in order and leaves the list empty |
| Boards.Board.ClearAllTimeouts | src/domain/board/base/board.model.test.ts:633-640 | The loop cancels every timeout handle in order and leaves the list empty |
| Boards.Board.ClearListeners | src/domain/board/base/board.model.test.ts:270-281 | The transport's listener set becomes empty |
| Boards.Board.ClearAllTimers | src/domain/board/base/board.model.test.ts:256-268 | Clears intervals, timeouts and listeners |
| BoardProperties.BlinkEnable | src/domain/board/base/board.model.test.ts:323-336 | Enabling blink with none running schedules toggleLED every 500 ms under one fresh handle, records it as the blink interval and adds exactly one handle to the list |
| BoardProperties.BlinkTicksToggle | src/domain/board/base/board.model.test.ts:323-336 | After enabling blink, each firing of the blink interval runs toggleLED: two firings flip a LOW/HIGH LED and flip it back, with two pin writes |
| Boards.Board.FireInterval | src/domain/board/base/board.model.test.ts:333-335 | The method performs the interval-firing transition: the active blink interval toggles the LED |
| BoardProperties.BlinkGuard | src/domain/board/base/board.model.test.ts:350-359 | Enabling while a blink interval is set raises 'LED blink is already enabled.' and changes nothing |
| BoardProperties.BlinkTwiceRefused | src/domain/board/base/board.model.test.ts:350-359 | A second enable right after a successful one is refused |
| BoardProperties.BlinkOnThenOff | src/domain/board/base/board.model.test.ts:338-346 | Enable then disable cancels the blink interval, unsets it and restores the interval list (empty if it was empty) |
| BoardProperties.BlinkOffWhenIdle | src/domain/board/base/board.model.test.ts:338-346 | Disabling when not blinking changes nothing |
| Boards.Board.SetBlinkLedEnabled | src/domain/board/base/board.model.test.ts:313-361 | The method performs the setBlinkLEDEnabled transition |
| BoardProperties.SetBlinkKeepsValid | src/domain/board/base/board.model.test.ts:313-361 | Blink on/off keeps the handle lists duplicate-free and below the next handle |
| BoardProperties.SetPinValueStores | src/domain/board/base/board.model.test.ts:503-526 | Writing a number to an existing pin stores it in that pin only and calls analogWrite for an analog pin, digitalWrite otherwise |
| BoardProperties.SetPinValueUnknownPin | src/domain/board/base/board.model.test.ts:529-540 | Writing to a pin that does not exist raises BoardPinNotFoundError and changes nothing |
| Boards.Board.SetPinValue | src/domain/board/base/board.model.test.ts:503-540 | The method performs the setPinValue transition |
| BoardProperties.ToggleWritesOpposite | src/domain/board/base/board.model.test.ts:364-382 | toggleLED writes HIGH to a LOW LED pin and LOW to a HIGH one, through setPinValue |
| BoardProperties.ToggleTwiceRestores | src/domain/board/base/board.model.test.ts:364-382 | Toggling flips a LOW/HIGH LED value, and toggling twice restores it |
| BoardProperties.ToggleOnFixture | src/domain/board/base/__mocks__/firmata-board.model.ts:89-108 | On the two-pin fixture, toggling LED pin 1 writes HIGH digitally and toggling pin 0 writes LOW as analog |
| Boards.Board.ToggleLed | src/domain/board/base/board.model.test.ts:363-383 | The method performs the toggleLED transition |
| BoardProperties.DisconnectReleases | src/domain/board/base/board.model.test.ts:243-253 | After disconnect the board is offline with no interval or timeout handles, no blink interval and no transport; every interval and timeout was cancelled and listeners removed, after the calls already made |
| BoardProperties.DisconnectIdempotent | src/domain/board/base/board.model.test.ts:243-253 | Disconnecting twice is the same as once |
| BoardProperties.NoActionAfterDisconnect | src/domain/board/base/board.model.test.ts:194-202 | After disconnect every action raises BoardUnavailableError |
| BoardProperties.DisconnectKeepsValid | src/domain/board/base/board.model.test.ts:243-253 | Disconnect keeps the state invariant |
| Boards.Board.Disconnect | src/domain/board/base/board.model.test.ts:242-254 | The method performs the disconnect transition, which leaves the board released |
| BoardProperties.BlinkAfterDisconnect | src/domain/board/base/board.model.test.ts:242-254 | After a disconnect, stopping blink cancels nothing again, and starting it succeeds |
| BoardProperties.OfflineBoardCanBlink | src/domain/board/base/board.model.test.ts:323-336 | Enabling blink on a disconnected board schedules one interval under a fresh handle, recorded as the blink interval, while the board stays offline |
| BoardProperties.OfflineBoardWithTransport | src/domain/board/base/board.model.test.ts:44-47 | A board constructed with a transport is offline, holds that transport and satisfies the board invariant |
| BoardProperties.ExecuteKeepsValid | src/domain/board/base/board.model.test.ts:171-240 | Every action keeps the state invariant (distinct handles, all issued, online only with a transport) |
| BoardProperties.ClearKeepsValid | src/domain/board/base/board.model.test.ts:283-311 | clearInterval and clearTimeout keep the state invariant |
| Boards.Board.SetArchitecture | src/domain/board/base/board.model.test.ts:73-104 | The method performs the setArchitecture transition |
| Boards.Board.SetIdle | src/domain/board/base/board.model.test.ts:106-112 | The method performs the setIdle transition |
| Boards.Board.constructor | src/domain/board/base/board.model.test.ts:44-54 | A new board is offline, idle, without timers, and satisfies the invariant |
| Boards.Board.LedController | src/domain/board/extension/led-controller.model.test.ts:30-42 | The LED controller configures serial on SW_SERIAL0 with the baud rate and the architecture's RX and TX pins |
| LedProtocol.ParametersAreValid | src/domain/board/extension/led-controller.model.test.ts:180-200 | True exactly when every parameter is a number from 0 to 255 |
| LedProtocol.ParametersAreValidExamples | src/domain/board/extension/led-controller.model.test.ts:181-199 | The accepted and refused parameter lists of the tests |
| LedProtocol.Encode | src/domain/board/extension/led-controller.model.test.ts:46-66 | A command encodes exactly when its parameters are valid, to '[' , tag, the parameters, ']' of length n+3; otherwise it raises the 8-bit message |
| LedProtocol.ParseEncoded | src/domain/board/extension/led-controller.model.test.ts:46-66 | Parsing an encoded frame gives back the tag and parameters |
| LedProtocol.ParsedIsEncoded | src/domain/board/extension/led-controller.model.test.ts:46-66 | Every frame that parses is the encoding of what it parses to |
| LedProtocol.OneBadParameterRejects | src/domain/board/extension/led-controller.model.test.ts:86-97 | A single parameter outside 0..255 or not a number makes the command fail |
| LedControllerProperties.CommandsWriteFrames | src/domain/board/extension/led-controller.model.test.ts:69-147 | setColor, kitt and pulseColor with valid arguments write ['[','C',h,s,v,']'], ['[','K',h,s,v,']'] and ['[','P',h,s,']'] to SW_SERIAL0 and change nothing else |
| LedControllerProperties.RainbowWritesFrame | src/domain/board/extension/led-controller.model.test.ts:164-178 | rainbow writes ['[','R',']'] to SW_SERIAL0 and changes nothing else |
| LedControllerProperties.CommandsRejectInvalid | src/domain/board/extension/led-controller.model.test.ts:86-161 | Any invalid argument makes setColor, kitt and pulseColor raise 'Parameters should be 8 bit numbers (0-255).' and write nothing |
| LedControllerProperties.RejectedArguments | src/domain/board/extension/led-controller.model.test.ts:87-160 | The argument lists of the exception tests are refused |
| LedControllerProperties.SendInvalidRefused | src/domain/board/extension/led-controller.model.test.ts:86-161 | Sending a command with invalid parameters raises the range error and changes nothing |
| LedControllerProperties.SpreadArguments | src/domain/board/extension/led-controller.model.test.ts:46-66 | Spreading 3 or 2 parameters into a call's arguments passes them unchanged |
| LedControllerProperties.ExecuteWritesFrame | src/domain/board/extension/led-controller.model.test.ts:45-67 | On an online LED controller, SETCOLOR/KITT/PULSECOLOR/RAINBOW with valid parameters write exactly '[' , tag, p…, ']' and then post an update |
| LedControllerProperties.LedActionNames | src/domain/board/extension/led-controller.model.test.ts:46-51 | The LED controller's table adds SETCOLOR, KITT, PULSECOLOR, RAINBOW after the base actions, eight in all |
| LedControllerProperties.ExecuteSetColorRejectsInvalid | src/domain/board/extension/led-controller.model.test.ts:118-129 | SETCOLOR with invalid parameters raises the range error and changes nothing |
| LedControllerProperties.ExecuteKittRejectsInvalid | src/domain/board/extension/led-controller.model.test.ts:150-161 | KITT with invalid parameters raises the range error and changes nothing |
| LedControllerProperties.ExecutePulseColorRejectsInvalid | src/domain/board/extension/led-controller.model.test.ts:86-97 | PULSECOLOR with invalid parameters raises the range error and changes nothing |
| LedControllerProperties.PlainBoardRefusesLedActions | src/domain/board/base/board.model.test.ts:205-238 | A plain board refuses the LED controller's action names as incompatible |
| Boards.Board.SetColor | src/domain/board/extension/led-controller.model.test.ts:100-130 | The method performs the setColor transition |
| Boards.Board.Kitt | src/domain/board/extension/led-controller.model.test.ts:132-162 | The method performs the kitt transition |
| Boards.Board.PulseColor | src/domain/board/extension/led-controller.model.test.ts:69-98 | The method performs the pulseColor transition |
| Boards.Board.Rainbow | src/domain/board/extension/led-controller.model.test.ts:164-178 | The method performs the rainbow transition |
| FirmwareName.Split | src/service/connection-service.ts:82-83 | Splitting gives at least one part, no part contains the separator, and joining the parts back gives the input |
| FirmwareName.FindFrom | src/service/connection-service.ts:83 | The result is the first position at or after the start where the pattern occurs, or none when it occurs nowhere there |
| FirmwareName.RemoveFirst | src/service/connection-service.ts:83 | Removing the first occurrence cuts out exactly that occurrence, and leaves the text unchanged when there is none |
| FirmwareName.TypeIsTextBeforeFirstSeparator | src/service/connection-service.ts:82 | The type is the name's prefix up to its first '_' (the whole name when there is none) |
| FirmwareName.IdIsTextAfterLastSeparator | src/service/connection-service.ts:83 | The id comes from the name's suffix after its last '_' (the whole name when there is none), with the first '.ino' removed |
| FirmwareName.UsualSketchName | src/service/connection-service.ts:77-83 | For 'Prefix_unique.ino' the type is 'Prefix' and the id is 'unique' |
| FirmwareName.FirstExtensionRemoved | src/service/connection-service.ts:83 | Only the first '.ino' is removed, wherever it is |
| Connection.ReadyRegisters | src/service/connection-service.ts:74-92 | Ready clears the timeout first, registers the board under the parsed id and type, and passes the registry's board to connected |
| Connection.TimeoutTearsDown | src/service/connection-service.ts:64-72 | The timeout removes all listeners, drops the transport and board, and calls disconnected with no board |
| Connection.TimeoutAfterReadyIsCancelled | src/service/connection-service.ts:74-75 | After ready, the timeout has no effect |
| Connection.ErrorReportsBoard | src/service/connection-service.ts:94-97 | Error reports the current board to disconnected, then clears it |
| Connection.UpdateForwarded | src/service/connection-service.ts:99-101 | Update forwards its payload unchanged to updateBoard and changes nothing else |
| Connection.DisconnectHandledOnce | src/service/connection-service.ts:103-108 | Disconnect calls disconnected with no board and disconnectBoard with the parsed id; a second disconnect is not handled |
| Connection.SilentAfterTimeout | src/service/connection-service.ts:64-72 | Once the timeout has fired, no later event has any effect |
| Connection.TimeoutFirst | src/service/connection-service.ts:64-72 | An attempt that times out first arms the 10000 ms timeout, tears down, reports exactly one disconnect without a board, and nothing else ever |
| Connection.ErrorThenTimeoutReportsTwice | src/service/connection-service.ts:64-72 | An error before ready, then the timeout, reports a disconnect without a board twice, because the error handler at lines 94-97 does not cancel the timeout |
| Connection.ConnectOrTimeOut | src/service/connection-service.ts:54-109 | In any run, connected is never called when the timeout tore down, the teardown happens at most once, and disconnectBoard is called at most once |
| Connection.NoReadyNoConnected | src/service/connection-service.ts:86-89 | Without a ready event, connected is never called |
| Connection.StepKeepsReachable | src/service/connection-service.ts:54-109 | Every event keeps the attempt's invariant relating the timer, listeners and the calls made |
| Connection.RunKeepsReachable | src/service/connection-service.ts:54-109 | Any sequence of events keeps that invariant |
| Connection.ConnectionAttempt.constructor | src/service/connection-service.ts:55-72 | A new attempt holds the transport, has armed the 10000 ms timeout and listens, with no other call made |
| Connection.ConnectionAttempt.OnTimeout | src/service/connection-service.ts:64-72 | The handler performs the timeout step |
| Connection.ConnectionAttempt.OnReady | src/service/connection-service.ts:74-90 | The handler performs the ready step |
| Connection.ConnectionAttempt.OnError | src/service/connection-service.ts:94-97 | The handler performs the error step |
| Connection.ConnectionAttempt.OnUpdate | src/service/connection-service.ts:99-101 | The handler performs the update step |
| Connection.ConnectionAttempt.OnDisconnect | src/service/connection-service.ts:103-108 | The handler performs the disconnect step |

## Left out

- **Heartbeat and liveness probing**, `clearHeartbeatTimeout`, `compareAnalogReadout`, the pin listeners and `setIsSerialConnection`. Their tests are disabled, and the behaviour they describe is not pinned down.
- **setPinValue** (BoardProperties.SetPinValueStores):
  - The model does not capture the analog (0..1023) and digital (0/1) range checks. It does not capture the update that setPinValue itself emits either. Their tests are disabled.
  - The model refuses a non-number value with `InvalidArgument`. The wording of that message (`Errors.NotANumberMessage`) is the model's own, because the implementation is not part of this model.
- **serialWriteBytes**: its conversion of characters to bytes is not modelled. The frames are recorded as the values passed to the call.
- **clearListeners**: the exact listener names it removes are not modelled. The transport's listener set simply becomes empty.
- **Timers and real time:** these are not modelled.
  - Timer handles are abstract numbers that the runtime issues in order.
  - A timer firing is an explicit step. The blink interval fires through `FireInterval`, and the connection timeout is the `Timeout` event. The board's timeout handles are only tracked and cancelled; nothing makes them fire.
  - The only durations recorded are 500 ms and 10000 ms.
- BoardSpec.ToggleLedOf: any LED value other than LOW is written LOW, and a missing LED pin or a missing transport raises BoardPinNotFound. The tests fix only LOW to HIGH and HIGH to LOW, so these two cases are the model's own choice.
- BoardProperties.ToggleOnFixture: its case for LED pin 0 (the fixture's analog pin at 512 is written LOW) follows that choice, not a test.
- BoardSpec.SendCommand: the LED commands (SETCOLOR, KITT, PULSECOLOR) record their serial write whether or not a transport is attached. The source writes through the Firmata board, which a disconnected board no longer has, so a direct call after a disconnect fails there. The model does not capture that failure.
- BoardSpec.RainbowOf: likewise records its serial write with no transport attached, where the source cannot write.
- BoardSpec.Disconnect: removes all listeners only when a transport is attached. The tests disconnect only a board that has one. The guard is the model's own choice, and `BoardProperties.DisconnectIdempotent` holds because of it.
- Connection.Step: the `connected` and `disconnected` callbacks are optional parameters of connectToBoard, and the handlers call them unchecked. The model assumes both are supplied. It does not capture the error a handler raises when one is missing.
- BoardSpec.Snapshot: a snapshot without a transport has an empty pin list. The tests only fix that it has no refresh rate.
- **The serial baud rate and the default architecture** are constructor parameters. Their values are not part of this model.
- **The transport is a value, not a shared object.** Aliasing between the board and the connection service's handle is not modelled.
- **JavaScript numbers** are integers here. Fractions and NaN are not modelled.
- **Asynchrony:**
  - The `await` on `addBoard` is not modelled. The registry's board is an input of the ready event.
  - Interleavings within a handler are not modelled.
- **External collaborators:** the persistence layer, the logger, `getFirmataBoard` and the Firmata library internals. Persistence and logging are external. The Firmata library's events are the model's inputs, and its calls are recorded.
