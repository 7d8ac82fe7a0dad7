/**
 * The semantics of one board, as functions from the board's state before an
 * operation to its state after it (and, for operations that can fail, the
 * outcome). The class `Boards.Board` performs these operations in place; every
 * one of its methods is proved to end in the state given here.
 *
 * Calls the board makes to its collaborators (the transport handle and the
 * runtime's timer functions) are recorded, in order, in `calls`. Timer handles
 * are abstract numbers handed out in increasing order by `nextTimer`.
 */
module BoardSpec {
  import opened Wrappers
  import opened Params
  import opened Errors
  import opened Architectures
  import LedProtocol

  type TimerId = nat

  const Low := 0
  const High := 1
  /** The analog channel the transport reports for a pin that has none. */
  const NoAnalogChannel := 127
  const BlinkPeriodMs := 500
  const Idle := "IDLE"
  /** The transport's identifier of the first software serial port. */
  const SwSerial0 := 0x08

  datatype PinMode = Input | Output | Analog | Pwm | Servo | Serial

  /** A pin as the transport reports it. */
  datatype Pin = Pin(analogChannel: nat, supportedModes: seq<PinMode>, value: int, mode: PinMode, report: bool, state: int)

  /** The transport handle's state that the board reads or changes: its pin table, its reporting rate and its listeners. */
  datatype Transport = Transport(pins: seq<Pin>, refreshRate: nat, listeners: set<string>)

  datatype Identity = Identity(id: string, name: string, vendorId: string, productId: string, boardType: string)

  /** The handler an action is bound to. */
  datatype Handler = BlinkOn | BlinkOff | ToggleLed | SetPinValue | SetColor | Kitt | PulseColor | Rainbow

  datatype Action = Action(name: string, requiresParams: bool, handler: Handler)

  /** A plain board, or one extended with the LED controller's serial commands. */
  datatype BoardKind = Plain | LedController

  /** The serializable snapshot of a board; `refreshRate` is present only while a transport is attached. */
  datatype DiscreteBoard = DiscreteBoard(
    id: string, name: string, vendorId: string, productId: string, boardType: string,
    currentProgram: string, online: bool, lastUpdateReceived: int,
    architecture: BoardArchitecture, availableActions: seq<Action>, pins: seq<Pin>,
    refreshRate: Option<nat>)

  /** A call the board makes to the transport or to the runtime's timer functions. */
  datatype Call =
    /** Schedules `callback` every `periodMs` milliseconds under the handle `interval`. */
    | SetInterval(interval: TimerId, callback: Handler, periodMs: nat)
    | ClearInterval(interval: TimerId)
    | ClearTimeout(timeout: TimerId)
    | RemoveAllListeners
    | DigitalWrite(pin: nat, value: int)
    | AnalogWrite(pin: nat, value: int)
    | PostUpdate(snapshot: DiscreteBoard)
    | SerialConfig(portId: nat, baud: nat, rxPin: nat, txPin: nat)
    | SerialWrite(portId: nat, items: seq<Param>)

  datatype BoardState = BoardState(
    kind: BoardKind,
    identity: Identity,
    lastUpdateReceived: int,
    online: bool,
    architecture: BoardArchitecture,
    currentProgram: string,
    transport: Option<Transport>,
    intervals: seq<TimerId>,
    timeouts: seq<TimerId>,
    blinkInterval: Option<TimerId>,
    nextTimer: TimerId,
    calls: seq<Call>)

  /** The pin table of the two-pin transport fixture: an analog pin 0 and a digital pin 1. */
  const FixturePins: seq<Pin> := [
    Pin(0, [Analog], 512, Analog, true, Low),
    Pin(127, [Input], 0, Input, true, Low)
  ]

  predicate IsAnalog(pin: Pin)
  {
    pin.analogChannel != NoAnalogChannel
  }

  predicate NoDuplicates(hs: seq<TimerId>)
  {
    forall i, j :: 0 <= i < j < |hs| ==> hs[i] != hs[j]
  }

  /**
   * The invariant every operation keeps: timer handles are unique and older
   * than the next handle to be issued, and a board is online only while a
   * transport handle is attached.
   */
  predicate Valid(s: BoardState)
  {
    && NoDuplicates(s.intervals)
    && NoDuplicates(s.timeouts)
    && (forall h :: h in s.intervals ==> h < s.nextTimer)
    && (forall h :: h in s.timeouts ==> h < s.nextTimer)
    && (s.blinkInterval.Some? ==> s.blinkInterval.value < s.nextTimer)
    && (s.online ==> s.transport.Some?)
  }

  /** The state a board is left in by a disconnect: offline, no timers and no blink interval, no transport. */
  predicate Released(s: BoardState)
  {
    !s.online && s.intervals == [] && s.timeouts == [] && s.blinkInterval.None? && s.transport.None?
  }

  /** A newly constructed board: offline, running the idle program, with no timers and no calls made. */
  function Initial(kind: BoardKind, identity: Identity, arch: BoardArchitecture, lastUpdateReceived: int, transport: Option<Transport>): BoardState
  {
    BoardState(kind, identity, lastUpdateReceived, false, arch, Idle, transport, [], [], None, 0, [])
  }

  // ---------------------------------------------------------------------------
  // Action table

  const BaseActions: seq<Action> := [
    Action("BLINKON", false, BlinkOn),
    Action("BLINKOFF", false, BlinkOff),
    Action("TOGGLELED", false, ToggleLed),
    Action("SETPINVALUE", true, SetPinValue)
  ]

  const LedActions: seq<Action> := [
    Action("SETCOLOR", true, SetColor),
    Action("KITT", true, Kitt),
    Action("PULSECOLOR", true, PulseColor),
    Action("RAINBOW", false, Rainbow)
  ]

  /** The action table in declaration order; an extension appends its own actions. */
  function AvailableActions(kind: BoardKind): seq<Action>
  {
    BaseActions + (if kind == LedController then LedActions else [])
  }

  /** The first action in `table` whose name is `name`; a non-string name matches none. */
  function FindAction(table: seq<Action>, name: Param): (r: Option<Action>)
    ensures r.Some? <==> exists i :: 0 <= i < |table| && name == Str(table[i].name)
    ensures r.Some? ==> r.value in table && name == Str(r.value.name)
  {
    if table == [] then None
    else if name == Str(table[0].name) then Some(table[0])
    else FindAction(table[1..], name)
  }

  // ---------------------------------------------------------------------------
  // Queries

  /** The board's snapshot, with the pin table and reporting rate of the attached transport if any. */
  function Snapshot(s: BoardState): (d: DiscreteBoard)
    ensures d.refreshRate.Some? <==> s.transport.Some?
    ensures d.online == s.online && d.currentProgram == s.currentProgram && d.architecture == s.architecture
    ensures d.id == s.identity.id && d.boardType == s.identity.boardType
    ensures d.availableActions == AvailableActions(s.kind)
    ensures d.pins == if s.transport.Some? then s.transport.value.pins else []
  {
    var i := s.identity;
    DiscreteBoard(
      i.id, i.name, i.vendorId, i.productId, i.boardType,
      s.currentProgram, s.online, s.lastUpdateReceived,
      s.architecture, AvailableActions(s.kind),
      if s.transport.Some? then s.transport.value.pins else [],
      if s.transport.Some? then Some(s.transport.value.refreshRate) else None)
  }

  // ---------------------------------------------------------------------------
  // Architecture and program

  function SetArchitecture(s: BoardState, arch: BoardArchitecture): (BoardState, Outcome<BoardError>)
  {
    if IsSupported(arch) then (s.(architecture := arch), Pass)
    else (s, Fail(UnsupportedArchitecture(ArchitectureNotSupportedMessage)))
  }

  function SetIdle(s: BoardState): BoardState
  {
    s.(currentProgram := Idle)
  }

  // ---------------------------------------------------------------------------
  // Timers

  /** `hs` without any occurrence of `h`, the others in their order. */
  function Without(hs: seq<TimerId>, h: TimerId): (r: seq<TimerId>)
    ensures forall x :: x in r <==> x in hs && x != h
    ensures h !in hs ==> r == hs
  {
    if hs == [] then []
    else if hs[0] == h then Without(hs[1..], h)
    else [hs[0]] + Without(hs[1..], h)
  }

  function ClearIntervalCalls(hs: seq<TimerId>): seq<Call>
  {
    seq(|hs|, i requires 0 <= i < |hs| => ClearInterval(hs[i]))
  }

  function ClearTimeoutCalls(hs: seq<TimerId>): seq<Call>
  {
    seq(|hs|, i requires 0 <= i < |hs| => ClearTimeout(hs[i]))
  }

  /** Cancels one interval and drops it from the active intervals. */
  function ClearIntervalOf(s: BoardState, h: TimerId): BoardState
  {
    s.(calls := s.calls + [ClearInterval(h)], intervals := Without(s.intervals, h))
  }

  /** Cancels one timeout and drops it from the active timeouts. */
  function ClearTimeoutOf(s: BoardState, h: TimerId): BoardState
  {
    s.(calls := s.calls + [ClearTimeout(h)], timeouts := Without(s.timeouts, h))
  }

  function ClearAllIntervals(s: BoardState): BoardState
  {
    s.(calls := s.calls + ClearIntervalCalls(s.intervals), intervals := [])
  }

  function ClearAllTimeouts(s: BoardState): BoardState
  {
    s.(calls := s.calls + ClearTimeoutCalls(s.timeouts), timeouts := [])
  }

  /** Removes the board's listeners from the transport. */
  function ClearListeners(s: BoardState): BoardState
  {
    if s.transport.Some? then s.(transport := Some(s.transport.value.(listeners := {}))) else s
  }

  function ClearAllTimers(s: BoardState): BoardState
  {
    ClearListeners(ClearAllTimeouts(ClearAllIntervals(s)))
  }

  /** Starts blinking the LED (a 500 ms interval that toggles it), or stops it. */
  function SetBlinkLedEnabled(s: BoardState, enabled: bool): (BoardState, Outcome<BoardError>)
  {
    if enabled then
      if s.blinkInterval.Some? then (s, Fail(BoardUnavailable(BlinkAlreadyEnabledMessage)))
      else
        var h := s.nextTimer;
        (s.(nextTimer := h + 1, calls := s.calls + [SetInterval(h, ToggleLed, BlinkPeriodMs)],
            blinkInterval := Some(h), intervals := s.intervals + [h]), Pass)
    else if s.blinkInterval.Some? then
      (ClearIntervalOf(s, s.blinkInterval.value).(blinkInterval := None), Pass)
    else (s, Pass)
  }

  // ---------------------------------------------------------------------------
  // Pins

  /** True when `pin` is a number indexing the attached transport's pin table. */
  predicate PinExists(s: BoardState, pin: Param)
  {
    pin.Num? && s.transport.Some? && 0 <= pin.n < |s.transport.value.pins|
  }

  /** Writes a value to a pin (analog or digital write, by the pin's kind) and records it in the pin table. */
  function SetPinValueOf(s: BoardState, pin: Param, value: Param): (BoardState, Outcome<BoardError>)
  {
    if !PinExists(s, pin) then (s, Fail(BoardPinNotFound(PinNotFoundMessage(pin))))
    else if !value.Num? then (s, Fail(InvalidArgument(NotANumberMessage(pin, value))))
    else
      var t := s.transport.value;
      var p := t.pins[pin.n];
      var write := if IsAnalog(p) then AnalogWrite(pin.n, value.n) else DigitalWrite(pin.n, value.n);
      (s.(transport := Some(t.(pins := t.pins[pin.n := p.(value := value.n)])),
          calls := s.calls + [write]), Pass)
  }

  /** The current value of the LED pin, when the LED pin is in the pin table. */
  function LedValue(s: BoardState): Option<int>
  {
    var led := s.architecture.pinMap.led;
    if PinExists(s, Num(led)) then Some(s.transport.value.pins[led].value) else None
  }

  /** Writes HIGH to the LED pin when it is LOW, and LOW otherwise. */
  function ToggleLedOf(s: BoardState): (BoardState, Outcome<BoardError>)
  {
    var led := s.architecture.pinMap.led;
    match LedValue(s)
    case None => (s, Fail(BoardPinNotFound(PinNotFoundMessage(Num(led)))))
    case Some(v) => SetPinValueOf(s, Num(led), Num(if v == Low then High else Low))
  }

  /**
   * The runtime firing interval `h`. The active blink interval runs the
   * callback it was scheduled with, toggleLED; a handle that is no longer
   * active does nothing.
   */
  function FireInterval(s: BoardState, h: TimerId): (BoardState, Outcome<BoardError>)
  {
    if s.blinkInterval == Some(h) && h in s.intervals then ToggleLedOf(s) else (s, Pass)
  }

  // ---------------------------------------------------------------------------
  // LED controller commands

  /** Validates and writes one command frame to the software serial port. */
  function SendCommand(s: BoardState, tag: char, params: seq<Param>): (BoardState, Outcome<BoardError>)
  {
    match LedProtocol.Encode(tag, params)
    case Err(e) => (s, Fail(e))
    case Ok(frame) => (s.(calls := s.calls + [SerialWrite(SwSerial0, frame)]), Pass)
  }

  function SetColorOf(s: BoardState, hue: Param, saturation: Param, value: Param): (BoardState, Outcome<BoardError>)
  {
    SendCommand(s, LedProtocol.SetColorTag, [hue, saturation, value])
  }

  function KittOf(s: BoardState, hue: Param, saturation: Param, value: Param): (BoardState, Outcome<BoardError>)
  {
    SendCommand(s, LedProtocol.KittTag, [hue, saturation, value])
  }

  function PulseColorOf(s: BoardState, hue: Param, saturation: Param): (BoardState, Outcome<BoardError>)
  {
    SendCommand(s, LedProtocol.PulseColorTag, [hue, saturation])
  }

  /** The rainbow command has no parameters and is never refused. */
  function RainbowOf(s: BoardState): BoardState
  {
    s.(calls := s.calls + [SerialWrite(SwSerial0, LedProtocol.Frame(LedProtocol.RainbowTag, []))])
  }

  /** The serial configuration the LED controller sets up: the software serial port on the architecture's RX and TX pins. */
  function SerialConfigFor(arch: BoardArchitecture, baud: nat): Call
  {
    SerialConfig(SwSerial0, baud, arch.pinMap.rx, arch.pinMap.tx)
  }

  // ---------------------------------------------------------------------------
  // Disconnect and action dispatch

  /** Removes all listeners from the transport, clears every timer and the blink interval, goes offline and drops the transport. */
  function Disconnect(s: BoardState): BoardState
  {
    var s1 :=
      if s.transport.Some? then
        s.(calls := s.calls + [RemoveAllListeners], transport := Some(s.transport.value.(listeners := {})))
      else s;
    ClearAllTimers(s1).(online := false, transport := None, blinkInterval := None)
  }

  /** Runs the handler an action is bound to, with the parameters spread into its arguments. */
  function Dispatch(s: BoardState, handler: Handler, params: seq<Param>): (BoardState, Outcome<BoardError>)
  {
    match handler
    case BlinkOn => SetBlinkLedEnabled(s, true)
    case BlinkOff => SetBlinkLedEnabled(s, false)
    case ToggleLed => ToggleLedOf(s)
    case SetPinValue => SetPinValueOf(s, Arg(params, 0), Arg(params, 1))
    case SetColor => SetColorOf(s, Arg(params, 0), Arg(params, 1), Arg(params, 2))
    case Kitt => KittOf(s, Arg(params, 0), Arg(params, 1), Arg(params, 2))
    case PulseColor => PulseColorOf(s, Arg(params, 0), Arg(params, 1))
    case Rainbow => (RainbowOf(s), Pass)
  }

  /** Posts an update carrying the board's snapshot on the transport. */
  function Posted(s: BoardState): BoardState
  {
    s.(calls := s.calls + [PostUpdate(Snapshot(s))])
  }

  /** A handler's step followed by the update that a successful action posts. */
  function Completed(step: (BoardState, Outcome<BoardError>)): (BoardState, Outcome<BoardError>)
  {
    if step.1.Fail? then step else (Posted(step.0), Pass)
  }

  /**
   * Runs the named action: refused on an offline board and for a name not in
   * the action table; otherwise the handler runs and, when it succeeds, an
   * update carrying the new snapshot is posted on the transport.
   */
  function ExecuteAction(s: BoardState, name: Param, params: seq<Param>): (BoardState, Outcome<BoardError>)
  {
    if !s.online then (s, Fail(BoardUnavailable(NotOnlineMessage)))
    else match FindAction(AvailableActions(s.kind), name)
      case None => (s, Fail(BoardIncompatible(IncompatibleMessage(name))))
      case Some(action) =>
        Completed(Dispatch(s, action.handler, params))
  }
}
