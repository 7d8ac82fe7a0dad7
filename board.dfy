/**
 * A board as the system holds it: an object whose operations update its fields
 * in place. Each method is proved to end in the state that `BoardSpec` gives
 * for the operation; the properties of those states are proved in
 * `BoardProperties` and `LedControllerProperties`.
 */
module Boards {
  import opened Wrappers
  import opened Params
  import opened Errors
  import opened Architectures
  import LedProtocol
  import opened BoardSpec

  class Board {
    /** Whether this is a plain board or an LED controller. */
    const kind: BoardKind
    var identity: Identity
    var lastUpdateReceived: int
    var online: bool
    var architecture: BoardArchitecture
    var currentProgram: string
    /** The transport handle, when one is attached. */
    var firmataBoard: Option<Transport>
    var intervals: seq<TimerId>
    var timeouts: seq<TimerId>
    var blinkInterval: Option<TimerId>
    /** The handle the runtime issues for the next timer. */
    var nextTimer: TimerId
    /** The calls made so far to the transport and to the runtime's timer functions. */
    var calls: seq<Call>

    function State(): BoardState
      reads this
    {
      BoardState(kind, identity, lastUpdateReceived, online, architecture, currentProgram,
                 firmataBoard, intervals, timeouts, blinkInterval, nextTimer, calls)
    }

    constructor (identity: Identity, architecture: BoardArchitecture, lastUpdateReceived: int, firmataBoard: Option<Transport>)
      ensures State() == Initial(Plain, identity, architecture, lastUpdateReceived, firmataBoard)
      ensures Valid(State())
    {
      kind := Plain;
      this.identity := identity;
      this.lastUpdateReceived := lastUpdateReceived;
      online := false;
      this.architecture := architecture;
      currentProgram := Idle;
      this.firmataBoard := firmataBoard;
      intervals, timeouts := [], [];
      blinkInterval := None;
      nextTimer := 0;
      calls := [];
    }

    /** An LED controller: configures the software serial port on the architecture's RX and TX pins. */
    constructor LedController(identity: Identity, architecture: BoardArchitecture, lastUpdateReceived: int, firmataBoard: Transport, baud: nat)
      ensures State() == Initial(BoardKind.LedController, identity, architecture, lastUpdateReceived, Some(firmataBoard))
                           .(calls := [SerialConfigFor(architecture, baud)])
      ensures calls == [SerialConfig(SwSerial0, baud, architecture.pinMap.rx, architecture.pinMap.tx)]
      ensures Valid(State())
    {
      kind := BoardKind.LedController;
      this.identity := identity;
      this.lastUpdateReceived := lastUpdateReceived;
      online := false;
      this.architecture := architecture;
      currentProgram := Idle;
      this.firmataBoard := Some(firmataBoard);
      intervals, timeouts := [], [];
      blinkInterval := None;
      nextTimer := 0;
      calls := [SerialConfig(SwSerial0, baud, architecture.pinMap.rx, architecture.pinMap.tx)];
    }

    function GetAvailableActions(): seq<Action>
      reads this
    {
      AvailableActions(kind)
    }

    function ToDiscrete(): DiscreteBoard
      reads this
    {
      Snapshot(State())
    }

    static function ToDiscreteArray(boards: seq<Board>): (r: seq<DiscreteBoard>)
      reads set b | b in boards
      ensures |r| == |boards|
      ensures forall i :: 0 <= i < |boards| ==> r[i] == Snapshot(boards[i].State())
    {
      seq(|boards|, i requires 0 <= i < |boards| reads boards => boards[i].ToDiscrete())
    }

    method SetArchitecture(arch: BoardArchitecture) returns (r: Outcome<BoardError>)
      modifies this
      ensures (State(), r) == BoardSpec.SetArchitecture(old(State()), arch)
    {
      if !IsSupported(arch) {
        return Fail(UnsupportedArchitecture(ArchitectureNotSupportedMessage));
      }
      architecture := arch;
      r := Pass;
    }

    method SetIdle()
      modifies this
      ensures State() == BoardSpec.SetIdle(old(State()))
    {
      currentProgram := Idle;
    }

    method ClearInterval(h: TimerId)
      modifies this
      ensures State() == ClearIntervalOf(old(State()), h)
    {
      calls := calls + [Call.ClearInterval(h)];
      intervals := Without(intervals, h);
    }

    method ClearTimeout(h: TimerId)
      modifies this
      ensures State() == ClearTimeoutOf(old(State()), h)
    {
      calls := calls + [Call.ClearTimeout(h)];
      timeouts := Without(timeouts, h);
    }

    /** Cancels every active interval, in order, then empties the list. */
    method ClearAllIntervals()
      modifies this
      ensures State() == BoardSpec.ClearAllIntervals(old(State()))
    {
      var i := 0;
      while i < |intervals|
        invariant 0 <= i <= |intervals|
        invariant State() == old(State()).(calls := old(calls) + ClearIntervalCalls(intervals[..i]))
      {
        assert ClearIntervalCalls(intervals[..i + 1]) == ClearIntervalCalls(intervals[..i]) + [Call.ClearInterval(intervals[i])];
        calls := calls + [Call.ClearInterval(intervals[i])];
        i := i + 1;
      }
      assert intervals[..i] == intervals;
      intervals := [];
    }

    /** Cancels every active timeout, in order, then empties the list. */
    method ClearAllTimeouts()
      modifies this
      ensures State() == BoardSpec.ClearAllTimeouts(old(State()))
    {
      var i := 0;
      while i < |timeouts|
        invariant 0 <= i <= |timeouts|
        invariant State() == old(State()).(calls := old(calls) + ClearTimeoutCalls(timeouts[..i]))
      {
        assert ClearTimeoutCalls(timeouts[..i + 1]) == ClearTimeoutCalls(timeouts[..i]) + [Call.ClearTimeout(timeouts[i])];
        calls := calls + [Call.ClearTimeout(timeouts[i])];
        i := i + 1;
      }
      assert timeouts[..i] == timeouts;
      timeouts := [];
    }

    method ClearListeners()
      modifies this
      ensures State() == BoardSpec.ClearListeners(old(State()))
    {
      if firmataBoard.Some? {
        firmataBoard := Some(firmataBoard.value.(listeners := {}));
      }
    }

    method ClearAllTimers()
      modifies this
      ensures State() == BoardSpec.ClearAllTimers(old(State()))
    {
      ClearAllIntervals();
      ClearAllTimeouts();
      ClearListeners();
    }

    method Disconnect()
      modifies this
      ensures State() == BoardSpec.Disconnect(old(State()))
    {
      if firmataBoard.Some? {
        calls := calls + [RemoveAllListeners];
        firmataBoard := Some(firmataBoard.value.(listeners := {}));
      }
      ClearAllTimers();
      online := false;
      firmataBoard := None;
      blinkInterval := None;
    }

    method SetBlinkLedEnabled(enabled: bool) returns (r: Outcome<BoardError>)
      modifies this
      ensures (State(), r) == BoardSpec.SetBlinkLedEnabled(old(State()), enabled)
    {
      if enabled {
        if blinkInterval.Some? {
          return Fail(BoardUnavailable(BlinkAlreadyEnabledMessage));
        }
        var h := nextTimer;
        nextTimer := nextTimer + 1;
        calls := calls + [SetInterval(h, Handler.ToggleLed, BlinkPeriodMs)];
        blinkInterval := Some(h);
        intervals := intervals + [h];
      } else if blinkInterval.Some? {
        ClearInterval(blinkInterval.value);
        blinkInterval := None;
      }
      r := Pass;
    }

    /** The runtime firing interval `h`: the active blink interval toggles the LED. */
    method FireInterval(h: TimerId) returns (r: Outcome<BoardError>)
      modifies this
      ensures (State(), r) == BoardSpec.FireInterval(old(State()), h)
    {
      r := Pass;
      if blinkInterval == Some(h) && h in intervals {
        r := ToggleLed();
      }
    }

    method SetPinValue(pin: Param, value: Param) returns (r: Outcome<BoardError>)
      modifies this
      ensures (State(), r) == SetPinValueOf(old(State()), pin, value)
    {
      if !(pin.Num? && firmataBoard.Some? && 0 <= pin.n < |firmataBoard.value.pins|) {
        return Fail(BoardPinNotFound(PinNotFoundMessage(pin)));
      }
      if !value.Num? {
        return Fail(InvalidArgument(NotANumberMessage(pin, value)));
      }
      var t := firmataBoard.value;
      var p := t.pins[pin.n];
      if p.analogChannel != NoAnalogChannel {
        calls := calls + [AnalogWrite(pin.n, value.n)];
      } else {
        calls := calls + [DigitalWrite(pin.n, value.n)];
      }
      firmataBoard := Some(t.(pins := t.pins[pin.n := p.(value := value.n)]));
      r := Pass;
    }

    method ToggleLed() returns (r: Outcome<BoardError>)
      modifies this
      ensures (State(), r) == ToggleLedOf(old(State()))
    {
      var led := architecture.pinMap.led;
      if !(firmataBoard.Some? && led < |firmataBoard.value.pins|) {
        return Fail(BoardPinNotFound(PinNotFoundMessage(Num(led))));
      }
      if firmataBoard.value.pins[led].value == Low {
        r := SetPinValue(Num(led), Num(High));
      } else {
        r := SetPinValue(Num(led), Num(Low));
      }
    }

    method SetColor(hue: Param, saturation: Param, value: Param) returns (r: Outcome<BoardError>)
      modifies this
      ensures (State(), r) == SetColorOf(old(State()), hue, saturation, value)
    {
      r := WriteCommand(LedProtocol.SetColorTag, [hue, saturation, value]);
    }

    method Kitt(hue: Param, saturation: Param, value: Param) returns (r: Outcome<BoardError>)
      modifies this
      ensures (State(), r) == KittOf(old(State()), hue, saturation, value)
    {
      r := WriteCommand(LedProtocol.KittTag, [hue, saturation, value]);
    }

    method PulseColor(hue: Param, saturation: Param) returns (r: Outcome<BoardError>)
      modifies this
      ensures (State(), r) == PulseColorOf(old(State()), hue, saturation)
    {
      r := WriteCommand(LedProtocol.PulseColorTag, [hue, saturation]);
    }

    method Rainbow()
      modifies this
      ensures State() == RainbowOf(old(State()))
    {
      calls := calls + [SerialWrite(SwSerial0, LedProtocol.Frame(LedProtocol.RainbowTag, []))];
    }

    method WriteCommand(tag: char, params: seq<Param>) returns (r: Outcome<BoardError>)
      modifies this
      ensures (State(), r) == SendCommand(old(State()), tag, params)
    {
      if !LedProtocol.ParametersAreValid(params) {
        return Fail(ParameterRange(ParametersMessage));
      }
      calls := calls + [SerialWrite(SwSerial0, LedProtocol.Frame(tag, params))];
      r := Pass;
    }

    method ExecuteAction(name: Param, params: seq<Param>) returns (r: Outcome<BoardError>)
      modifies this
      ensures (State(), r) == BoardSpec.ExecuteAction(old(State()), name, params)
    {
      if !online {
        return Fail(BoardUnavailable(NotOnlineMessage));
      }
      var found := FindAction(AvailableActions(kind), name);
      if found.None? {
        return Fail(BoardIncompatible(IncompatibleMessage(name)));
      }
      match found.value.handler {
        case BlinkOn => r := SetBlinkLedEnabled(true);
        case BlinkOff => r := SetBlinkLedEnabled(false);
        case ToggleLed => r := ToggleLed();
        case SetPinValue => r := SetPinValue(Arg(params, 0), Arg(params, 1));
        case SetColor => r := SetColor(Arg(params, 0), Arg(params, 1), Arg(params, 2));
        case Kitt => r := Kitt(Arg(params, 0), Arg(params, 1), Arg(params, 2));
        case PulseColor => r := PulseColor(Arg(params, 0), Arg(params, 1));
        case Rainbow => Rainbow(); r := Pass;
      }
      if r.Pass? {
        calls := calls + [PostUpdate(ToDiscrete())];
      }
    }
  }
}
