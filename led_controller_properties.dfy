/** What the LED controller's commands write to the software serial port, directly and through its actions. */
module LedControllerProperties {
  import opened Wrappers
  import opened Params
  import opened Errors
  import LedProtocol
  import opened BoardSpec
  import BoardProperties

  /** setColor, kitt and pulseColor write their bracketed frame when every parameter is an 8-bit number. */
  lemma CommandsWriteFrames(s: BoardState, h: Param, sat: Param, v: Param)
    requires LedProtocol.ParametersAreValid([h, sat, v])
    ensures SetColorOf(s, h, sat, v)
         == (s.(calls := s.calls + [SerialWrite(0x08, [Str("["), Str("C"), h, sat, v, Str("]")])]), Pass)
    ensures KittOf(s, h, sat, v)
         == (s.(calls := s.calls + [SerialWrite(0x08, [Str("["), Str("K"), h, sat, v, Str("]")])]), Pass)
    ensures PulseColorOf(s, h, sat)
         == (s.(calls := s.calls + [SerialWrite(0x08, [Str("["), Str("P"), h, sat, Str("]")])]), Pass)
  {
    assert LedProtocol.ParametersAreValid([h, sat]);
    assert LedProtocol.Frame('C', [h, sat, v]) == [Str("["), Str("C"), h, sat, v, Str("]")];
    assert LedProtocol.Frame('K', [h, sat, v]) == [Str("["), Str("K"), h, sat, v, Str("]")];
    assert LedProtocol.Frame('P', [h, sat]) == [Str("["), Str("P"), h, sat, Str("]")];
  }

  /** rainbow always writes the empty frame of its tag. */
  lemma RainbowWritesFrame(s: BoardState)
    ensures RainbowOf(s).calls == s.calls + [SerialWrite(0x08, [Str("["), Str("R"), Str("]")])]
    ensures RainbowOf(s).(calls := s.calls) == s
  {
    assert LedProtocol.Frame('R', []) == [Str("["), Str("R"), Str("]")];
  }

  /** Any parameter that is not an 8-bit number makes setColor, kitt and pulseColor raise the range error and write nothing. */
  lemma CommandsRejectInvalid(s: BoardState, h: Param, sat: Param, v: Param)
    requires !LedProtocol.ParametersAreValid([h, sat, v])
    ensures SetColorOf(s, h, sat, v) == (s, Fail(ParameterRange("Parameters should be 8 bit numbers (0-255).")))
    ensures KittOf(s, h, sat, v) == (s, Fail(ParameterRange(ParametersMessage)))
    ensures !LedProtocol.ParametersAreValid([h, sat]) ==>
      PulseColorOf(s, h, sat) == (s, Fail(ParameterRange(ParametersMessage)))
  {
  }

  /** The refused argument lists: out of range below or above, and strings. */
  lemma RejectedArguments(s: BoardState)
    ensures SetColorOf(s, Num(0), Num(256), Num(0)).1.Fail?
    ensures SetColorOf(s, Num(-1), Num(255), Num(300)).1.Fail?
    ensures SetColorOf(s, Str("a"), Num(255), Num(-2)).1.Fail?
    ensures SetColorOf(s, Num(128), Str("z"), Num(100)).1.Fail?
    ensures KittOf(s, Num(0), Num(256), Num(0)).1.Fail?
    ensures KittOf(s, Num(-1), Num(255), Num(300)).1.Fail?
    ensures KittOf(s, Str("a"), Num(255), Num(-2)).1.Fail?
    ensures KittOf(s, Num(128), Str("z"), Num(100)).1.Fail?
    ensures PulseColorOf(s, Num(0), Num(256)).1.Fail?
    ensures PulseColorOf(s, Num(-1), Num(255)).1.Fail?
    ensures PulseColorOf(s, Str("a"), Num(255)).1.Fail?
    ensures PulseColorOf(s, Num(128), Str("z")).1.Fail?
  {
    LedProtocol.OneBadParameterRejects('C', [Num(0), Num(256), Num(0)], 1);
    LedProtocol.OneBadParameterRejects('C', [Num(-1), Num(255), Num(300)], 0);
    LedProtocol.OneBadParameterRejects('C', [Str("a"), Num(255), Num(-2)], 0);
    LedProtocol.OneBadParameterRejects('C', [Num(128), Str("z"), Num(100)], 1);
    LedProtocol.OneBadParameterRejects('K', [Num(0), Num(256), Num(0)], 1);
    LedProtocol.OneBadParameterRejects('K', [Num(-1), Num(255), Num(300)], 0);
    LedProtocol.OneBadParameterRejects('K', [Str("a"), Num(255), Num(-2)], 0);
    LedProtocol.OneBadParameterRejects('K', [Num(128), Str("z"), Num(100)], 1);
    LedProtocol.OneBadParameterRejects('P', [Num(0), Num(256)], 1);
    LedProtocol.OneBadParameterRejects('P', [Num(-1), Num(255)], 0);
    LedProtocol.OneBadParameterRejects('P', [Str("a"), Num(255)], 0);
    LedProtocol.OneBadParameterRejects('P', [Num(128), Str("z")], 1);
  }

  /** Recombining the spread arguments of a call with exactly `n` parameters gives the parameters back. */
  lemma SpreadArguments(params: seq<Param>)
    ensures |params| == 3 ==> [Arg(params, 0), Arg(params, 1), Arg(params, 2)] == params
    ensures |params| == 2 ==> [Arg(params, 0), Arg(params, 1)] == params
  {
  }

  /**
   * On an online LED controller, SETCOLOR, KITT, PULSECOLOR and RAINBOW with
   * valid parameters `p` of their arity write exactly '[', tag, p..., ']' (a
   * frame of |p| + 3 items) and then post the update.
   */
  lemma ExecuteWritesFrame(s: BoardState, i: nat, p: seq<Param>)
    requires s.online && s.kind == LedController
    requires 4 <= i < 8
    requires |p| == [3, 3, 2, 0][i - 4] && LedProtocol.ParametersAreValid(p)
    ensures var tag := ['C', 'K', 'P', 'R'][i - 4];
      var t := ExecuteAction(s, Str(AvailableActions(s.kind)[i].name), p);
      var frame := LedProtocol.Frame(tag, p);
      && t.1.Pass?
      && |frame| == |p| + 3
      && t.0 == Posted(s.(calls := s.calls + [SerialWrite(SwSerial0, frame)]))
  {
    BoardProperties.ExecuteByName(s, i, p);
    SpreadArguments(p);
    if i == 6 {
      assert [Arg(p, 0), Arg(p, 1)] == p;
    }
  }

  /** The LED actions' names, in order after the base table. */
  lemma LedActionNames()
    ensures AvailableActions(LedController)[4].name == "SETCOLOR"
    ensures AvailableActions(LedController)[5].name == "KITT"
    ensures AvailableActions(LedController)[6].name == "PULSECOLOR"
    ensures AvailableActions(LedController)[7].name == "RAINBOW"
    ensures |AvailableActions(LedController)| == 8
  {
  }

  /** A command with an invalid parameter list is refused with the range error and writes nothing. */
  lemma SendInvalidRefused(s: BoardState, tag: char, p: seq<Param>)
    requires !LedProtocol.ParametersAreValid(p)
    ensures SendCommand(s, tag, p) == (s, Fail(ParameterRange(ParametersMessage)))
  {
  }

  /** Through SETCOLOR, a list of 3 parameters that is not all 8-bit numbers is refused with the range error and changes nothing. */
  lemma ExecuteSetColorRejectsInvalid(s: BoardState, p: seq<Param>)
    requires s.online && s.kind == LedController
    requires |p| == 3 && !LedProtocol.ParametersAreValid(p)
    ensures ExecuteAction(s, Str("SETCOLOR"), p) == (s, Fail(ParameterRange(ParametersMessage)))
  {
    SpreadArguments(p);
    SendInvalidRefused(s, 'C', p);
    BoardProperties.ExecuteByName(s, 4, p);
    assert AvailableActions(s.kind)[4] == LedActions[0];
    assert Dispatch(s, SetColor, p) == (s, Fail(ParameterRange(ParametersMessage)));
  }

  /** Through KITT, a list of 3 parameters that is not all 8-bit numbers is refused with the range error and changes nothing. */
  lemma ExecuteKittRejectsInvalid(s: BoardState, p: seq<Param>)
    requires s.online && s.kind == LedController
    requires |p| == 3 && !LedProtocol.ParametersAreValid(p)
    ensures ExecuteAction(s, Str("KITT"), p) == (s, Fail(ParameterRange(ParametersMessage)))
  {
    SpreadArguments(p);
    SendInvalidRefused(s, 'K', p);
    BoardProperties.ExecuteByName(s, 5, p);
    assert AvailableActions(s.kind)[5] == LedActions[1];
    assert Dispatch(s, Kitt, p) == (s, Fail(ParameterRange(ParametersMessage)));
  }

  /** Through PULSECOLOR, a list of 2 parameters that is not all 8-bit numbers is refused with the range error and changes nothing. */
  lemma ExecutePulseColorRejectsInvalid(s: BoardState, p: seq<Param>)
    requires s.online && s.kind == LedController
    requires |p| == 2 && !LedProtocol.ParametersAreValid(p)
    ensures ExecuteAction(s, Str("PULSECOLOR"), p) == (s, Fail(ParameterRange(ParametersMessage)))
  {
    SpreadArguments(p);
    SendInvalidRefused(s, 'P', p);
    BoardProperties.ExecuteByName(s, 6, p);
    assert AvailableActions(s.kind)[6] == LedActions[2];
    assert Dispatch(s, PulseColor, p) == (s, Fail(ParameterRange(ParametersMessage)));
  }

  /** A plain board does not know the LED actions. */
  lemma PlainBoardRefusesLedActions(s: BoardState, i: nat, p: seq<Param>)
    requires s.online && s.kind == Plain && i < 4
    ensures var name := Str(LedActions[i].name);
      ExecuteAction(s, name, p) == (s, Fail(BoardIncompatible(IncompatibleMessage(name))))
  {
    BoardProperties.ExecuteUnknownName(s, Str(LedActions[i].name), p);
  }
}
