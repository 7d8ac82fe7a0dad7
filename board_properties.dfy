/** Properties of a board's operations, proved over `BoardSpec`. */
module BoardProperties {
  import opened Wrappers
  import opened Params
  import opened Errors
  import opened Architectures
  import opened BoardSpec

  // ---------------------------------------------------------------------------
  // Action table

  /** The table is BLINKON, BLINKOFF, TOGGLELED, SETPINVALUE in that order; only SETPINVALUE takes parameters. */
  lemma ActionTableOrder(kind: BoardKind)
    ensures |AvailableActions(kind)| >= 4
    ensures AvailableActions(kind)[0] == Action("BLINKON", false, BlinkOn)
    ensures AvailableActions(kind)[1] == Action("BLINKOFF", false, BlinkOff)
    ensures AvailableActions(kind)[2] == Action("TOGGLELED", false, ToggleLed)
    ensures AvailableActions(kind)[3] == Action("SETPINVALUE", true, SetPinValue)
    ensures kind == Plain ==> |AvailableActions(kind)| == 4
    ensures kind == LedController ==> AvailableActions(kind)[4..] == LedActions
  {
  }

  /** No two actions of a table share a name. */
  lemma ActionNamesDistinct(kind: BoardKind, i: nat, j: nat)
    requires i < j < |AvailableActions(kind)|
    ensures AvailableActions(kind)[i].name != AvailableActions(kind)[j].name
  {
  }

  /** Looking up any entry's name finds that entry (the first match is the only match). */
  lemma {:induction false} FindOwnName(table: seq<Action>, i: nat)
    requires i < |table|
    requires forall j, k :: 0 <= j < k < |table| ==> table[j].name != table[k].name
    ensures FindAction(table, Str(table[i].name)) == Some(table[i])
  {
    if i > 0 {
      assert table[0].name != table[i].name;
      assert table[1..][i - 1] == table[i];
      FindOwnName(table[1..], i - 1);
    }
  }

  /** Every name in the board's table is bound to its own entry. */
  lemma FindsEveryAction(kind: BoardKind, i: nat)
    requires i < |AvailableActions(kind)|
    ensures FindAction(AvailableActions(kind), Str(AvailableActions(kind)[i].name)) == Some(AvailableActions(kind)[i])
  {
    forall j, k | 0 <= j < k < |AvailableActions(kind)|
      ensures AvailableActions(kind)[j].name != AvailableActions(kind)[k].name
    {
      ActionNamesDistinct(kind, j, k);
    }
    FindOwnName(AvailableActions(kind), i);
  }

  // ---------------------------------------------------------------------------
  // Architecture and program

  /**
   * An architecture is taken exactly when its name is a registry name (ESP_8266
   * or ARDUINO_UNO); only the architecture changes, and a refusal changes nothing.
   */
  lemma SetArchitectureAcceptsRegistryOnly(s: BoardState, arch: BoardArchitecture)
    ensures SetArchitecture(s, arch).1.Pass? <==> arch.name == "ESP_8266" || arch.name == "ARDUINO_UNO"
    ensures SetArchitecture(s, arch).1.Pass? ==> SetArchitecture(s, arch).0 == s.(architecture := arch)
    ensures SetArchitecture(s, arch).1.Fail? ==>
      SetArchitecture(s, arch) == (s, Fail(UnsupportedArchitecture("This architecture is not supported.")))
  {
    if arch.name == "ESP_8266" {
      assert SupportedArchitectures[0].name == arch.name;
    } else if arch.name == "ARDUINO_UNO" {
      assert SupportedArchitectures[1].name == arch.name;
    }
  }

  /** The two registry entries and their pin maps; an unregistered architecture with Uno's pin map is refused. */
  lemma RegistryEntries(s: BoardState)
    ensures SetArchitecture(s, Esp8266).0.architecture.pinMap == PinMap(2, 3, 1)
    ensures SetArchitecture(s, Esp8266).0.architecture.name == Esp8266.name
    ensures SetArchitecture(s, ArduinoUno).0.architecture.pinMap == PinMap(13, 1, 0)
    ensures SetArchitecture(s, ArduinoUno).0.architecture.name == ArduinoUno.name
    ensures SetArchitecture(s, BoardArchitecture("Bacon", PinMap(13, 1, 0))).1
         == Fail(UnsupportedArchitecture("This architecture is not supported."))
  {
    assert "Bacon"[0] != "ESP_8266"[0] && "Bacon"[0] != "ARDUINO_UNO"[0];
    assert SupportedArchitectures[0] == Esp8266;
    assert SupportedArchitectures[1] == ArduinoUno;
  }

  lemma SetIdleSetsIdle(s: BoardState)
    ensures SetIdle(s).currentProgram == "IDLE"
    ensures SetIdle(s).(currentProgram := s.currentProgram) == s
  {
  }

  // ---------------------------------------------------------------------------
  // Action dispatch

  /** An offline board refuses every action, valid name or not, and is left as it was. */
  lemma ExecuteOffline(s: BoardState, name: Param, params: seq<Param>)
    requires !s.online
    ensures ExecuteAction(s, name, params) == (s, Fail(BoardUnavailable(NotOnlineMessage)))
  {
  }

  /** An online board refuses a name that is not in its table (string or not), quoting it, and is left as it was. */
  lemma ExecuteUnknownName(s: BoardState, name: Param, params: seq<Param>)
    requires s.online
    requires forall i :: 0 <= i < |AvailableActions(s.kind)| ==> name != Str(AvailableActions(s.kind)[i].name)
    ensures ExecuteAction(s, name, params) == (s, Fail(BoardIncompatible(IncompatibleMessage(name))))
  {
  }

  /** Names are quoted as their string text: the refusals for "bacon" and for 1337 quote 'bacon' and '1337'. */
  lemma RenderedActionNames()
    ensures Render(Str("bacon")) == "bacon"
    ensures Render(Num(1337)) == "1337"
  {
    assert NatToString(1) == "1";
    assert NatToString(13) == "13";
    assert NatToString(133) == "133";
  }

  /** Looking up the name of the table's `i`-th entry runs that entry's handler and completes the action. */
  lemma ExecuteByName(s: BoardState, i: nat, params: seq<Param>)
    requires s.online && i < |AvailableActions(s.kind)|
    ensures var a := AvailableActions(s.kind)[i];
      ExecuteAction(s, Str(a.name), params) == Completed(Dispatch(s, a.handler, params))
  {
    FindsEveryAction(s.kind, i);
  }

  /**
   * On an online board each name of the base table runs its bound handler with
   * the given parameters and, when the handler succeeds, posts an update with
   * the new snapshot.
   */
  lemma ExecuteRunsBoundHandler(s: BoardState, params: seq<Param>)
    requires s.online
    ensures ExecuteAction(s, Str("BLINKON"), params) == Completed(SetBlinkLedEnabled(s, true))
    ensures ExecuteAction(s, Str("BLINKOFF"), params) == Completed(SetBlinkLedEnabled(s, false))
    ensures ExecuteAction(s, Str("TOGGLELED"), params) == Completed(ToggleLedOf(s))
    ensures ExecuteAction(s, Str("SETPINVALUE"), params) == Completed(SetPinValueOf(s, Arg(params, 0), Arg(params, 1)))
  {
    ExecuteBaseName(s, 0, "BLINKON", BlinkOn, params);
    ExecuteBaseName(s, 1, "BLINKOFF", BlinkOff, params);
    ExecuteBaseName(s, 2, "TOGGLELED", ToggleLed, params);
    ExecuteBaseName(s, 3, "SETPINVALUE", SetPinValue, params);
  }

  /** Executing the name of the `i`-th base entry runs that entry's handler. */
  lemma ExecuteBaseName(s: BoardState, i: nat, name: string, handler: Handler, params: seq<Param>)
    requires s.online && i < |BaseActions| && BaseActions[i].name == name && BaseActions[i].handler == handler
    ensures ExecuteAction(s, Str(name), params) == Completed(Dispatch(s, handler, params))
  {
    ActionTableOrder(s.kind);
    ExecuteByName(s, i, params);
  }

  /** A successful action ends with an update carrying the snapshot of the state it leaves. */
  lemma ExecutePostsUpdateLast(s: BoardState, name: Param, params: seq<Param>)
    requires ExecuteAction(s, name, params).1.Pass?
    ensures var t := ExecuteAction(s, name, params).0;
      |t.calls| > |s.calls| && t.calls[|t.calls| - 1] == PostUpdate(Snapshot(t.(calls := t.calls[..|t.calls| - 1])))
  {
    var a := FindAction(AvailableActions(s.kind), name).value;
    var u := Dispatch(s, a.handler, params).0;
    DispatchExtendsCalls(s, a.handler, params);
    assert ExecuteAction(s, name, params).0 == Posted(u);
    assert Posted(u).calls[..|Posted(u).calls| - 1] == u.calls;
    assert Posted(u).(calls := u.calls) == u;
  }

  /** A handler only ever appends to the calls made so far. */
  lemma DispatchExtendsCalls(s: BoardState, handler: Handler, params: seq<Param>)
    ensures |Dispatch(s, handler, params).0.calls| >= |s.calls|
    ensures Dispatch(s, handler, params).0.calls[..|s.calls|] == s.calls
  {
  }

  /** A failed action leaves the board as it was. */
  lemma ExecuteFailureChangesNothing(s: BoardState, name: Param, params: seq<Param>)
    requires ExecuteAction(s, name, params).1.Fail?
    ensures ExecuteAction(s, name, params).0 == s
  {
  }

  // ---------------------------------------------------------------------------
  // Timers

  lemma {:induction false} WithoutKeepsDistinct(hs: seq<TimerId>, h: TimerId)
    requires NoDuplicates(hs)
    ensures NoDuplicates(Without(hs, h))
  {
    if hs != [] {
      WithoutKeepsDistinct(hs[1..], h);
      if hs[0] != h {
        assert hs[0] !in hs[1..];
      }
    }
  }

  lemma {:induction false} WithoutAppended(hs: seq<TimerId>, h: TimerId)
    requires h !in hs
    ensures Without(hs + [h], h) == hs
  {
    if hs != [] {
      assert (hs + [h])[1..] == hs[1..] + [h];
      WithoutAppended(hs[1..], h);
    } else {
      assert Without([h][1..], h) == [];
    }
  }

  /** Clearing an interval cancels it and drops exactly that handle; clearing a timeout likewise. */
  lemma ClearIntervalDropsHandle(s: BoardState, h: TimerId)
    ensures ClearIntervalOf(s, h).calls == s.calls + [ClearInterval(h)]
    ensures forall x :: x in ClearIntervalOf(s, h).intervals <==> x in s.intervals && x != h
    ensures s.intervals == [h] ==> ClearIntervalOf(s, h).intervals == []
    ensures ClearTimeoutOf(s, h).calls == s.calls + [ClearTimeout(h)]
    ensures forall x :: x in ClearTimeoutOf(s, h).timeouts <==> x in s.timeouts && x != h
    ensures s.timeouts == [h] ==> ClearTimeoutOf(s, h).timeouts == []
  {
    if s.intervals == [h] { assert [h][1..] == []; }
    if s.timeouts == [h] { assert [h][1..] == []; }
  }

  /** Enabling blink on a board that is not blinking starts one new 500 ms interval that calls toggleLED, and records it. */
  lemma BlinkEnable(s: BoardState)
    requires Valid(s) && s.blinkInterval.None?
    ensures var (t, r) := SetBlinkLedEnabled(s, true);
      && r.Pass?
      && t.blinkInterval == Some(s.nextTimer)
      && s.nextTimer !in s.intervals
      && t.intervals == s.intervals + [s.nextTimer]
      && |t.intervals| == |s.intervals| + 1
      && t.calls == s.calls + [SetInterval(s.nextTimer, ToggleLed, 500)]
  {
  }

  /**
   * Once blinking, each firing of the blink interval toggles the LED: two
   * firings flip a LOW/HIGH LED and flip it back, writing the pin twice.
   */
  lemma BlinkTicksToggle(s: BoardState)
    requires Valid(s) && s.blinkInterval.None?
    requires LedValue(s) == Some(Low) || LedValue(s) == Some(High)
    ensures var t := SetBlinkLedEnabled(s, true).0;
      var h := s.nextTimer;
      var first := FireInterval(t, h);
      var second := FireInterval(first.0, h);
      && first == ToggleLedOf(t) && first.1.Pass?
      && LedValue(first.0) == Some(1 - LedValue(s).value)
      && second == ToggleLedOf(first.0) && second.1.Pass?
      && LedValue(second.0) == LedValue(s)
      && |second.0.calls| == |t.calls| + 2
      && second.0.blinkInterval == Some(h) && second.0.intervals == t.intervals
  {
    var t := SetBlinkLedEnabled(s, true).0;
    var h := s.nextTimer;
    assert h in t.intervals;
    assert LedValue(t) == LedValue(s);
    ToggleTwiceRestores(t);
  }

  /** At most one blink cycle: enabling while a blink interval is set is refused and changes nothing. */
  lemma BlinkGuard(s: BoardState)
    requires s.blinkInterval.Some?
    ensures SetBlinkLedEnabled(s, true) == (s, Fail(BoardUnavailable("LED blink is already enabled.")))
  {
  }

  /** Enabling twice in a row without disabling is refused the second time. */
  lemma BlinkTwiceRefused(s: BoardState)
    requires SetBlinkLedEnabled(s, true).1.Pass?
    ensures SetBlinkLedEnabled(SetBlinkLedEnabled(s, true).0, true).1 == Fail(BoardUnavailable(BlinkAlreadyEnabledMessage))
  {
  }

  /** Enabling then disabling blink leaves no blink interval and the active intervals as they were. */
  lemma BlinkOnThenOff(s: BoardState)
    requires Valid(s) && s.blinkInterval.None?
    ensures var t := SetBlinkLedEnabled(SetBlinkLedEnabled(s, true).0, false).0;
      && t.blinkInterval.None?
      && t.intervals == s.intervals
      && t.calls == s.calls + [SetInterval(s.nextTimer, ToggleLed, 500), ClearInterval(s.nextTimer)]
      && (s.intervals == [] ==> |t.intervals| == 0)
  {
    WithoutAppended(s.intervals, s.nextTimer);
  }

  /** Disabling blink when it is not enabled changes nothing. */
  lemma BlinkOffWhenIdle(s: BoardState)
    requires s.blinkInterval.None?
    ensures SetBlinkLedEnabled(s, false) == (s, Pass)
  {
  }

  // ---------------------------------------------------------------------------
  // Pins and the LED

  /** Writing a number to an existing pin stores it there and leaves every other pin alone. */
  lemma SetPinValueStores(s: BoardState, pin: nat, v: int)
    requires PinExists(s, Num(pin))
    ensures var (t, r) := SetPinValueOf(s, Num(pin), Num(v));
      && r.Pass?
      && t.transport.Some?
      && |t.transport.value.pins| == |s.transport.value.pins|
      && t.transport.value.pins[pin].value == v
      && (forall q :: 0 <= q < |t.transport.value.pins| && q != pin ==> t.transport.value.pins[q] == s.transport.value.pins[q])
      && t.calls == s.calls + [if IsAnalog(s.transport.value.pins[pin]) then AnalogWrite(pin, v) else DigitalWrite(pin, v)]
  {
  }

  /** A pin that is not in the pin table is refused. */
  lemma SetPinValueUnknownPin(s: BoardState, pin: Param, value: Param)
    requires !PinExists(s, pin)
    ensures SetPinValueOf(s, pin, value) == (s, Fail(BoardPinNotFound(PinNotFoundMessage(pin))))
  {
  }

  /** Toggling writes HIGH to a LOW LED pin and LOW to a HIGH one. */
  lemma ToggleWritesOpposite(s: BoardState)
    requires LedValue(s).Some?
    ensures var led := s.architecture.pinMap.led;
      && (LedValue(s) == Some(Low) ==> ToggleLedOf(s) == SetPinValueOf(s, Num(led), Num(High)))
      && (LedValue(s) == Some(High) ==> ToggleLedOf(s) == SetPinValueOf(s, Num(led), Num(Low)))
  {
  }

  /** Toggling flips the LED pin's digital value; toggling twice restores it. */
  lemma ToggleTwiceRestores(s: BoardState)
    requires LedValue(s) == Some(Low) || LedValue(s) == Some(High)
    ensures var t := ToggleLedOf(s);
      && t.1.Pass?
      && LedValue(t.0) == Some(1 - LedValue(s).value)
      && LedValue(ToggleLedOf(t.0).0) == LedValue(s)
  {
    var led := s.architecture.pinMap.led;
    var v := LedValue(s).value;
    SetPinValueStores(s, led, 1 - v);
    var t := ToggleLedOf(s).0;
    assert LedValue(t) == Some(1 - v);
    SetPinValueStores(t, led, v);
  }

  /** With the two-pin fixture, toggling LED pin 1 (digital, LOW) writes HIGH digitally; pin 0 is written analog. */
  lemma ToggleOnFixture(s: BoardState)
    requires s.transport.Some? && s.transport.value.pins == FixturePins
    ensures s.architecture.pinMap.led == 1 ==>
      ToggleLedOf(s).0.calls == s.calls + [DigitalWrite(1, High)]
    ensures s.architecture.pinMap.led == 0 ==>
      ToggleLedOf(s).0.calls == s.calls + [AnalogWrite(0, Low)]
  {
    assert IsAnalog(FixturePins[0]) && !IsAnalog(FixturePins[1]);
  }

  // ---------------------------------------------------------------------------
  // Disconnect

  /** Disconnecting cancels every tracked interval and timeout, removes the listeners, and releases the board. */
  lemma DisconnectReleases(s: BoardState)
    ensures Released(Disconnect(s))
    ensures forall h :: h in s.intervals ==> ClearInterval(h) in Disconnect(s).calls
    ensures forall h :: h in s.timeouts ==> ClearTimeout(h) in Disconnect(s).calls
    ensures s.transport.Some? ==> RemoveAllListeners in Disconnect(s).calls
    ensures Disconnect(s).calls[..|s.calls|] == s.calls
  {
    var d := Disconnect(s);
    var pre := s.calls + (if s.transport.Some? then [RemoveAllListeners] else []);
    assert d.calls == pre + ClearIntervalCalls(s.intervals) + ClearTimeoutCalls(s.timeouts);
    forall h | h in s.intervals ensures ClearInterval(h) in d.calls {
      var i :| 0 <= i < |s.intervals| && s.intervals[i] == h;
      assert d.calls[|pre| + i] == ClearInterval(h);
    }
    forall h | h in s.timeouts ensures ClearTimeout(h) in d.calls {
      var i :| 0 <= i < |s.timeouts| && s.timeouts[i] == h;
      assert d.calls[|pre| + |s.intervals| + i] == ClearTimeout(h);
    }
    if s.transport.Some? {
      assert d.calls[|s.calls|] == RemoveAllListeners;
    }
  }

  /** Disconnecting a board that is already disconnected changes nothing. */
  lemma DisconnectIdempotent(s: BoardState)
    ensures Disconnect(Disconnect(s)) == Disconnect(s)
  {
  }

  /**
   * Nothing is released twice after a disconnect: stopping blink cancels no
   * interval again, and blink can be started afresh.
   */
  lemma BlinkAfterDisconnect(s: BoardState)
    ensures SetBlinkLedEnabled(Disconnect(s), false) == (Disconnect(s), Pass)
    ensures SetBlinkLedEnabled(Disconnect(s), true).1.Pass?
  {
    DisconnectReleases(s);
  }

  /**
   * Being offline does not imply holding no timers: enabling blink on a
   * disconnected board schedules an interval on a board that stays offline.
   */
  lemma OfflineBoardCanBlink(s: BoardState)
    ensures var t := SetBlinkLedEnabled(Disconnect(s), true).0;
      !t.online && t.intervals == [Disconnect(s).nextTimer] && t.blinkInterval == Some(Disconnect(s).nextTimer)
  {
    DisconnectReleases(s);
  }

  /** Being offline does not imply holding no transport: a board is constructed offline with the transport it is given. */
  lemma OfflineBoardWithTransport(kind: BoardKind, identity: Identity, arch: BoardArchitecture, lastUpdateReceived: int, transport: Transport)
    ensures var t := Initial(kind, identity, arch, lastUpdateReceived, Some(transport));
      !t.online && t.transport == Some(transport) && Valid(t)
  {
  }

  /** Once disconnected, no action runs. */
  lemma NoActionAfterDisconnect(s: BoardState, name: Param, params: seq<Param>)
    ensures ExecuteAction(Disconnect(s), name, params).1 == Fail(BoardUnavailable(NotOnlineMessage))
  {
  }

  // ---------------------------------------------------------------------------
  // The invariant

  lemma SetBlinkKeepsValid(s: BoardState, enabled: bool)
    requires Valid(s)
    ensures Valid(SetBlinkLedEnabled(s, enabled).0)
  {
    if !enabled && s.blinkInterval.Some? {
      WithoutKeepsDistinct(s.intervals, s.blinkInterval.value);
    } else if enabled && s.blinkInterval.None? {
      var t := SetBlinkLedEnabled(s, true).0;
      assert s.nextTimer !in s.intervals;
      assert t.intervals == s.intervals + [s.nextTimer];
      forall i, j | 0 <= i < j < |t.intervals| ensures t.intervals[i] != t.intervals[j] {
        if j == |s.intervals| {
          assert t.intervals[i] in s.intervals;
        }
      }
    }
  }

  /** Every handler keeps the board's invariant, and so does posting the update after it. */
  lemma DispatchKeepsValid(s: BoardState, handler: Handler, params: seq<Param>)
    requires Valid(s)
    ensures Valid(Dispatch(s, handler, params).0)
    ensures Valid(Completed(Dispatch(s, handler, params)).0)
  {
    match handler
    case BlinkOn => SetBlinkKeepsValid(s, true);
    case BlinkOff => SetBlinkKeepsValid(s, false);
    case _ =>
  }

  /** Every action keeps the board's invariant, whatever its name and parameters. */
  lemma ExecuteKeepsValid(s: BoardState, name: Param, params: seq<Param>)
    requires Valid(s)
    ensures Valid(ExecuteAction(s, name, params).0)
  {
    if s.online {
      var a := FindAction(AvailableActions(s.kind), name);
      if a.Some? {
        DispatchKeepsValid(s, a.value.handler, params);
      }
    }
  }

  lemma ClearKeepsValid(s: BoardState, h: TimerId)
    requires Valid(s)
    ensures Valid(ClearIntervalOf(s, h)) && Valid(ClearTimeoutOf(s, h))
  {
    WithoutKeepsDistinct(s.intervals, h);
    WithoutKeepsDistinct(s.timeouts, h);
  }

  lemma DisconnectKeepsValid(s: BoardState)
    requires Valid(s)
    ensures Valid(Disconnect(s))
  {
  }

  // ---------------------------------------------------------------------------
  // Snapshot

  /** The snapshot of a board on the fixture transport carries its pins and its reporting rate; without a transport it has neither. */
  lemma SnapshotRefreshRate(s: BoardState)
    ensures s.transport.Some? ==> Snapshot(s).refreshRate == Some(s.transport.value.refreshRate)
    ensures s.transport.None? ==> Snapshot(s).refreshRate.None? && Snapshot(s).pins == []
  {
  }
}
