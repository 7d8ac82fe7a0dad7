/**
 * One connection attempt (`ConnectionService.connectToBoard`): a transport
 * handle is opened, a 10 second timeout is armed, and listeners for the
 * transport's ready, error, update and disconnect events are registered. Events
 * are taken one at a time; each acts on the attempt's local board reference,
 * id and transport handle, and on the caller's callbacks and the board
 * registry, whose calls are recorded in order in `outputs`.
 */
module Connection {
  import opened Wrappers
  import FirmwareName
  import BoardSpec

  const ConnectionTimeoutMs := 10000

  /** The board object the registry returns for a registered board. */
  type BoardRef = nat

  datatype Event =
      /** The transport is ready; `registered` is what the registry's addBoard resolves to. */
    | Ready(firmwareName: string, registered: BoardRef)
    | Timeout
    | Error
    | Update(payload: BoardSpec.DiscreteBoard)
    | Disconnect

  /** A call to the transport, to a callback or to the registry. */
  datatype Output =
    | ArmConnectionTimeout(delayMs: nat)
    | ClearConnectionTimeout
    | RemoveAllListeners
    | AddBoard(id: string, boardType: string)
    | Connected(board: BoardRef)
    | Disconnected(reported: Option<BoardRef>)
    | UpdateBoard(payload: BoardSpec.DiscreteBoard)
    | DisconnectBoard(boardId: Option<string>)

  datatype Attempt = Attempt(
    connectedBoard: Option<BoardRef>,
    id: Option<string>,
    /** The local transport handle is still held. */
    transportHeld: bool,
    /** The connection timeout is armed and has not fired. */
    timeoutArmed: bool,
    /** The event listeners are registered on the transport. */
    listening: bool,
    /** The once-only disconnect listener has not fired yet. */
    disconnectPending: bool,
    outputs: seq<Output>)

  /** The attempt as connectToBoard leaves it: transport opened, timeout armed, listeners registered. */
  const Start := Attempt(None, None, true, true, true, true, [ArmConnectionTimeout(ConnectionTimeoutMs)])

  /** What one event does to the attempt. */
  function Step(a: Attempt, e: Event): Attempt
  {
    match e
    case Timeout =>
      if !a.timeoutArmed then a
      else a.(connectedBoard := None, transportHeld := false, timeoutArmed := false, listening := false,
              outputs := a.outputs + [RemoveAllListeners, Disconnected(None)])
    case Ready(name, registered) =>
      if !a.listening then a
      else
        var boardType := FirmwareName.BoardType(name);
        var id := FirmwareName.BoardId(name);
        a.(timeoutArmed := false, id := Some(id), connectedBoard := Some(registered),
           outputs := a.outputs + [ClearConnectionTimeout, AddBoard(id, boardType), Connected(registered)])
    case Error =>
      if !a.listening then a
      else a.(connectedBoard := None, outputs := a.outputs + [Disconnected(a.connectedBoard)])
    case Update(payload) =>
      if !a.listening then a
      else a.(outputs := a.outputs + [UpdateBoard(payload)])
    case Disconnect =>
      if !a.listening || !a.disconnectPending then a
      else a.(connectedBoard := None, disconnectPending := false,
              outputs := a.outputs + [Disconnected(None), DisconnectBoard(a.id)])
  }

  /** The attempt after a sequence of events, taken in order. */
  function Run(a: Attempt, events: seq<Event>): Attempt
    decreases |events|
  {
    if events == [] then a else Run(Step(a, events[0]), events[1..])
  }

  predicate HasConnected(outputs: seq<Output>)
  {
    exists i :: 0 <= i < |outputs| && outputs[i].Connected?
  }

  function CountDisconnectBoard(outputs: seq<Output>): nat
  {
    if outputs == [] then 0 else (if outputs[0].DisconnectBoard? then 1 else 0) + CountDisconnectBoard(outputs[1..])
  }

  // ---------------------------------------------------------------------------
  // One event at a time

  /**
   * Ready clears the timeout first, registers the board under the type and id
   * parsed from the firmware name, and hands the registry's board to the
   * connected callback.
   */
  lemma ReadyRegisters(a: Attempt, name: string, registered: BoardRef)
    requires a.listening
    ensures var b := Step(a, Ready(name, registered));
      && b.outputs == a.outputs + [ClearConnectionTimeout,
                                   AddBoard(FirmwareName.BoardId(name), FirmwareName.BoardType(name)),
                                   Connected(registered)]
      && !b.timeoutArmed
      && b.connectedBoard == Some(registered)
      && b.id == Some(FirmwareName.BoardId(name))
  {
  }

  /** The timeout removes all listeners, drops the handle and the board, and reports a disconnect without a board. */
  lemma TimeoutTearsDown(a: Attempt)
    requires a.timeoutArmed
    ensures var b := Step(a, Timeout);
      && b.outputs == a.outputs + [RemoveAllListeners, Disconnected(None)]
      && !b.listening && !b.transportHeld && b.connectedBoard.None? && !b.timeoutArmed
  {
  }

  /** Once ready has been handled, the timeout does nothing. */
  lemma TimeoutAfterReadyIsCancelled(a: Attempt, name: string, registered: BoardRef)
    requires a.listening
    ensures Step(Step(a, Ready(name, registered)), Timeout) == Step(a, Ready(name, registered))
  {
  }

  /** An error reports the current board to the disconnected callback, then forgets it. */
  lemma ErrorReportsBoard(a: Attempt)
    requires a.listening
    ensures Step(a, Error).outputs == a.outputs + [Disconnected(a.connectedBoard)]
    ensures Step(a, Error).connectedBoard.None?
  {
  }

  /** An update is forwarded to the registry unchanged. */
  lemma UpdateForwarded(a: Attempt, payload: BoardSpec.DiscreteBoard)
    requires a.listening
    ensures Step(a, Update(payload)).outputs == a.outputs + [UpdateBoard(payload)]
    ensures Step(a, Update(payload)).(outputs := a.outputs) == a
  {
  }

  /**
   * A disconnect clears the board reference before calling back, so the
   * callback gets no board, and tells the registry the parsed id; a second
   * disconnect is not handled.
   */
  lemma DisconnectHandledOnce(a: Attempt)
    requires a.listening && a.disconnectPending
    ensures Step(a, Disconnect).outputs == a.outputs + [Disconnected(None), DisconnectBoard(a.id)]
    ensures Step(Step(a, Disconnect), Disconnect) == Step(a, Disconnect)
  {
  }

  // ---------------------------------------------------------------------------
  // Whole runs

  /** After the timeout has fired, no later event has any effect: in particular connected is never called. */
  lemma {:induction false} SilentAfterTimeout(a: Attempt, events: seq<Event>)
    requires !a.listening && !a.timeoutArmed
    ensures Run(a, events) == a
    decreases |events|
  {
    if events != [] {
      assert Step(a, events[0]) == a;
      SilentAfterTimeout(a, events[1..]);
    }
  }

  /** What holds of every attempt reachable from the start. */
  predicate Reachable(a: Attempt)
  {
    && (a.timeoutArmed ==> multiset(a.outputs)[RemoveAllListeners] == 0 && !HasConnected(a.outputs) && a.listening)
    && multiset(a.outputs)[RemoveAllListeners] <= 1
    && (multiset(a.outputs)[RemoveAllListeners] == 1 ==> !a.listening && !a.timeoutArmed && !HasConnected(a.outputs))
    && (a.disconnectPending ==> CountDisconnectBoard(a.outputs) == 0)
    && CountDisconnectBoard(a.outputs) <= 1
  }

  lemma {:induction false} CountDisconnectBoardAppend(xs: seq<Output>, ys: seq<Output>)
    ensures CountDisconnectBoard(xs + ys) == CountDisconnectBoard(xs) + CountDisconnectBoard(ys)
  {
    if xs != [] {
      assert (xs + ys)[1..] == xs[1..] + ys;
      CountDisconnectBoardAppend(xs[1..], ys);
    } else {
      assert xs + ys == ys;
    }
  }

  lemma HasConnectedAppend(xs: seq<Output>, ys: seq<Output>)
    ensures HasConnected(xs + ys) <==> HasConnected(xs) || HasConnected(ys)
  {
    if HasConnected(xs + ys) {
      var i :| 0 <= i < |xs + ys| && (xs + ys)[i].Connected?;
      if i < |xs| {
        assert xs[i].Connected?;
      } else {
        assert ys[i - |xs|].Connected?;
      }
    }
    if HasConnected(xs) {
      var j :| 0 <= j < |xs| && xs[j].Connected?;
      assert (xs + ys)[j].Connected?;
    }
    if HasConnected(ys) {
      var j :| 0 <= j < |ys| && ys[j].Connected?;
      assert (xs + ys)[|xs| + j].Connected?;
    }
  }

  /** Appending outputs that neither connect, tear down nor disconnect the board keeps the counts. */
  lemma QuietAppendKeepsCounts(a: Attempt, added: seq<Output>)
    requires forall k :: 0 <= k < |added| ==> !added[k].Connected? && !added[k].DisconnectBoard? && added[k] != RemoveAllListeners
    ensures HasConnected(a.outputs + added) == HasConnected(a.outputs)
    ensures multiset(a.outputs + added)[RemoveAllListeners] == multiset(a.outputs)[RemoveAllListeners]
    ensures CountDisconnectBoard(a.outputs + added) == CountDisconnectBoard(a.outputs)
  {
    HasConnectedAppend(a.outputs, added);
    CountDisconnectBoardAppend(a.outputs, added);
    QuietCounts(added);
  }

  lemma {:induction false} QuietCounts(added: seq<Output>)
    requires forall k :: 0 <= k < |added| ==> !added[k].Connected? && !added[k].DisconnectBoard? && added[k] != RemoveAllListeners
    ensures !HasConnected(added)
    ensures multiset(added)[RemoveAllListeners] == 0
    ensures CountDisconnectBoard(added) == 0
  {
    if added != [] {
      QuietCounts(added[1..]);
      assert added == [added[0]] + added[1..];
    }
  }

  lemma CountDisconnectBoardSingle(o: Output)
    ensures CountDisconnectBoard([o]) == if o.DisconnectBoard? then 1 else 0
  {
    assert [o][1..] == [];
  }

  lemma TimeoutKeepsReachable(a: Attempt)
    requires Reachable(a)
    ensures Reachable(Step(a, Timeout))
  {
    if a.timeoutArmed {
      var added := [RemoveAllListeners, Disconnected(None)];
      CountDisconnectBoardAppend(a.outputs, added);
      HasConnectedAppend(a.outputs, added);
      QuietCounts(added[1..]);
      assert added == [added[0]] + added[1..];
    }
  }

  lemma ReadyKeepsReachable(a: Attempt, id: string, boardType: string, registered: BoardRef)
    requires Reachable(a) && a.listening
    ensures var added := [ClearConnectionTimeout, AddBoard(id, boardType), Connected(registered)];
      Reachable(a.(timeoutArmed := false, id := Some(id), connectedBoard := Some(registered),
                   outputs := a.outputs + added))
  {
    var added := [ClearConnectionTimeout, AddBoard(id, boardType), Connected(registered)];
    CountDisconnectBoardAppend(a.outputs, added);
    HasConnectedAppend(a.outputs, added);
    assert added[2].Connected?;
    QuietCounts(added[..2]);
    assert added == added[..2] + [added[2]];
    CountDisconnectBoardAppend(added[..2], [added[2]]);
    CountDisconnectBoardSingle(added[2]);
  }

  lemma DisconnectKeepsReachable(a: Attempt)
    requires Reachable(a)
    ensures Reachable(Step(a, Disconnect))
  {
    if a.listening && a.disconnectPending {
      var added := [Disconnected(None), DisconnectBoard(a.id)];
      CountDisconnectBoardAppend(a.outputs, added);
      HasConnectedAppend(a.outputs, added);
      QuietCounts(added[..1]);
      assert added == added[..1] + [added[1]];
      CountDisconnectBoardAppend(added[..1], [added[1]]);
      CountDisconnectBoardSingle(added[1]);
    }
  }

  lemma StepKeepsReachable(a: Attempt, e: Event)
    requires Reachable(a)
    ensures Reachable(Step(a, e))
  {
    match e
    case Timeout =>
      TimeoutKeepsReachable(a);
    case Ready(name, registered) =>
      if a.listening {
        ReadyKeepsReachable(a, FirmwareName.BoardId(name), FirmwareName.BoardType(name), registered);
      }
    case Error =>
      if a.listening {
        QuietAppendKeepsCounts(a, [Disconnected(a.connectedBoard)]);
      }
    case Update(payload) =>
      if a.listening {
        QuietAppendKeepsCounts(a, [UpdateBoard(payload)]);
      }
    case Disconnect =>
      DisconnectKeepsReachable(a);
  }

  lemma {:induction false} RunKeepsReachable(a: Attempt, events: seq<Event>)
    requires Reachable(a)
    ensures Reachable(Run(a, events))
    decreases |events|
  {
    if events != [] {
      StepKeepsReachable(a, events[0]);
      RunKeepsReachable(Step(a, events[0]), events[1..]);
    }
  }

  /**
   * Over any sequence of events: the success path and the timeout path never
   * both happen (no run both connects and tears the listeners down), the
   * timeout tears down at most once, and the registry is told of a disconnect
   * at most once.
   */
  lemma ConnectOrTimeOut(events: seq<Event>)
    ensures var a := Run(Start, events);
      && !(HasConnected(a.outputs) && RemoveAllListeners in a.outputs)
      && multiset(a.outputs)[RemoveAllListeners] <= 1
      && CountDisconnectBoard(a.outputs) <= 1
  {
    assert Reachable(Start);
    RunKeepsReachable(Start, events);
  }

  /** An attempt whose device never reports ready never calls connected, whatever else happens. */
  lemma {:induction false} NoReadyNoConnected(a: Attempt, events: seq<Event>)
    requires !HasConnected(a.outputs)
    requires forall i :: 0 <= i < |events| ==> !events[i].Ready?
    ensures !HasConnected(Run(a, events).outputs)
    decreases |events|
  {
    if events != [] {
      var b := Step(a, events[0]);
      HasConnectedAppend(a.outputs, b.outputs[|a.outputs|..]);
      NoReadyNoConnected(b, events[1..]);
    }
  }

  /** The timeout firing on a fresh attempt reports a disconnect without a board, and nothing follows it. */
  lemma TimeoutFirst(events: seq<Event>)
    ensures Run(Start, [Timeout] + events).outputs
         == [ArmConnectionTimeout(10000), RemoveAllListeners, Disconnected(None)]
  {
    assert ([Timeout] + events)[1..] == events;
    SilentAfterTimeout(Step(Start, Timeout), events);
  }

  /**
   * An error before ready does not cancel the timeout, so an attempt that
   * never becomes ready can report a disconnect twice: once from the error
   * handler and once from the timeout.
   */
  lemma ErrorThenTimeoutReportsTwice()
    ensures Run(Start, [Error, Timeout]).outputs
         == [ArmConnectionTimeout(10000), Disconnected(None), RemoveAllListeners, Disconnected(None)]
  {
    assert [Error, Timeout][1..] == [Timeout];
    assert [Timeout][1..] == [];
  }

  // ---------------------------------------------------------------------------
  // The attempt as an object whose handlers update its local variables

  class ConnectionAttempt {
    var connectedBoard: Option<BoardRef>
    var id: Option<string>
    var transportHeld: bool
    var timeoutArmed: bool
    var listening: bool
    var disconnectPending: bool
    var outputs: seq<Output>

    function State(): Attempt
      reads this
    {
      Attempt(connectedBoard, id, transportHeld, timeoutArmed, listening, disconnectPending, outputs)
    }

    /** Opens the transport, arms the timeout and registers the listeners. */
    constructor ()
      ensures State() == Start
    {
      connectedBoard, id := None, None;
      transportHeld, timeoutArmed, listening, disconnectPending := true, true, true, true;
      outputs := [ArmConnectionTimeout(ConnectionTimeoutMs)];
    }

    method OnTimeout()
      modifies this
      ensures State() == Step(old(State()), Timeout)
    {
      if timeoutArmed {
        connectedBoard := None;
        outputs := outputs + [RemoveAllListeners];
        listening := false;
        transportHeld := false;
        timeoutArmed := false;
        outputs := outputs + [Disconnected(None)];
      }
    }

    method OnReady(firmwareName: string, registered: BoardRef)
      modifies this
      ensures State() == Step(old(State()), Ready(firmwareName, registered))
    {
      if listening {
        timeoutArmed := false;
        outputs := outputs + [ClearConnectionTimeout];
        var boardType := FirmwareName.BoardType(firmwareName);
        id := Some(FirmwareName.BoardId(firmwareName));
        outputs := outputs + [AddBoard(id.value, boardType)];
        connectedBoard := Some(registered);
        outputs := outputs + [Connected(registered)];
      }
    }

    method OnError()
      modifies this
      ensures State() == Step(old(State()), Error)
    {
      if listening {
        outputs := outputs + [Disconnected(connectedBoard)];
        connectedBoard := None;
      }
    }

    method OnUpdate(payload: BoardSpec.DiscreteBoard)
      modifies this
      ensures State() == Step(old(State()), Update(payload))
    {
      if listening {
        outputs := outputs + [UpdateBoard(payload)];
      }
    }

    method OnDisconnect()
      modifies this
      ensures State() == Step(old(State()), Disconnect)
    {
      if listening && disconnectPending {
        disconnectPending := false;
        connectedBoard := None;
        outputs := outputs + [Disconnected(connectedBoard)];
        outputs := outputs + [DisconnectBoard(id)];
      }
    }
  }
}
