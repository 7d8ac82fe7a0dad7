/**
 * The LED controller's serial sub-protocol: a command is a one-character tag and
 * a list of 8-bit numbers, sent as the frame '[', tag, numbers..., ']', where
 * the brackets and the tag are separate one-character items of the frame.
 */
module LedProtocol {
  import opened Wrappers
  import opened Params
  import opened Errors

  const SetColorTag := 'C'
  const KittTag := 'K'
  const PulseColorTag := 'P'
  const RainbowTag := 'R'

  const FrameOpen := Str("[")
  const FrameClose := Str("]")

  /** A number from 0 to 255 inclusive. */
  predicate Is8BitNumber(p: Param)
  {
    p.Num? && 0 <= p.n <= 255
  }

  /** True exactly when every parameter is a number from 0 to 255. */
  function ParametersAreValid(params: seq<Param>): (valid: bool)
    ensures valid <==> forall i :: 0 <= i < |params| ==> Is8BitNumber(params[i])
  {
    if params == [] then true
    else Is8BitNumber(params[0]) && ParametersAreValid(params[1..])
  }

  /** The frame of a command: the tag and its parameters between brackets. */
  function Frame(tag: char, params: seq<Param>): seq<Param>
  {
    [FrameOpen, Str([tag])] + params + [FrameClose]
  }

  /**
   * The frame a command method writes, or the parameter-range error it raises
   * instead when any parameter is not an 8-bit number.
   */
  function Encode(tag: char, params: seq<Param>): (r: Result<seq<Param>, BoardError>)
    ensures r.Ok? <==> ParametersAreValid(params)
    ensures r.Err? ==> r.error == ParameterRange(ParametersMessage)
    ensures r.Ok? ==> |r.value| == |params| + 3
    ensures r.Ok? ==> r.value[0] == Str("[") && r.value[1] == Str([tag])
    ensures r.Ok? ==> r.value[2..|params| + 2] == params && r.value[|params| + 2] == Str("]")
  {
    if ParametersAreValid(params) then Ok(Frame(tag, params))
    else Err(ParameterRange(ParametersMessage))
  }

  /** The inverse of framing: the tag and parameters of a well-formed frame. */
  function ParseFrame(frame: seq<Param>): Option<(char, seq<Param>)>
  {
    if |frame| < 3 || frame[0] != FrameOpen || frame[|frame| - 1] != FrameClose then None
    else if !frame[1].Str? || |frame[1].s| != 1 then None
    else if !ParametersAreValid(frame[2..|frame| - 1]) then None
    else Some((frame[1].s[0], frame[2..|frame| - 1]))
  }

  /** A consumer parsing a valid command's frame gets back its tag and parameters. */
  lemma ParseEncoded(tag: char, params: seq<Param>)
    requires ParametersAreValid(params)
    ensures Encode(tag, params).Ok?
    ensures ParseFrame(Encode(tag, params).value) == Some((tag, params))
  {
    var f := Frame(tag, params);
    assert f[2..|f| - 1] == params;
  }

  /** Every frame that parses is exactly the frame of the command it parses to. */
  lemma ParsedIsEncoded(frame: seq<Param>, tag: char, params: seq<Param>)
    requires ParseFrame(frame) == Some((tag, params))
    ensures Encode(tag, params) == Ok(frame)
  {
    assert frame[1] == Str([tag]);
    assert frame == [frame[0], frame[1]] + frame[2..|frame| - 1] + [frame[|frame| - 1]];
  }

  /** A single parameter that is not an 8-bit number makes the whole command fail. */
  lemma OneBadParameterRejects(tag: char, params: seq<Param>, i: nat)
    requires i < |params| && !Is8BitNumber(params[i])
    ensures Encode(tag, params) == Err(ParameterRange(ParametersMessage))
  {
  }

  /** The parameter lists the controller accepts and refuses. */
  lemma ParametersAreValidExamples()
    ensures ParametersAreValid([Num(255), Num(128), Num(0)])
    ensures ParametersAreValid([Num(0), Num(0), Num(0)])
    ensures ParametersAreValid([Num(23), Num(86), Num(10)])
    ensures !ParametersAreValid([Num(-1), Num(128), Num(0)])
    ensures !ParametersAreValid([Num(0), Num(256), Num(0)])
    ensures !ParametersAreValid([Num(23), Num(512), Num(10)])
    ensures !ParametersAreValid([Obj, Num(128), Num(10)])
    ensures !ParametersAreValid([Arr([]), Num(128), Num(10)])
    ensures !ParametersAreValid([Str("a"), Num(512), Num(10)])
  {
    assert !Is8BitNumber(Num(-1)) && !Is8BitNumber(Num(256)) && !Is8BitNumber(Num(512));
  }
}
