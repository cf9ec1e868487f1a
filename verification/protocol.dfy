/**
  The `Protocol` class of command_protocol.py: how one MAVLink command is put
  on the wire (COMMAND_LONG or COMMAND_INT), how it is cancelled
  (COMMAND_CANCEL), how one COMMAND_ACK is turned into a status label, and how
  the three flight modes are requested.

  The connection is not modelled: each operation returns the frame it would
  hand to pymavlink, as a record, and the COMMAND_ACK it would receive is an
  input.
 */
module Protocol {
  import opened Values
  import opened Decimal

  // Class-level addressing constants of `Protocol`.
  const TargetSystem: int := 1
  const TargetComponent: int := 1

  // MAVLink common message set constants read through `mavutil.mavlink`.
  const MavCompIdSystemControl: int := 250
  const MavModeFlagCustomModeEnabled: int := 1
  const MavCmdNavGuidedEnable: int := 92
  const MavCmdDoSetMode: int := 176

  /** A frame handed to pymavlink. The parameter vector is kept exactly as the
      caller built it: its length and the int/float tag of every slot. */
  datatype Outgoing =
    | CommandLong(targetSystem: int, targetComponent: int, command: int,
                  confirmation: int, params: seq<ParamValue>)
    | CommandInt(targetSystem: int, targetComponent: int, frame: int, command: int,
                 current: int, autocontinue: int, params: seq<ParamValue>)
    | CommandCancel(targetSystem: int, targetComponent: int, command: int)
    | SetModeAutoGuided(targetSystem: int)  // set_mode_send with MAV_MODE_AUTO_GUIDED

  datatype Form = LongForm | IntForm

  /** The transport test of `send_mavlink_command`: `params[5]` is read first,
      and `params[6]` only when `params[5]` is a float (Python's `and`
      short-circuits). Reading past the end raises IndexError. */
  function SelectForm(params: seq<ParamValue>): (r: Result<Form>)
    ensures r.Failure? ==> r.error == IndexError
    ensures r == Success(LongForm) ==> |params| >= 7 && params[5].FloatV? && params[6].FloatV?
    ensures r == Success(IntForm) ==> |params| >= 6 && !(params[5].FloatV? && |params| >= 7 && params[6].FloatV?)
  {
    if |params| <= 5 then Failure(IndexError)
    else if !params[5].FloatV? then Success(IntForm)
    else if |params| <= 6 then Failure(IndexError)
    else if params[6].FloatV? then Success(LongForm)
    else Success(IntForm)
  }

  /** `send_mavlink_command(command, params, frame)`. */
  function Send(command: int, params: seq<ParamValue>, frame: int): (r: Result<Outgoing>)
    ensures r.Success? ==> r.value.CommandLong? || r.value.CommandInt?
    ensures r.Failure? ==> r.error == IndexError
  {
    var form :- SelectForm(params);
    if form == LongForm then
      Success(CommandLong(TargetSystem, TargetComponent, command, 0, params))
    else
      Success(CommandInt(TargetSystem, TargetComponent, frame, command, 0, 0, params))
  }

  /** `cancel_mavlink_command(command)`: one COMMAND_CANCEL to the same target
      as every command, carrying only the command code. */
  function Cancel(command: int): (o: Outgoing)
    ensures o.CommandCancel?
    ensures Target(o) == (1, 1) && CommandOf(o) == Some(command)
    ensures ParamsOf(o) == []
  {
    CommandCancel(TargetSystem, TargetComponent, command)
  }

  // Reading a frame back: the fields a receiver decodes.

  function Target(o: Outgoing): (int, int) {
    match o
    case CommandLong(s, c, _, _, _) => (s, c)
    case CommandInt(s, c, _, _, _, _, _) => (s, c)
    case CommandCancel(s, c, _) => (s, c)
    case SetModeAutoGuided(s) => (s, 0)
  }

  function CommandOf(o: Outgoing): Option<int> {
    match o
    case CommandLong(_, _, cmd, _, _) => Some(cmd)
    case CommandInt(_, _, _, cmd, _, _, _) => Some(cmd)
    case CommandCancel(_, _, cmd) => Some(cmd)
    case SetModeAutoGuided(_) => None
  }

  function ParamsOf(o: Outgoing): seq<ParamValue> {
    match o
    case CommandLong(_, _, _, _, p) => p
    case CommandInt(_, _, _, _, _, _, p) => p
    case _ => []
  }

  /** The long form is chosen exactly when slots 6 and 7 (1-based) are both
      floats; it carries confirmation 0. */
  lemma LongFormExactlyWhenBothFloat(command: int, params: seq<ParamValue>, frame: int)
    ensures Send(command, params, frame).Success? && Send(command, params, frame).value.CommandLong?
            <==> |params| >= 7 && params[5].FloatV? && params[6].FloatV?
    ensures Send(command, params, frame).Success? && Send(command, params, frame).value.CommandLong?
            ==> Send(command, params, frame).value.confirmation == 0
  {
  }

  /** Otherwise the int form goes out with the caller's frame, current = 0 and
      autocontinue = 0. */
  lemma IntFormOtherwise(command: int, params: seq<ParamValue>, frame: int)
    requires Send(command, params, frame).Success?
    requires !(params[5].FloatV? && params[6].FloatV?)
    ensures var o := Send(command, params, frame).value;
            o.CommandInt? && o.frame == frame && o.current == 0 && o.autocontinue == 0
  {
  }

  /** IndexError is raised exactly for vectors of five slots or fewer, and for
      six slots whose slot 6 is a float; a six-slot vector with an int in slot 6
      goes out in the int form. */
  lemma IndexErrorExactly(command: int, params: seq<ParamValue>, frame: int)
    ensures Send(command, params, frame).Failure?
            <==> |params| <= 5 || (|params| == 6 && params[5].FloatV?)
    ensures |params| == 6 && params[5].IntV?
            ==> Send(command, params, frame).Success? && Send(command, params, frame).value.CommandInt?
  {
  }

  /** The long form does not depend on the frame argument at all. */
  lemma LongFormIgnoresFrame(command: int, params: seq<ParamValue>, f1: int, f2: int)
    requires Send(command, params, f1).Success? && Send(command, params, f1).value.CommandLong?
    ensures Send(command, params, f1) == Send(command, params, f2)
  {
  }

  /** Decoding a sent frame gives back the target (1, 1), the command code and
      the parameter vector unchanged. */
  lemma SendRoundTrip(command: int, params: seq<ParamValue>, frame: int)
    requires Send(command, params, frame).Success?
    ensures var o := Send(command, params, frame).value;
            Target(o) == (TargetSystem, TargetComponent) && CommandOf(o) == Some(command) && ParamsOf(o) == params
  {
  }

  // ---------------------------------------------------------------------------
  // COMMAND_ACK

  /** The two COMMAND_ACK fields the source reads. */
  datatype Ack = Ack(command: int, result: int)

  /** The seven MAV_RESULT values `acknowledge_mavlink_command` names. */
  datatype MavResult = Accepted | TemporarilyRejected | Denied | Unsupported | Failed | InProgress | Cancelled

  /** Numeric value of each MAV_RESULT in the MAVLink common message set. */
  function ResultCode(r: MavResult): int {
    match r
    case Accepted => 0
    case TemporarilyRejected => 1
    case Denied => 2
    case Unsupported => 3
    case Failed => 4
    case InProgress => 5
    case Cancelled => 6
  }

  /** The if/elif chain on `ack_msg.result`; None for a code it does not name. */
  function Classify(code: int): (r: Option<MavResult>)
    ensures r.Some? ==> ResultCode(r.value) == code
  {
    if code == 0 then Some(Accepted)
    else if code == 1 then Some(TemporarilyRejected)
    else if code == 2 then Some(Denied)
    else if code == 3 then Some(Unsupported)
    else if code == 4 then Some(Failed)
    else if code == 5 then Some(InProgress)
    else if code == 6 then Some(Cancelled)
    else None
  }

  /** The result the label reports: the `else` branch reports "Failed". */
  function Reported(code: int): MavResult {
    Classify(code).GetOr(Failed)
  }

  /** The text after "<command> : " in a status label; every one reads back
      as its result. */
  function Suffix(r: MavResult): (s: string)
    ensures ReadSuffix(s) == Some(r)
  {
    match r
    case Accepted => "Accepted"
    case TemporarilyRejected => "Temporarily rejected."
    case Denied => "Denied"
    case Unsupported => "Unsupported"
    case Failed => "Failed"
    case InProgress => "In progress"
    case Cancelled => "Cancelled"
  }

  /** `acknowledge_mavlink_command(command)` applied to the one COMMAND_ACK it
      receives: no status (the implicit None) unless the ack is for `command`. */
  function Acknowledge(command: int, ack: Ack): (status: Option<string>)
    ensures status.Some? <==> ack.command == command
  {
    if ack.command == command then Some(Show(command) + " : " + Suffix(Reported(ack.result)))
    else None
  }

  datatype AckOutcome = Blocked | Received(status: Option<string>, rest: seq<Ack>)

  /** The blocking receive over a queue of inbound acks: it waits while the
      queue is empty, and otherwise consumes exactly the first ack. */
  function ReceiveAck(command: int, inbox: seq<Ack>): (o: AckOutcome)
    ensures o.Blocked? <==> inbox == []
    ensures o.Received? ==> o.rest == inbox[1..] && o.status == Acknowledge(command, inbox[0])
  {
    if inbox == [] then Blocked else Received(Acknowledge(command, inbox[0]), inbox[1..])
  }

  // Reading a status label back.

  function FirstSpace(s: string): (k: nat)
    ensures k <= |s|
    ensures forall i :: 0 <= i < k ==> s[i] != ' '
    ensures k < |s| ==> s[k] == ' '
  {
    if s == [] || s[0] == ' ' then 0 else 1 + FirstSpace(s[1..])
  }

  function ReadSuffix(s: string): Option<MavResult> {
    if s == "Accepted" then Some(Accepted)
    else if s == "Temporarily rejected." then Some(TemporarilyRejected)
    else if s == "Denied" then Some(Denied)
    else if s == "Unsupported" then Some(Unsupported)
    else if s == "Failed" then Some(Failed)
    else if s == "In progress" then Some(InProgress)
    else if s == "Cancelled" then Some(Cancelled)
    else None
  }

  /** Splits "<command> : <result>" into the command code and the result named. */
  function ReadLabel(text: string): Option<(int, MavResult)> {
    var k := FirstSpace(text);
    if k + 3 <= |text| && text[k..k + 3] == " : " then
      match (ReadInt(text[..k]), ReadSuffix(text[k + 3..]))
      case (Some(c), Some(r)) => Some((c, r))
      case _ => None
    else None
  }

  lemma ClassifyResultCode(r: MavResult)
    ensures Classify(ResultCode(r)) == Some(r)
  {
  }

  /** A matching acknowledgement's label reads back as the requested command
      and the reported result. */
  lemma AckLabelRoundTrip(command: int, ack: Ack)
    requires ack.command == command
    ensures ReadLabel(Acknowledge(command, ack).value) == Some((command, Reported(ack.result)))
  {
    var c := Show(command);
    var full := c + " : " + Suffix(Reported(ack.result));
    assert forall i :: 0 <= i < |c| ==> full[i] == c[i] && c[i] != ' ';
    assert full[|c|] == ' ';
    assert FirstSpace(full) == |c|;
    assert full[..|c|] == c;
    assert full[|c|..|c| + 3] == " : ";
    assert full[|c| + 3..] == Suffix(Reported(ack.result));
    ReadShow(command);
  }

  /** Each named MAV_RESULT gets its own label, and every code the chain does
      not name gets the same label as MAV_RESULT_FAILED. */
  lemma LabelsSeparateResults(command: int, r1: int, r2: int)
    ensures Acknowledge(command, Ack(command, r1)) == Acknowledge(command, Ack(command, r2))
            <==> Reported(r1) == Reported(r2)
    ensures Classify(r1).None? ==> Acknowledge(command, Ack(command, r1)) == Acknowledge(command, Ack(command, ResultCode(Failed)))
  {
    if Acknowledge(command, Ack(command, r1)) == Acknowledge(command, Ack(command, r2)) {
      AckLabelRoundTrip(command, Ack(command, r1));
      AckLabelRoundTrip(command, Ack(command, r2));
    }
  }

  /** The label names the requested command, not anything else in the ack. */
  lemma LabelNamesCommand(command: int, ack: Ack)
    requires ack.command == command
    ensures Acknowledge(command, ack).value[..|Show(command)| + 3] == Show(command) + " : "
  {
  }

  /** A non-matching ack ahead of the matching one is consumed and yields no
      status; the matching ack is only seen by a second call. */
  lemma NonMatchingAckFirst(command: int, other: int, result: int)
    requires other != command
    ensures ReceiveAck(command, [Ack(other, 0), Ack(command, result)])
            == Received(None, [Ack(command, result)])
    ensures ReceiveAck(command, [Ack(command, result)]).status.Some?
  {
  }

  // ---------------------------------------------------------------------------
  // set_mode

  datatype ModeEffect =
    | Transmit(message: Outgoing)  // the send went through
    | AssignMode(name: string)     // the `except` branch: vehicle.mode = VehicleMode(name)
    | NoEffect                     // a mode string the method does not know

  /** `set_mode(mode)`; `sendRaises` says whether the pymavlink call in the
      `try` block raises. It acts for exactly MANUAL, AUTO and GUIDED, whether
      or not the send raises, and what it does requests that very mode; the
      fallback assignment happens exactly when the send raises. */
  function SetMode(mode: string, sendRaises: bool): (e: ModeEffect)
    ensures ModeRequested(e) == if mode in ["MANUAL", "AUTO", "GUIDED"] then Some(mode) else None
    ensures e.AssignMode? <==> sendRaises && mode in ["MANUAL", "AUTO", "GUIDED"]
  {
    if mode == "MANUAL" then
      if sendRaises then AssignMode("MANUAL")
      else Transmit(CommandLong(TargetSystem, MavCompIdSystemControl, MavCmdDoSetMode, 0,
                                [IntV(MavModeFlagCustomModeEnabled), IntV(0), Zero, Zero, Zero, Zero, Zero]))
    else if mode == "AUTO" then
      if sendRaises then AssignMode("AUTO") else Transmit(SetModeAutoGuided(TargetSystem))
    else if mode == "GUIDED" then
      if sendRaises then AssignMode("GUIDED")
      else Transmit(CommandLong(TargetSystem, TargetComponent, MavCmdNavGuidedEnable, 0,
                                [IntV(1), Zero, Zero, Zero, Zero, Zero, Zero]))
    else NoEffect
  }

  /** Which mode an effect asks the vehicle for, read off the frame. */
  function ModeRequested(e: ModeEffect): Option<string> {
    match e
    case Transmit(SetModeAutoGuided(_)) => Some("AUTO")
    case Transmit(CommandLong(_, _, cmd, _, p)) =>
      if cmd == MavCmdDoSetMode && |p| >= 1 && p[0] == IntV(MavModeFlagCustomModeEnabled) then Some("MANUAL")
      else if cmd == MavCmdNavGuidedEnable && |p| >= 1 && p[0] == IntV(1) then Some("GUIDED")
      else None
    case Transmit(_) => None
    case AssignMode(n) => Some(n)
    case NoEffect => None
  }

  /** MANUAL goes to the system-control component with base mode
      CUSTOM_MODE_ENABLED, custom mode 0 and five zero slots; GUIDED enables
      guided mode with param1 = 1 and six zero slots. */
  lemma SetModeFrames()
    ensures var o := SetMode("MANUAL", false).message;
            o.CommandLong? && o.targetSystem == 1 && o.targetComponent == 250 && o.command == 176
            && o.confirmation == 0 && |o.params| == 7 && o.params[0] == IntV(1)
            && forall i :: 1 <= i < 7 ==> o.params[i] == IntV(0)
    ensures var o := SetMode("GUIDED", false).message;
            o.CommandLong? && Target(o) == (1, 1) && o.command == 92 && o.confirmation == 0
            && |o.params| == 7 && o.params[0] == IntV(1) && forall i :: 1 <= i < 7 ==> o.params[i] == IntV(0)
    ensures SetMode("AUTO", false) == Transmit(SetModeAutoGuided(1))
  {
  }
}
