/**
  The shape every `mav_cmd_*` wrapper of command_messages.py shares: assign a
  fixed command code, evaluate a positional `params` list in which each entry
  is either one of the wrapper's arguments or the literal 0, and hand both to
  `send_mavlink_command`. The table of wrappers is in module Catalog; this
  module states what holds for any wrapper of that shape.
 */
module ParamVector {
  import opened Values
  import Protocol

  /** One entry of a wrapper's `params` list: the next of its arguments (they
      are consumed in declaration order), or the literal integer 0. */
  datatype Slot = Bound | Reserved

  /** A wrapper: the MAV_CMD value it sends and its `params` list. */
  datatype Wrapper = Wrapper(code: nat, layout: seq<Slot>)

  function BoundCount(l: seq<Slot>): nat {
    if l == [] then 0 else (if l[0].Bound? then 1 else 0) + BoundCount(l[1..])
  }

  /** The number of arguments a wrapper takes after `self`. */
  function Arity(w: Wrapper): nat {
    BoundCount(w.layout)
  }

  /** Evaluates a `params` list: arguments are consumed left to right, reserved
      entries become the integer 0. */
  function Fill(l: seq<Slot>, args: seq<ParamValue>): (v: seq<ParamValue>)
    requires |args| == BoundCount(l)
    ensures |v| == |l|
    ensures forall i :: 0 <= i < |l| && l[i].Reserved? ==> v[i] == Zero
  {
    if l == [] then []
    else if l[0].Bound? then [args[0]] + Fill(l[1..], args[1..])
    else [Zero] + Fill(l[1..], args)
  }

  /** Reads the argument values back out of a parameter vector. */
  function BoundValues(l: seq<Slot>, v: seq<ParamValue>): (a: seq<ParamValue>)
    requires |v| == |l|
    ensures |a| == BoundCount(l)
  {
    if l == [] then []
    else (if l[0].Bound? then [v[0]] else []) + BoundValues(l[1..], v[1..])
  }

  // One step of `Fill` on a list written out entry by entry.

  lemma FillBound(l: seq<Slot>, x: ParamValue, args: seq<ParamValue>)
    requires |args| == BoundCount(l)
    ensures BoundCount([Bound] + l) == 1 + BoundCount(l)
    ensures Fill([Bound] + l, [x] + args) == [x] + Fill(l, args)
  {
    assert ([Bound] + l)[1..] == l;
    assert ([x] + args)[1..] == args;
  }

  lemma FillReserved(l: seq<Slot>, args: seq<ParamValue>)
    requires |args| == BoundCount(l)
    ensures BoundCount([Reserved] + l) == BoundCount(l)
    ensures Fill([Reserved] + l, args) == [Zero] + Fill(l, args)
  {
    assert ([Reserved] + l)[1..] == l;
  }

  lemma {:induction false} BoundValuesOfFill(l: seq<Slot>, args: seq<ParamValue>)
    requires |args| == BoundCount(l)
    ensures BoundValues(l, Fill(l, args)) == args
    decreases |l|
  {
    if l != [] {
      if l[0].Bound? {
        BoundValuesOfFill(l[1..], args[1..]);
        assert Fill(l, args)[1..] == Fill(l[1..], args[1..]);
      } else {
        BoundValuesOfFill(l[1..], args);
        assert Fill(l, args)[1..] == Fill(l[1..], args);
      }
    }
  }

  lemma {:induction false} FillOfBoundValues(l: seq<Slot>, v: seq<ParamValue>)
    requires |v| == |l|
    requires forall i :: 0 <= i < |l| && l[i].Reserved? ==> v[i] == Zero
    ensures Fill(l, BoundValues(l, v)) == v
    decreases |l|
  {
    if l != [] {
      assert forall i :: 0 <= i < |l[1..]| && l[1..][i].Reserved? ==> v[1..][i] == v[i + 1] == Zero;
      FillOfBoundValues(l[1..], v[1..]);
      if l[0].Bound? {
        assert BoundValues(l, v) == [v[0]] + BoundValues(l[1..], v[1..]);
      } else {
        assert BoundValues(l, v) == BoundValues(l[1..], v[1..]);
      }
      assert v == [v[0]] + v[1..];
    }
  }

  lemma {:induction false} NoArgumentsAllReserved(l: seq<Slot>)
    requires BoundCount(l) == 0
    ensures forall i :: 0 <= i < |l| ==> l[i].Reserved?
    decreases |l|
  {
    if l != [] {
      NoArgumentsAllReserved(l[1..]);
      assert forall i :: 1 <= i < |l| ==> l[i] == l[1..][i - 1];
    }
  }

  /** Calling a wrapper with `args`: Python raises TypeError for the wrong
      number of arguments; otherwise the `params` list is evaluated. */
  function Build(w: Wrapper, args: seq<ParamValue>): (r: Result<seq<ParamValue>>)
    ensures r.Failure? <==> |args| != Arity(w)
    ensures r.Failure? ==> r.error == TypeError
    ensures r.Success? ==> |r.value| == |w.layout|
    ensures r.Success? ==> forall i :: 0 <= i < |r.value| && w.layout[i].Reserved? ==> r.value[i] == Zero
  {
    if |args| != Arity(w) then Failure(TypeError) else Success(Fill(w.layout, args))
  }

  /** Every argument lands in a slot unchanged, in declaration order: reading
      the argument slots back left to right recovers exactly the arguments. */
  lemma BuildRoundTrip(w: Wrapper, args: seq<ParamValue>)
    requires |args| == Arity(w)
    ensures Build(w, args).Success?
    ensures BoundValues(w.layout, Build(w, args).value) == args
  {
    BoundValuesOfFill(w.layout, args);
  }

  /** Conversely, a vector with 0 in every reserved slot is what the wrapper
      builds from the values in its argument slots. */
  lemma BuildFromVector(w: Wrapper, v: seq<ParamValue>)
    requires |v| == |w.layout|
    requires forall i :: 0 <= i < |v| && w.layout[i].Reserved? ==> v[i] == Zero
    ensures Build(w, BoundValues(w.layout, v)) == Success(v)
  {
    FillOfBoundValues(w.layout, v);
  }

  /** Different arguments give different vectors. */
  lemma BuildInjective(w: Wrapper, a: seq<ParamValue>, b: seq<ParamValue>)
    requires |a| == |b| == Arity(w)
    ensures Build(w, a) == Build(w, b) <==> a == b
  {
    BuildRoundTrip(w, a);
    BuildRoundTrip(w, b);
  }

  lemma {:induction false} FillAllBound(l: seq<Slot>, args: seq<ParamValue>)
    requires forall i :: 0 <= i < |l| ==> l[i].Bound?
    requires |args| == |l|
    ensures BoundCount(l) == |l| && Fill(l, args) == args
    decreases |l|
  {
    if l != [] {
      FillAllBound(l[1..], args[1..]);
      assert args == [args[0]] + args[1..];
    }
  }

  /** A wrapper whose every entry is an argument sends its arguments as they
      are, in declaration order. */
  lemma FullyBound(w: Wrapper, args: seq<ParamValue>)
    requires forall i :: 0 <= i < |w.layout| ==> w.layout[i].Bound?
    requires |args| == |w.layout|
    ensures Arity(w) == |args| && Build(w, args) == Success(args)
  {
    FillAllBound(w.layout, args);
  }

  /** A wrapper without arguments builds integer zeros only. */
  lemma NoArgumentsAllZero(w: Wrapper)
    requires Arity(w) == 0
    ensures Build(w, []).Success?
    ensures forall i :: 0 <= i < |Build(w, []).value| ==> Build(w, []).value[i] == IntV(0)
  {
    NoArgumentsAllReserved(w.layout);
  }

  /** A wrapper call followed by the send, with the frame `send_mavlink_command`
      needs supplied explicitly. */
  function Issue(w: Wrapper, args: seq<ParamValue>, frame: int): (r: Result<Protocol.Outgoing>)
    ensures |args| != Arity(w) ==> r == Failure(TypeError)
    ensures r.Success? ==> Protocol.CommandOf(r.value) == Some(w.code)
    ensures r.Success? ==> Protocol.Target(r.value) == (Protocol.TargetSystem, Protocol.TargetComponent)
    ensures r.Success? ==> Build(w, args).Success? && Protocol.ParamsOf(r.value) == Build(w, args).value
  {
    var params :- Build(w, args);
    var o :- Protocol.Send(w.code, params, frame);
    Protocol.SendRoundTrip(w.code, params, frame);
    Success(o)
  }

  /** The wrapper call exactly as written: `CommandProtocol` derives from
      `object` alone and defines no `send_mavlink_command`, so once the
      arguments are bound the lookup of `self.send_mavlink_command` raises
      AttributeError. */
  function IssueAsWritten(w: Wrapper, args: seq<ParamValue>): (r: Result<Protocol.Outgoing>)
    ensures r.Failure?
    ensures |args| != Arity(w) ==> r.error == TypeError
  {
    var _ :- Build(w, args);
    Failure(AttributeError)
  }

  /** The same call on a class that also inherits `Protocol`'s
      `send_mavlink_command(command, params, frame)`: the call passes two of
      the three arguments the method declares, so it raises TypeError. */
  function IssueMixedIn(w: Wrapper, args: seq<ParamValue>): (r: Result<Protocol.Outgoing>)
    ensures r.Failure? && r.error == TypeError
  {
    var _ :- Build(w, args);
    Failure(TypeError)
  }

  /** Fills a short vector up to the seven slots of COMMAND_LONG / COMMAND_INT
      with the literal 0. */
  function PadToSeven(v: seq<ParamValue>): (r: seq<ParamValue>)
    requires |v| <= 7
    ensures |r| == 7 && r[..|v|] == v
    ensures forall i :: |v| <= i < 7 ==> r[i] == Zero
  {
    v + seq(7 - |v|, _ => Zero)
  }

  /** The wrapper call with the vector padded to seven slots before the send. */
  function IssuePadded(w: Wrapper, args: seq<ParamValue>, frame: int): (r: Result<Protocol.Outgoing>)
    ensures |args| != Arity(w) ==> r == Failure(TypeError)
    ensures r.Success? ==> Protocol.CommandOf(r.value) == Some(w.code)
    ensures r.Success? ==> Protocol.Target(r.value) == (Protocol.TargetSystem, Protocol.TargetComponent)
  {
    var params :- Build(w, args);
    if |params| <= 7 then Protocol.Send(w.code, PadToSeven(params), frame)
    else Protocol.Send(w.code, params, frame)
  }

  /** A literal 0 in slot 7 makes the send choose the int form whatever the
      arguments are, and the int form carries the caller's frame. */
  lemma ReservedSlot7ForcesIntForm(w: Wrapper, args: seq<ParamValue>, frame: int)
    requires |w.layout| == 7 && w.layout[6].Reserved?
    requires |args| == Arity(w)
    ensures Issue(w, args, frame).Success?
    ensures Issue(w, args, frame).value.CommandInt? && Issue(w, args, frame).value.frame == frame
  {
  }

  /** As written, no wrapper call reaches the wire: the wrong number of
      arguments raises TypeError at the call, and the right number raises
      AttributeError at the lookup of `send_mavlink_command`. Even with that
      method inherited from `Protocol`, the two-argument call raises
      TypeError. */
  lemma WrapperCallAlwaysRaises(w: Wrapper, args: seq<ParamValue>)
    ensures |args| == Arity(w) ==> Build(w, args).Success? && IssueAsWritten(w, args) == Failure(AttributeError)
    ensures |args| != Arity(w) ==> IssueAsWritten(w, args) == Failure(TypeError)
    ensures IssueMixedIn(w, args) == Failure(TypeError)
  {
  }

  /** With the frame supplied, a wrapper whose list has five entries or fewer
      still raises IndexError in the transport test, whatever the arguments. */
  lemma ShortVectorsRaiseIndexError(w: Wrapper, args: seq<ParamValue>, frame: int)
    requires |w.layout| <= 5 && |args| == Arity(w)
    ensures Issue(w, args, frame) == Failure(IndexError)
  {
  }

  /** Padded to seven slots, every wrapper call with the right number of
      arguments reaches the wire, keeps its code and its argument values; a
      wrapper that already builds seven slots is unaffected. */
  lemma PaddedNeverIndexError(w: Wrapper, args: seq<ParamValue>, frame: int)
    requires |w.layout| <= 7 && |args| == Arity(w)
    ensures IssuePadded(w, args, frame).Success?
    ensures var o := IssuePadded(w, args, frame).value;
            && Protocol.CommandOf(o) == Some(w.code)
            && |Protocol.ParamsOf(o)| == 7
            && Protocol.ParamsOf(o)[..|w.layout|] == Build(w, args).value
            && forall i :: |w.layout| <= i < 7 ==> Protocol.ParamsOf(o)[i] == Zero
    ensures |w.layout| == 7 ==> IssuePadded(w, args, frame) == Issue(w, args, frame)
  {
    var params := Build(w, args).value;
    Protocol.SendRoundTrip(w.code, PadToSeven(params), frame);
    if |params| == 7 {
      assert PadToSeven(params) == params;
    }
  }
}
