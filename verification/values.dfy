/**
  Shared value types of the command path: the failure-compatible wrappers,
  the Python exceptions the source can raise, and the tagged parameter values
  that travel in a MAVLink command's parameter vector.
 */
module Values {

  datatype Option<+T> = None | Some(value: T) {
    predicate IsFailure() {
      None?
    }

    function PropagateFailure<U>(): Option<U>
      requires None?
    {
      None
    }

    function Extract(): T
      requires Some?
    {
      value
    }

    function GetOr(default: T): T {
      match this
      case Some(v) => v
      case None => default
    }
  }

  /** The exceptions the modelled Python code can raise on its own inputs. */
  datatype PyError =
    | TypeError       // wrong number of arguments, int(None), str + None
    | IndexError      // reading past the end of a list
    | AttributeError  // a method called on None, or one the class lacks
    | ValueError      // int() of a string that is not an integer literal

  datatype Result<+R> = Success(value: R) | Failure(error: PyError) {
    predicate IsFailure() {
      Failure?
    }

    function PropagateFailure<U>(): Result<U>
      requires Failure?
    {
      Failure(error)
    }

    function Extract(): R
      requires Success?
    {
      value
    }
  }

  /** A Python float, kept as its IEEE 754 binary64 bit pattern. The model never
      computes with it; it only has to be carried through unchanged (NaN included). */
  datatype Float = Float(bits: bv64)

  const NaN: Float := Float(0x7FF8_0000_0000_0000)

  /** A parameter slot value: a Python int or a Python float. The transport
      selector looks only at the tag. */
  datatype ParamValue = IntV(i: int) | FloatV(f: Float)

  /** The literal `0` written in reserved slots. */
  const Zero: ParamValue := IntV(0)
}
