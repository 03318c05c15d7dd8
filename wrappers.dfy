/** Option and Result, the value-level stand-ins for java.util.Optional and for a
    decoder that either returns a value or throws. */
module Wrappers {

  /** java.util.Optional: empty or holding one value. */
  datatype Option<+T> = None | Some(value: T)

  /** The failure that a protobuf decoder raises. */
  datatype DecodeError =
    /** UnresolvableProtobufMessageException, raised for a message case that no branch handles;
        it names the message type and the field number of the case found on the wire
        (0 when no case is set, as protobuf numbers MESSAGE_NOT_SET). */
    | UnresolvableProtobufMessage(messageType: string, fieldNumber: nat)
    /** Any failure raised inside a sub-message decoder that is not part of this model. */
    | SubMessageError(reason: string)

  /** The outcome of a decoder: a value, or the exception it throws. Usable with `:-`. */
  datatype Result<+T> = Ok(value: T) | Err(error: DecodeError) {

    predicate IsFailure() {
      Err?
    }

    function PropagateFailure<U>(): Result<U>
      requires Err?
    {
      Err(error)
    }

    function Extract(): T
      requires Ok?
    {
      value
    }
  }
}
