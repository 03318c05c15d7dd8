/** The contract every protobuf-backed value type follows: `toProto` writes a wire message,
    a static `fromProto` reads one back, and an unset sub-message field reads as the message
    type's default instance. The codecs of the collaborators that are not part of this model
    are values of `Codec`, and their round trip is a precondition, never an axiom. */
module ProtoCodec {
  import opened Wrappers

  /** The encoder and decoder of one value type `T` and its wire message `W`, together with
      the default instance that a protobuf getter returns for a field that was never set. */
  datatype Codec<!T, !W> = Codec(toProto: T -> W, fromProto: W -> Result<T>, defaultInstance: W)

  /** Decoding what was encoded gives back the value, for every value. */
  ghost predicate RoundTrips<T(!new), W>(c: Codec<T, W>) {
    forall x: T :: c.fromProto(c.toProto(x)) == Ok(x)
  }
}
