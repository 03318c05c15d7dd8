/** The price specification of an offer: a fixed price, a premium over the market price
    in percent, or the market price itself, together with its protobuf wire form. */
module PriceSpecs {
  import opened Wrappers
  import opened ProtoCodec

  /** The quote of a fixed price. PriceQuote is not part of this model. */
  type PriceQuote(!new)

  /** The sub-messages of the three cases; their schemas are not part of this model. */
  type FixPriceSpecProto
  type FloatPriceSpecProto
  type MarketPriceSpecProto

  /** The sealed PriceSpec interface and its three implementations. */
  datatype PriceSpec =
    | Fix(priceQuote: PriceQuote)   // FixPriceSpec
    | Float(percentage: real)       // FloatPriceSpec
    | Market                        // MarketPriceSpec

  /** PriceSpec.MessageCase, the discriminant of the `message` oneof. `UnhandledCase` stands
      for any further case of the schema: the switch in fromProto has no branch for it. */
  datatype PriceSpecMessageCase =
    | FixPriceCase
    | FloatPriceCase
    | MarketPriceCase
    | UnhandledCase(fieldNumber: nat)
    | MessageNotSet

  /** The protobuf PriceSpec message: the oneof holds at most one of its cases. */
  datatype PriceSpecProto =
    | FixPriceProto(fixPrice: FixPriceSpecProto)
    | FloatPriceProto(floatPrice: FloatPriceSpecProto)
    | MarketPriceProto(marketPrice: MarketPriceSpecProto)
    | UnhandledProto(fieldNumber: nat)
    | NotSetProto
  {
    /** getMessageCase(): which case of the oneof is set. */
    function MessageCase(): (c: PriceSpecMessageCase)
      ensures c == FixPriceCase <==> FixPriceProto?
      ensures c == FloatPriceCase <==> FloatPriceProto?
      ensures c == MarketPriceCase <==> MarketPriceProto?
      ensures c == MessageNotSet <==> NotSetProto?
      ensures c.UnhandledCase? <==> UnhandledProto?
      ensures UnhandledProto? ==> c == UnhandledCase(fieldNumber)
    {
      match this
      case FixPriceProto(_) => FixPriceCase
      case FloatPriceProto(_) => FloatPriceCase
      case MarketPriceProto(_) => MarketPriceCase
      case UnhandledProto(n) => UnhandledCase(n)
      case NotSetProto => MessageNotSet
    }
  }

  /** The codecs of the three case bodies: FixPriceSpec carries its quote, FloatPriceSpec its
      percentage and MarketPriceSpec nothing. They are not part of this model. */
  datatype PriceSpecCodecs = PriceSpecCodecs(
    fixPrice: Codec<PriceQuote, FixPriceSpecProto>,
    floatPrice: Codec<real, FloatPriceSpecProto>,
    marketPrice: Codec<(), MarketPriceSpecProto>)
  {
    /** Every case body decodes back to what it encoded. */
    ghost predicate Valid() {
      RoundTrips(fixPrice) && RoundTrips(floatPrice) && RoundTrips(marketPrice)
    }
  }

  /** fromPremiumAsPercentage: a premium of zero or more is a floating price with exactly that
      premium; a negative premium collapses into the market price. */
  function FromPremiumAsPercentage(percentage: real): (spec: PriceSpec)
    ensures spec.Float? <==> percentage >= 0.0
    ensures spec.Float? ==> spec.percentage == percentage
    ensures spec.Market? <==> percentage < 0.0
    ensures !spec.Fix?
  {
    if percentage >= 0.0 then Float(percentage) else Market
  }

  /** findFixPriceSpec: present exactly for a fixed price, and then the spec itself. */
  function FindFixPriceSpec(spec: PriceSpec): (found: Option<PriceSpec>)
    ensures found.Some? <==> spec.Fix?
    ensures found.Some? ==> found.value == spec
  {
    if spec.Fix? then Some(spec) else None
  }

  /** findFloatPriceSpec: present exactly for a floating price, and then the spec itself. */
  function FindFloatPriceSpec(spec: PriceSpec): (found: Option<PriceSpec>)
    ensures found.Some? <==> spec.Float?
    ensures found.Some? ==> found.value == spec
  {
    if spec.Float? then Some(spec) else None
  }

  /** findMarketPriceSpec: present exactly for the market price, and then the spec itself. */
  function FindMarketPriceSpec(spec: PriceSpec): (found: Option<PriceSpec>)
    ensures found.Some? <==> spec.Market?
    ensures found.Some? ==> found.value == spec
  {
    if spec.Market? then Some(spec) else None
  }

  /** The number of finders that return a present value. */
  function PresentFinders(spec: PriceSpec): nat {
    (if FindFixPriceSpec(spec).Some? then 1 else 0)
    + (if FindFloatPriceSpec(spec).Some? then 1 else 0)
    + (if FindMarketPriceSpec(spec).Some? then 1 else 0)
  }

  /** The three finders partition the specs: exactly one of them is present for any spec. */
  lemma FindersExclusive(spec: PriceSpec)
    ensures PresentFinders(spec) == 1
  {
  }

  /** toProto of each implementation: it sets the oneof case of its own variant and fills it
      with the encoded body. There is no other case, so no default branch is needed. */
  function ToProto(spec: PriceSpec, codecs: PriceSpecCodecs): (proto: PriceSpecProto)
    ensures proto.MessageCase() == FixPriceCase <==> spec.Fix?
    ensures proto.MessageCase() == FloatPriceCase <==> spec.Float?
    ensures proto.MessageCase() == MarketPriceCase <==> spec.Market?
    ensures proto.MessageCase() != MessageNotSet && !proto.MessageCase().UnhandledCase?
    ensures spec.Fix? ==> proto.fixPrice == codecs.fixPrice.toProto(spec.priceQuote)
    ensures spec.Float? ==> proto.floatPrice == codecs.floatPrice.toProto(spec.percentage)
    ensures spec.Market? ==> proto.marketPrice == codecs.marketPrice.toProto(())
  {
    match spec
    case Fix(quote) => FixPriceProto(codecs.fixPrice.toProto(quote))
    case Float(percentage) => FloatPriceProto(codecs.floatPrice.toProto(percentage))
    case Market => MarketPriceProto(codecs.marketPrice.toProto(()))
  }

  /** PriceSpec.fromProto: dispatches on the message case to the decoder of that case's
      sub-message; an unset or unhandled case is an UnresolvableProtobufMessage error. */
  function FromProto(proto: PriceSpecProto, codecs: PriceSpecCodecs): (r: Result<PriceSpec>)
    ensures r.Ok? ==> (r.value.Fix? <==> proto.MessageCase() == FixPriceCase)
    ensures r.Ok? ==> (r.value.Float? <==> proto.MessageCase() == FloatPriceCase)
    ensures r.Ok? ==> (r.value.Market? <==> proto.MessageCase() == MarketPriceCase)
    ensures proto.MessageCase() == FixPriceCase ==>
      (r.Ok? <==> codecs.fixPrice.fromProto(proto.fixPrice).Ok?)
      && (r.Ok? ==> codecs.fixPrice.fromProto(proto.fixPrice) == Ok(r.value.priceQuote))
    ensures proto.MessageCase() == FloatPriceCase ==>
      (r.Ok? <==> codecs.floatPrice.fromProto(proto.floatPrice).Ok?)
      && (r.Ok? ==> codecs.floatPrice.fromProto(proto.floatPrice) == Ok(r.value.percentage))
    ensures proto.MessageCase() == MarketPriceCase ==>
      (r.Ok? <==> codecs.marketPrice.fromProto(proto.marketPrice).Ok?)
    ensures proto.MessageCase() == FixPriceCase
            && codecs.fixPrice.fromProto(proto.fixPrice).Err? ==>
      r == Err(codecs.fixPrice.fromProto(proto.fixPrice).error)
    ensures proto.MessageCase() == FloatPriceCase
            && codecs.floatPrice.fromProto(proto.floatPrice).Err? ==>
      r == Err(codecs.floatPrice.fromProto(proto.floatPrice).error)
    ensures proto.MessageCase() == MarketPriceCase
            && codecs.marketPrice.fromProto(proto.marketPrice).Err? ==>
      r == Err(codecs.marketPrice.fromProto(proto.marketPrice).error)
    ensures proto.MessageCase() == MessageNotSet ==>
      r == Err(UnresolvableProtobufMessage("PriceSpec", 0))
    ensures proto.MessageCase().UnhandledCase? ==>
      r == Err(UnresolvableProtobufMessage("PriceSpec", proto.MessageCase().fieldNumber))
  {
    match proto.MessageCase()
    case FixPriceCase =>
      var quote :- codecs.fixPrice.fromProto(proto.fixPrice);
      Ok(Fix(quote))
    case FloatPriceCase =>
      var percentage :- codecs.floatPrice.fromProto(proto.floatPrice);
      Ok(Float(percentage))
    case MarketPriceCase =>
      var _ :- codecs.marketPrice.fromProto(proto.marketPrice);
      Ok(Market)
    case MessageNotSet =>
      Err(UnresolvableProtobufMessage("PriceSpec", 0))
    case UnhandledCase(fieldNumber) =>
      Err(UnresolvableProtobufMessage("PriceSpec", fieldNumber))
  }

  /** Every spec survives the wire: decoding its encoding gives it back, for all three
      variants, provided the case bodies' codecs round-trip. */
  lemma RoundTrip(spec: PriceSpec, codecs: PriceSpecCodecs)
    requires codecs.Valid()
    ensures FromProto(ToProto(spec, codecs), codecs) == Ok(spec)
  {
  }

  /** A decoded spec is never a fallback: whatever fromProto returns re-encodes into the case
      it was read from, so an unset or unknown case can never stand behind a result. */
  lemma DecodedSpecKeepsItsCase(proto: PriceSpecProto, codecs: PriceSpecCodecs)
    requires FromProto(proto, codecs).Ok?
    ensures ToProto(FromProto(proto, codecs).value, codecs).MessageCase() == proto.MessageCase()
  {
  }

  /** The construction rule read through the finders, with its boundaries: a premium of 0
      gives the floating spec with premium 0, and -0.0001 gives the market spec. */
  lemma FromPremiumBoundaries()
    ensures FindFloatPriceSpec(FromPremiumAsPercentage(0.0)) == Some(Float(0.0))
    ensures FindMarketPriceSpec(FromPremiumAsPercentage(-0.0001)) == Some(Market)
    ensures FindFixPriceSpec(FromPremiumAsPercentage(0.0)) == None
    ensures FindFloatPriceSpec(FromPremiumAsPercentage(-0.0001)) == None
  {
  }
}
