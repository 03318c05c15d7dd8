# Bisq 2 price specifications and the Bisq Easy take-offer request, in Dafny

This project models two value types from the protocol codec layer of the Bisq 2 peer-to-peer
trading node.

- `PriceSpec` is the price rule of an offer. It is a fixed price (`FixPriceSpec`), a premium
  over the market price in percent (`FloatPriceSpec`), or the market price (`MarketPriceSpec`).
  The model covers the rule that turns a premium into a spec. It covers the three finders that
  pick out one variant. It covers the protobuf decoder, which dispatches on the `message` oneof
  and refuses an unset or unhandled case.
- `BisqEasyTakeOfferRequest` is the first message of a Bisq Easy trade. It carries the taker's
  `NetworkId`, the `BisqEasyContract`, the taker's `ContractSignatureData` and the storage
  `MetaData`. The model covers the public constructor and the metadata it stamps (ten days of
  TTL, a 100000-byte cap and the class's simple name as type tag). It covers the encoder into
  the `BisqEasyTradeMessage` envelope, the decoder back out of it, and the round trip.

Files:

- `wrappers.dfy` (module `Wrappers`): `Option` stands for `java.util.Optional`. `Result`
  stands for a decoder that returns a value or throws. `DecodeError` holds the thrown failure.
- `proto_codec.dfy` (module `ProtoCodec`): `Codec<T, W>` holds a collaborator's `toProto`,
  its `fromProto` and its wire message's default instance. The predicate `RoundTrips` states
  that the codec round-trips.
- `java_lang.dfy` (module `JavaLang`): the two pieces of the Java runtime the request's
  metadata relies on. `TimeUnit.DAYS.toMillis` saturates instead of overflowing.
  `Class.getSimpleName` drops the package prefix.
- `price_spec.dfy` (module `PriceSpecs`): the `PriceSpec` union, the oneof envelope
  `PriceSpecProto` with its `MessageCase()`, and the operations and lemmas.
- `take_offer_request.dfy` (module `TakeOfferRequests`): the request, its wire messages and
  the operations and lemmas.

The collaborators whose source is not part of this model are opaque types:

- `PriceQuote`, `NetworkId`, `BisqEasyContract` and `ContractSignatureData`;
- the protobuf messages of the collaborators.

Their codecs are arguments of type `Codec`. Every round-trip lemma takes "these codecs
round-trip" as a precondition (`PriceSpecCodecs.Valid()`, `RequestCodecs.Valid()`). Nothing
is assumed as an axiom.

A protobuf oneof is a datatype with one constructor per case. Its discriminant is the
function `MessageCase()`. A getter on a sub-message field that was never set returns the
message type's default instance. The model keeps that default as `Codec.defaultInstance`.

## Model

| member | source | states |
|---|---|---|
| `PriceSpecs.FromPremiumAsPercentage` | offer/src/main/java/bisq/offer/price_spec/PriceSpec.java:26-30 | The result is the floating spec exactly when the premium is at least 0, and then it carries that same premium. It is the market spec exactly when the premium is negative. It is never the fixed spec. |
| `PriceSpecs.FromPremiumBoundaries` | offer/src/main/java/bisq/offer/price_spec/PriceSpec.java:26-30 | Seen through the finders, premium 0 gives the floating spec with premium 0 and no fixed spec. Premium -0.0001 gives the market spec and no floating spec. |
| `PriceSpecs.FindFixPriceSpec` | offer/src/main/java/bisq/offer/price_spec/PriceSpec.java:38-43 | Present if and only if the spec is the fixed variant; the present value is the spec itself. |
| `PriceSpecs.FindFloatPriceSpec` | offer/src/main/java/bisq/offer/price_spec/PriceSpec.java:45-50 | Present if and only if the spec is the floating variant; the present value is the spec itself. |
| `PriceSpecs.FindMarketPriceSpec` | offer/src/main/java/bisq/offer/price_spec/PriceSpec.java:52-57 | Present if and only if the spec is the market variant; the present value is the spec itself. |
| `PriceSpecs.FindersExclusive` | offer/src/main/java/bisq/offer/price_spec/PriceSpec.java:38-57 | For every spec exactly one of the three finders is present. So they are mutually exclusive, and together they cover every spec. |
| `PriceSpecs.PriceSpecProto.MessageCase` | offer/src/main/java/bisq/offer/price_spec/PriceSpec.java:60 | The discriminant names exactly the oneof case that is set, with its field number for an unhandled case, and `MESSAGE_NOT_SET` exactly when none is set. |
| `PriceSpecs.ToProto` | offer/src/main/java/bisq/offer/price_spec/PriceSpec.java:32 | Each variant sets its own case of the oneof, never an unset or unhandled one. That case holds the encoded quote, the encoded premium or the encoded empty market body. |
| `PriceSpecs.FromProto` | offer/src/main/java/bisq/offer/price_spec/PriceSpec.java:59-75 | A decoded spec is the variant matching the case. It is built from that case's sub-message, and the call succeeds exactly when the sub-decoder succeeds. When the sub-decoder fails, its own error is returned unchanged. An unset case yields an UnresolvableProtobufMessage error with field number 0. An unhandled case yields one with that case's field number. |
| `PriceSpecs.RoundTrip` | offer/src/main/java/bisq/offer/price_spec/PriceSpec.java:32-75 | If the three case-body codecs round-trip, then decoding the encoding of any spec gives back that spec, for all three variants. |
| `PriceSpecs.DecodedSpecKeepsItsCase` | offer/src/main/java/bisq/offer/price_spec/PriceSpec.java:59-75 | A successfully decoded spec re-encodes into the same case it was read from, so no default variant stands in for an unknown case. |
| `JavaLang.DaysToMillis` | protocol/src/main/java/bisq/protocol/bisq_easy/messages/BisqEasyTakeOfferRequest.java:36 | The result is days times 86,400,000 whenever that fits a Java long. Above Long.MAX_VALUE / 86,400,000 days it is Long.MAX_VALUE, and below the negation of that bound it is Long.MIN_VALUE. It is positive for a positive number of days. |
| `JavaLang.SimpleName` | protocol/src/main/java/bisq/protocol/bisq_easy/messages/BisqEasyTakeOfferRequest.java:44 | The simple name is a suffix of the qualified name and contains no dot. Either it is the whole name or a dot stands right before it. |
| `JavaLang.SimpleNameAfterLastDot` | protocol/src/main/java/bisq/protocol/bisq_easy/messages/BisqEasyTakeOfferRequest.java:44 | The simple name is exactly the text after the last dot. |
| `JavaLang.SimpleNameOfClassInPackage` | protocol/src/main/java/bisq/protocol/bisq_easy/messages/BisqEasyTakeOfferRequest.java:18-44 | A dot-free class name declared in any package has itself as simple name, so the type tag is "BisqEasyTakeOfferRequest". |
| `TakeOfferRequests.TtlIsTenDays` | protocol/src/main/java/bisq/protocol/bisq_easy/messages/BisqEasyTakeOfferRequest.java:36 | TTL is 10 days in milliseconds, 864,000,000, and is positive and within a Java long. |
| `TakeOfferRequests.DefaultMetaData` | protocol/src/main/java/bisq/protocol/bisq_easy/messages/BisqEasyTakeOfferRequest.java:36-44 | The stamped metadata has ttl 864,000,000 (equal to TTL), max size 100000 and type tag "BisqEasyTakeOfferRequest". |
| `TakeOfferRequests.Create` | protocol/src/main/java/bisq/protocol/bisq_easy/messages/BisqEasyTakeOfferRequest.java:40-52 | The public constructor keeps sender, contract and signature data as given. It attaches MetaData(864,000,000, 100000, "BisqEasyTakeOfferRequest"). |
| `TakeOfferRequests.ToBisqEasyTradeMessageProto` | protocol/src/main/java/bisq/protocol/bisq_easy/messages/BisqEasyTakeOfferRequest.java:55-61 | The envelope's oneof is the take-offer-request case. Its contract and signature-data fields hold the sub-encodings. The envelope's sender and metadata hold the encoded sender and metadata. |
| `TakeOfferRequests.RequestCodecs.DefaultRequestProto` | protocol/src/main/java/bisq/protocol/bisq_easy/messages/BisqEasyTakeOfferRequest.java:64-68 | The default instance of the take-offer-request wire message reads both of its sub-message fields as their own types' default instances. |
| `TakeOfferRequests.GetBisqEasyTakeOfferRequest` | protocol/src/main/java/bisq/protocol/bisq_easy/messages/BisqEasyTakeOfferRequest.java:64 | When the take-offer case is set, the getter returns it. Otherwise it returns the wire message's default instance, which `RequestCodecs.DefaultRequestProto` builds from the two sub-messages' default instances. |
| `TakeOfferRequests.FromProto` | protocol/src/main/java/bisq/protocol/bisq_easy/messages/BisqEasyTakeOfferRequest.java:63-70 | Decoding succeeds exactly when all four sub-decoders succeed. Each field of the result is what its sub-decoder read. In particular the metadata is read from the wire, not re-stamped. Otherwise the error is that of the first failing decoder, in the order sender, contract, signature data, metadata. |
| `TakeOfferRequests.RoundTrip` | protocol/src/main/java/bisq/protocol/bisq_easy/messages/BisqEasyTakeOfferRequest.java:55-70 | If the four collaborators' codecs round-trip, then decoding the envelope of any request gives back that request. |
| `TakeOfferRequests.DecodingKeepsWireMetaData` | protocol/src/main/java/bisq/protocol/bisq_easy/messages/BisqEasyTakeOfferRequest.java:63-69 | A request whose metadata differs from the constructor's default decodes with its own metadata, still different from the default. |
| `TakeOfferRequests.CreatedRequestRoundTrip` | protocol/src/main/java/bisq/protocol/bisq_easy/messages/BisqEasyTakeOfferRequest.java:40-70 | A request made by the public constructor comes back from the wire with its fields unchanged and with MetaData(864,000,000, 100000, "BisqEasyTakeOfferRequest"). |
| `TakeOfferRequests.FromProtoIgnoresMessageCase` | protocol/src/main/java/bisq/protocol/bisq_easy/messages/BisqEasyTakeOfferRequest.java:63-70 | fromProto does not check the envelope's case. An envelope holding another trade message, or none, decodes exactly like one holding the default request instance. |
| `TakeOfferRequests.EqualityIsStructural` | protocol/src/main/java/bisq/protocol/bisq_easy/messages/BisqEasyTakeOfferRequest.java:34-38 | Two requests are equal exactly when their sender, metadata, contract and signature data are equal. This assumes the inherited equality compares exactly sender and metadata (see Left out). |

## Left out

- The source of `FixPriceSpec`, `FloatPriceSpec` and `MarketPriceSpec` is not part of this model. Their `toProto` is modelled as setting their own oneof case around their encoded body. Their `fromProto` is modelled as a `Codec` argument.
- `PriceQuote`, `NetworkId`, `BisqEasyContract`, `ContractSignatureData` and the protobuf messages are not part of this model. They are opaque types, and their codecs' round trip is a precondition.
- The base class `BisqEasyTradeMessage` is not part of this model. Its builder is modelled as writing the encoded sender and metadata into the envelope, and nothing else. Any trade id or other envelope field it may add is not modelled.
- The protobuf schemas are not part of this model. A oneof case that the schema might have but the `PriceSpec.fromProto` switch does not handle is modelled as `UnhandledCase`. It reaches the final throw.
- PriceSpecs.FromPremiumAsPercentage: the premium is a `real`, so IEEE-754 doubles are not modelled. In Java a NaN premium fails the `>= 0` test and yields the market spec; a real has no NaN.
- `UnresolvableProtobufMessageException` carries the whole proto object. The model's error carries only the message type name and the field number of the case that was found (0 when no case is set, the number protobuf gives MESSAGE_NOT_SET).
- The logging, `toString` and `hashCode` that Lombok generates are not modelled.
- TakeOfferRequests.EqualityIsStructural: Lombok's `callSuper = true` hands the inherited part of `equals` to `BisqEasyTradeMessage.equals`, which is not part of this model. The model assumes that method compares exactly `sender` and `metaData`, and models equality as datatype equality over those two fields plus the contract and the signature data.
- The Tor transport, the account-age settings tab and the amount-selection view model are not modelled: they hold I/O, asynchronous plumbing and presentation state. The connection manager, the message store, TTL garbage collection and the trade-session state machine are not modelled either.
