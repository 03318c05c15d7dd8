/** BisqEasyTakeOfferRequest: the first trade message of a Bisq Easy trade, sent by the taker
    to the maker. It carries the sender's network identity, the contract and the taker's
    signature over it, and the storage metadata every trade message has. */
module TakeOfferRequests {
  import opened Wrappers
  import opened ProtoCodec
  import JavaLang

  /** Collaborators that are not part of this model: the peer identity, the contract, the
      contract signature, and the wire messages of these three and of MetaData. */
  type NetworkId(!new)
  type BisqEasyContract(!new)
  type ContractSignatureData(!new)
  type NetworkIdProto
  type BisqEasyContractProto
  type ContractSignatureDataProto
  type MetaDataProto

  /** Storage metadata: how long the message is kept, how large it may be, and the simple
      class name that tags its type. */
  datatype MetaData = MetaData(ttl: int, maxSizeInBytes: int, className: string)

  /** The package the class is declared in, and its name. */
  const Package: string := "bisq.protocol.bisq_easy.messages"
  const ClassName: string := "BisqEasyTakeOfferRequest"

  /** TTL: ten days, in milliseconds. */
  const TTL: int := JavaLang.DaysToMillis(10)

  /** The size cap the public constructor sets, in bytes. */
  const MaxSizeInBytes: int := 100000

  /** The request. Its fields are final, so it is a value: equality is structural over the
      sender and metadata inherited from BisqEasyTradeMessage and its own two fields. The
      datatype constructor plays the role of the private four-argument constructor. */
  datatype BisqEasyTakeOfferRequest = BisqEasyTakeOfferRequest(
    sender: NetworkId,
    bisqEasyContract: BisqEasyContract,
    contractSignatureData: ContractSignatureData,
    metaData: MetaData)

  /** The protobuf BisqEasyTakeOfferRequest message. */
  datatype BisqEasyTakeOfferRequestProto = BisqEasyTakeOfferRequestProto(
    bisqEasyContract: BisqEasyContractProto,
    contractSignatureData: ContractSignatureDataProto)

  /** The `message` oneof of the trade-message envelope: the take-offer request, one of the
      other trade messages (not part of this model), or nothing. */
  datatype TradeMessagePayload =
    | TakeOfferRequestPayload(request: BisqEasyTakeOfferRequestProto)
    | OtherTradeMessage(fieldNumber: nat)
    | PayloadNotSet

  /** The protobuf BisqEasyTradeMessage envelope: sender and metadata, then the oneof. */
  datatype BisqEasyTradeMessageProto = BisqEasyTradeMessageProto(
    sender: NetworkIdProto,
    metaData: MetaDataProto,
    message: TradeMessagePayload)

  /** The codecs of the four collaborators (NetworkId, BisqEasyContract,
      ContractSignatureData, MetaData), which are not part of this model. */
  datatype RequestCodecs = RequestCodecs(
    networkId: Codec<NetworkId, NetworkIdProto>,
    contract: Codec<BisqEasyContract, BisqEasyContractProto>,
    signatureData: Codec<ContractSignatureData, ContractSignatureDataProto>,
    metaData: Codec<MetaData, MetaDataProto>)
  {
    /** Every collaborator decodes back to what it encoded. */
    ghost predicate Valid() {
      RoundTrips(networkId) && RoundTrips(contract)
      && RoundTrips(signatureData) && RoundTrips(metaData)
    }

    /** The default instance of the BisqEasyTakeOfferRequest wire message: both of its
        sub-message fields unset, so each reads as its own type's default instance. */
    function DefaultRequestProto(): (d: BisqEasyTakeOfferRequestProto)
      ensures d.bisqEasyContract == contract.defaultInstance
      ensures d.contractSignatureData == signatureData.defaultInstance
    {
      BisqEasyTakeOfferRequestProto(contract.defaultInstance, signatureData.defaultInstance)
    }
  }

  /** The metadata the public constructor stamps. */
  function DefaultMetaData(): (m: MetaData)
    ensures m.ttl == 864_000_000 && m.ttl == TTL
    ensures m.maxSizeInBytes == 100000
    ensures m.className == "BisqEasyTakeOfferRequest"
  {
    JavaLang.SimpleNameOfClassInPackage(Package, ClassName);
    MetaData(TTL, MaxSizeInBytes, JavaLang.SimpleName(Package + "." + ClassName))
  }

  /** The public constructor: keeps sender, contract and signature data as given and
      attaches ten days of TTL, a 100000-byte cap and the type tag of this class. */
  function Create(sender: NetworkId, contract: BisqEasyContract,
                  signature: ContractSignatureData): (m: BisqEasyTakeOfferRequest)
    ensures m.sender == sender
    ensures m.bisqEasyContract == contract
    ensures m.contractSignatureData == signature
    ensures m.metaData == MetaData(864_000_000, 100000, "BisqEasyTakeOfferRequest")
  {
    BisqEasyTakeOfferRequest(sender, contract, signature, DefaultMetaData())
  }

  /** toBisqEasyTradeMessageProto: the base builder writes sender and metadata, and the
      take-offer-request case of the oneof holds the encoded contract and signature data. */
  function ToBisqEasyTradeMessageProto(m: BisqEasyTakeOfferRequest, codecs: RequestCodecs)
    : (proto: BisqEasyTradeMessageProto)
    ensures proto.message.TakeOfferRequestPayload?
    ensures proto.message.request.bisqEasyContract == codecs.contract.toProto(m.bisqEasyContract)
    ensures proto.message.request.contractSignatureData
            == codecs.signatureData.toProto(m.contractSignatureData)
    ensures proto.sender == codecs.networkId.toProto(m.sender)
    ensures proto.metaData == codecs.metaData.toProto(m.metaData)
  {
    BisqEasyTradeMessageProto(
      codecs.networkId.toProto(m.sender),
      codecs.metaData.toProto(m.metaData),
      TakeOfferRequestPayload(BisqEasyTakeOfferRequestProto(
        codecs.contract.toProto(m.bisqEasyContract),
        codecs.signatureData.toProto(m.contractSignatureData))))
  }

  /** getBisqEasyTakeOfferRequest(): the request when that case is set, otherwise the wire
      message's default instance `defaultInstance`. */
  function GetBisqEasyTakeOfferRequest(proto: BisqEasyTradeMessageProto,
                                       defaultInstance: BisqEasyTakeOfferRequestProto)
    : (request: BisqEasyTakeOfferRequestProto)
    ensures proto.message.TakeOfferRequestPayload? ==> request == proto.message.request
    ensures !proto.message.TakeOfferRequestPayload? ==> request == defaultInstance
  {
    match proto.message
    case TakeOfferRequestPayload(request) => request
    case _ => defaultInstance
  }

  /** The request sub-message that fromProto reads from an envelope. */
  function RequestField(proto: BisqEasyTradeMessageProto, codecs: RequestCodecs)
    : BisqEasyTakeOfferRequestProto
  {
    GetBisqEasyTakeOfferRequest(proto, codecs.DefaultRequestProto())
  }

  /** fromProto: decodes sender, contract, signature data and metadata, in that order, and
      builds the request through the private constructor, so the metadata is the one read
      from the wire rather than the default. The first decoder that fails decides the error. */
  function FromProto(proto: BisqEasyTradeMessageProto, codecs: RequestCodecs)
    : (r: Result<BisqEasyTakeOfferRequest>)
    ensures r.Ok? <==>
      codecs.networkId.fromProto(proto.sender).Ok?
      && codecs.contract.fromProto(
           RequestField(proto, codecs).bisqEasyContract).Ok?
      && codecs.signatureData.fromProto(
           RequestField(proto, codecs).contractSignatureData).Ok?
      && codecs.metaData.fromProto(proto.metaData).Ok?
    ensures r.Ok? ==> codecs.networkId.fromProto(proto.sender) == Ok(r.value.sender)
    ensures r.Ok? ==> codecs.metaData.fromProto(proto.metaData) == Ok(r.value.metaData)
    ensures r.Ok? ==>
      codecs.contract.fromProto(
        RequestField(proto, codecs).bisqEasyContract)
      == Ok(r.value.bisqEasyContract)
    ensures r.Ok? ==>
      codecs.signatureData.fromProto(
        RequestField(proto, codecs).contractSignatureData)
      == Ok(r.value.contractSignatureData)
    ensures codecs.networkId.fromProto(proto.sender).Err? ==>
      r == Err(codecs.networkId.fromProto(proto.sender).error)
    ensures codecs.networkId.fromProto(proto.sender).Ok?
            && codecs.contract.fromProto(
                 RequestField(proto, codecs).bisqEasyContract).Err? ==>
      r == Err(codecs.contract.fromProto(
                 RequestField(proto, codecs).bisqEasyContract).error)
    ensures codecs.networkId.fromProto(proto.sender).Ok?
            && codecs.contract.fromProto(
                 RequestField(proto, codecs).bisqEasyContract).Ok?
            && codecs.signatureData.fromProto(
                 RequestField(proto, codecs).contractSignatureData).Err? ==>
      r == Err(codecs.signatureData.fromProto(
                 RequestField(proto, codecs).contractSignatureData).error)
    ensures codecs.networkId.fromProto(proto.sender).Ok?
            && codecs.contract.fromProto(
                 RequestField(proto, codecs).bisqEasyContract).Ok?
            && codecs.signatureData.fromProto(
                 RequestField(proto, codecs).contractSignatureData).Ok?
            && codecs.metaData.fromProto(proto.metaData).Err? ==>
      r == Err(codecs.metaData.fromProto(proto.metaData).error)
  {
    var request := RequestField(proto, codecs);
    var sender :- codecs.networkId.fromProto(proto.sender);
    var contract :- codecs.contract.fromProto(request.bisqEasyContract);
    var signature :- codecs.signatureData.fromProto(request.contractSignatureData);
    var metaData :- codecs.metaData.fromProto(proto.metaData);
    Ok(BisqEasyTakeOfferRequest(sender, contract, signature, metaData))
  }

  /** The message-level round trip: a request, whatever its metadata, survives the envelope
      unchanged, provided the four collaborators' codecs round-trip. */
  lemma RoundTrip(m: BisqEasyTakeOfferRequest, codecs: RequestCodecs)
    requires codecs.Valid()
    ensures FromProto(ToBisqEasyTradeMessageProto(m, codecs), codecs) == Ok(m)
  {
  }

  /** The metadata is read, not re-stamped: a request whose metadata differs from the
      constructor's default still decodes with that metadata. */
  lemma DecodingKeepsWireMetaData(m: BisqEasyTakeOfferRequest, codecs: RequestCodecs)
    requires codecs.Valid()
    requires m.metaData != DefaultMetaData()
    ensures FromProto(ToBisqEasyTradeMessageProto(m, codecs), codecs).Ok?
    ensures FromProto(ToBisqEasyTradeMessageProto(m, codecs), codecs).value.metaData == m.metaData
    ensures FromProto(ToBisqEasyTradeMessageProto(m, codecs), codecs).value.metaData
            != DefaultMetaData()
  {
    RoundTrip(m, codecs);
  }

  /** A request made by the public constructor keeps its constructor metadata across the
      wire: ten days of TTL, 100000 bytes and the type tag. */
  lemma CreatedRequestRoundTrip(sender: NetworkId, contract: BisqEasyContract,
                                signature: ContractSignatureData, codecs: RequestCodecs)
    requires codecs.Valid()
    ensures FromProto(ToBisqEasyTradeMessageProto(Create(sender, contract, signature), codecs),
                      codecs)
            == Ok(BisqEasyTakeOfferRequest(sender, contract, signature,
                    MetaData(864_000_000, 100000, "BisqEasyTakeOfferRequest")))
  {
    RoundTrip(Create(sender, contract, signature), codecs);
  }

  /** fromProto does not look at the envelope's case: an envelope holding another trade
      message, or none, decodes exactly as one holding the default request instance. */
  lemma FromProtoIgnoresMessageCase(proto: BisqEasyTradeMessageProto, codecs: RequestCodecs)
    requires !proto.message.TakeOfferRequestPayload?
    ensures FromProto(proto, codecs)
            == FromProto(proto.(message := TakeOfferRequestPayload(codecs.DefaultRequestProto())),
                         codecs)
  {
  }

  /** TTL is 10 days in milliseconds and fits a Java long without saturating. */
  lemma TtlIsTenDays()
    ensures TTL == 10 * 24 * 60 * 60 * 1000 == 864_000_000
    ensures 0 < TTL <= JavaLang.LongMax
  {
  }

  /** Two requests are equal exactly when sender, metadata, contract and signature data are. */
  lemma EqualityIsStructural(a: BisqEasyTakeOfferRequest, b: BisqEasyTakeOfferRequest)
    ensures a == b <==>
      a.sender == b.sender && a.metaData == b.metaData
      && a.bisqEasyContract == b.bisqEasyContract
      && a.contractSignatureData == b.contractSignatureData
  {
  }
}
