/// Wire protocol of the live survey layer: the records exchanged by the two
/// survey operations, the generic survey envelope, the errors the layer
/// produces, and the JSON encoding of the records.
///
/// The JSON codec is a foreign library and is abstracted: a payload is either
/// the encoding of one of the protocol's records or bytes that do not parse.
module Protocol {

  /** Survey status codes are 32-bit unsigned integers on the wire. */
  newtype uint32 = x: int | 0 <= x < 0x1_0000_0000

  type byte = x: int | 0 <= x < 256

  /** Cluster node identifiers; the empty identifier addresses every node. */
  type NodeId = string

  /** The closed dispatch table: the names of the two survey operations. */
  const ManagedStreamsCall: string := "managed_streams"
  const PluginSubscribeStreamCall: string := "plugin_subscribe_stream"

  /** Status code of a successful survey reply; every failure is sent as 1. */
  const CodeOk: uint32 := 0
  const CodeFailed: uint32 := 1

  /** Errors of this layer. Errors raised by a collaborator are `External` and
      travel unchanged through the handlers that propagate them. */
  datatype Error =
    | DecodeError                       // the JSON decoder rejected the payload
    | MethodNotFound                    // unknown survey operation
    | ErrorCheckingLeader               // the leader store could not be queried
    | LeaderChanged                     // fencing rejection: stale leadership
    | ErrorGettingSignedInUser          // the user lookup failed
    | UnexpectedSurveyCode(code: uint32)
    | LeaderNodeNotResponded
    | SurveyError(cause: Error)         // a transport error, wrapped
    | External(message: string)

  /** Go's `(value, error)` pair: exactly one of the two is meaningful. */
  datatype Result<+T> = Success(value: T) | Failure(error: Error)

  /** A channel tracked by a node, with its per-minute message rate. */
  datatype ManagedChannel = ManagedChannel(channel: string, minuteRate: int)

  /** The signed-in user as far as this layer looks at it: who and which org;
      `login` stands for the rest of what the user lookup returns. */
  datatype SignedInUser = SignedInUser(userId: int, orgId: int, login: string)

  /** The reply of a channel handler's OnSubscribe, opaque to this layer. */
  datatype SubscribeReply = SubscribeReply(payload: seq<byte>)

  /** The subscribe status reported by a channel handler (0 is "ok"). */
  type SubscribeStreamStatus = int

  datatype NodeManagedChannelsRequest = NodeManagedChannelsRequest(orgId: int)

  datatype NodeManagedChannelsResponse = NodeManagedChannelsResponse(channels: seq<ManagedChannel>)

  datatype PluginSubscribeStreamRequest = PluginSubscribeStreamRequest(
    orgId: int,
    userId: int,
    channel: string,
    leaderNodeId: NodeId,
    leadershipId: string)

  datatype PluginSubscribeStreamResponse = PluginSubscribeStreamResponse(
    status: SubscribeStreamStatus,
    reply: SubscribeReply)

  /** The response a node that is not the addressed leader sends back. */
  const EmptySubscribeResponse := PluginSubscribeStreamResponse(0, SubscribeReply([]))

  /** Every record that travels inside a survey payload. */
  datatype Message =
    | ManagedChannelsReq(managedReq: NodeManagedChannelsRequest)
    | ManagedChannelsResp(managedResp: NodeManagedChannelsResponse)
    | SubscribeReq(subscribeReq: PluginSubscribeStreamRequest)
    | SubscribeResp(subscribeResp: PluginSubscribeStreamResponse)

  /** A survey payload: the JSON encoding of a record, or bytes that are not
      well-formed JSON. */
  datatype Wire = Json(msg: Message) | Invalid(bytes: seq<byte>)

  /** The payload of a failed reply: nothing, which does not decode. */
  const NoData: Wire := Invalid([])

  /** The generic survey envelope, as sent, as received and as answered. */
  datatype SurveyRequest = SurveyRequest(op: string, data: Wire, toNode: NodeId)
  datatype SurveyEvent = SurveyEvent(op: string, data: Wire)
  datatype SurveyReply = SurveyReply(code: uint32, data: Wire)

  /** The per-node replies of one survey, in the order the caller iterates
      them (Go's map iteration order is arbitrary, so any order is possible). */
  type Replies = seq<(NodeId, SurveyReply)>

  function Encode(m: Message): Wire
  {
    Json(m)
  }

  // Decoding into a record type. The JSON keys of the four records are
  // pairwise disjoint and the decoder ignores unknown keys, so the encoding
  // of a record of another type decodes to the zero value of the target.

  function DecodeManagedRequest(w: Wire): Result<NodeManagedChannelsRequest>
  {
    match w
    case Invalid(_) => Failure(DecodeError)
    case Json(ManagedChannelsReq(r)) => Success(r)
    case Json(_) => Success(NodeManagedChannelsRequest(0))
  }

  function DecodeManagedResponse(w: Wire): Result<NodeManagedChannelsResponse>
  {
    match w
    case Invalid(_) => Failure(DecodeError)
    case Json(ManagedChannelsResp(r)) => Success(r)
    case Json(_) => Success(NodeManagedChannelsResponse([]))
  }

  function DecodeSubscribeRequest(w: Wire): Result<PluginSubscribeStreamRequest>
  {
    match w
    case Invalid(_) => Failure(DecodeError)
    case Json(SubscribeReq(r)) => Success(r)
    case Json(_) => Success(PluginSubscribeStreamRequest(0, 0, "", "", ""))
  }

  function DecodeSubscribeResponse(w: Wire): Result<PluginSubscribeStreamResponse>
  {
    match w
    case Invalid(_) => Failure(DecodeError)
    case Json(SubscribeResp(r)) => Success(r)
    case Json(_) => Success(EmptySubscribeResponse)
  }

  /** Every record survives an encode/decode round trip, and a failed reply's
      empty payload never decodes. */
  lemma RoundTrip(a: NodeManagedChannelsRequest, b: NodeManagedChannelsResponse,
                  c: PluginSubscribeStreamRequest, d: PluginSubscribeStreamResponse)
    ensures DecodeManagedRequest(Encode(ManagedChannelsReq(a))) == Success(a)
    ensures DecodeManagedResponse(Encode(ManagedChannelsResp(b))) == Success(b)
    ensures DecodeSubscribeRequest(Encode(SubscribeReq(c))) == Success(c)
    ensures DecodeSubscribeResponse(Encode(SubscribeResp(d))) == Success(d)
    ensures DecodeManagedResponse(NoData) == Failure(DecodeError)
    ensures DecodeSubscribeResponse(NoData) == Failure(DecodeError)
  {
  }
}
