/// The services the survey layer is wired to, and the record of which of
/// them a handler invoked.
module Collaborators {
  import opened Protocol

  /** What the leader store reports for a channel: whether a leader exists,
      which node it is and the fencing token of its current leadership. */
  datatype LeaderInfo = LeaderInfo(found: bool, leaderNodeId: NodeId, leadershipId: string)

  /** A channel name split into its parts by the channel-handler getter. */
  datatype LiveChannel = LiveChannel(scope: string, namespace: string, path: string)

  /** Identifies the channel handler the getter resolved. */
  type HandlerRef = string

  /** The event handed to a channel handler's OnSubscribe. */
  datatype SubscribeEvent = SubscribeEvent(channel: string, path: string, leadershipId: string)

  /** What OnSubscribe answers, and what the targeted leader call returns. */
  datatype Subscribed = Subscribed(reply: SubscribeReply, status: SubscribeStreamStatus)

  /** The survey caller: this node's identity and the collaborators it was
      constructed with, each given by the answers it returns.
      `prependOrgId` is the org-scoping convention for channel keys and
      `survey` is the cluster transport (an empty target broadcasts). */
  datatype Caller = Caller(
    nodeId: NodeId,
    getLeader: string -> Result<LeaderInfo>,
    getSignedInUser: (int, int) -> Result<SignedInUser>,
    getChannelHandler: (SignedInUser, string) -> Result<(HandlerRef, LiveChannel)>,
    onSubscribe: (HandlerRef, SignedInUser, SubscribeEvent) -> Result<Subscribed>,
    getManagedChannels: int -> Result<seq<ManagedChannel>>,
    prependOrgId: (int, string) -> string,
    survey: SurveyRequest -> Result<Replies>)

  /** One invocation of a collaborator, with its arguments. */
  datatype Call =
    | GetLeaderCall(key: string)
    | GetSignedInUserCall(userId: int, orgId: int)
    | GetChannelHandlerCall(user: SignedInUser, channel: string)
    | OnSubscribeCall(handler: HandlerRef, user: SignedInUser, event: SubscribeEvent)
    | GetManagedChannelsCall(orgId: int)

  /** A handler's result together with the collaborator calls it made, in order. */
  datatype Traced<+T> = Traced(calls: seq<Call>, result: Result<T>)

  predicate InvokesOnSubscribe(calls: seq<Call>)
  {
    exists i :: 0 <= i < |calls| && calls[i].OnSubscribeCall?
  }

  predicate InvokesGetLeader(calls: seq<Call>)
  {
    exists i :: 0 <= i < |calls| && calls[i].GetLeaderCall?
  }

  predicate InvokesGetSignedInUser(calls: seq<Call>)
  {
    exists i :: 0 <= i < |calls| && calls[i].GetSignedInUserCall?
  }
}
