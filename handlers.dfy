/// The receiving side of the survey layer: the dispatcher every inbound
/// survey goes through and the two operation handlers behind it.
/// Each handler is a function of the request and of the collaborators'
/// answers; the `Traced` result records which collaborators it called.
module Handlers {
  import opened Protocol
  import opened Collaborators

  /** What the dispatcher does with one inbound survey: the collaborator calls
      its handler made and every reply it passed to the survey callback. */
  datatype SurveyOutcome = SurveyOutcome(calls: seq<Call>, replies: seq<SurveyReply>)

  /** Lifts a handler's typed response to the record it is marshalled from. */
  function Wrap<T>(t: Traced<T>, wrap: T -> Message): Traced<Message>
  {
    match t.result
    case Success(v) => Traced(t.calls, Success(wrap(v)))
    case Failure(e) => Traced(t.calls, Failure(e))
  }

  /** The dispatch table: the handler for the operation, or "method not found". */
  function HandleOp(c: Caller, e: SurveyEvent): Traced<Message>
  {
    if e.op == ManagedStreamsCall then
      Wrap(HandleManagedStreams(c, e.data), (r: NodeManagedChannelsResponse) => ManagedChannelsResp(r))
    else if e.op == PluginSubscribeStreamCall then
      Wrap(HandlePluginSubscribeStream(c, e.data), (r: PluginSubscribeStreamResponse) => SubscribeResp(r))
    else
      Traced([], Failure(MethodNotFound))
  }

  /** The inbound survey handler. `marshal` is the JSON encoder, which may
      fail. The callback is invoked exactly once, and the only replies are
      code 0 with a payload or code 1 without one. */
  function HandleSurvey(c: Caller, marshal: Message -> Result<Wire>, e: SurveyEvent): (r: SurveyOutcome)
    ensures |r.replies| == 1
    ensures r.replies[0].code == CodeOk || r.replies[0] == SurveyReply(CodeFailed, NoData)
  {
    var handled := HandleOp(c, e);
    var reply :=
      match handled.result
      case Failure(_) => SurveyReply(CodeFailed, NoData)
      case Success(resp) =>
        match marshal(resp)
        case Failure(_) => SurveyReply(CodeFailed, NoData)
        case Success(data) => SurveyReply(CodeOk, data);
    SurveyOutcome(handled.calls, [reply])
  }

  /** Answers "which channels does this node manage" from the local tracker,
      which is the only collaborator it consults, and at most once. */
  function HandleManagedStreams(c: Caller, data: Wire): (t: Traced<NodeManagedChannelsResponse>)
    ensures |t.calls| <= 1
    ensures forall i :: 0 <= i < |t.calls| ==> t.calls[i].GetManagedChannelsCall?
  {
    match DecodeManagedRequest(data)
    case Failure(e) => Traced([], Failure(e))
    case Success(req) =>
      var calls := [GetManagedChannelsCall(req.orgId)];
      match c.getManagedChannels(req.orgId)
      case Failure(e) => Traced(calls, Failure(e))
      case Success(channels) => Traced(calls, Success(NodeManagedChannelsResponse(channels)))
  }

  /** The channel key the leader store is asked about. */
  function LeaderKey(c: Caller, req: PluginSubscribeStreamRequest): string
  {
    c.prependOrgId(req.orgId, req.channel)
  }

  /** The identity the subscribe runs as: the looked-up user for a positive
      user id, otherwise a synthesised user that carries only the org. */
  function ResolveUser(c: Caller, req: PluginSubscribeStreamRequest): Traced<SignedInUser>
  {
    if req.userId > 0 then
      var calls := [GetSignedInUserCall(req.userId, req.orgId)];
      match c.getSignedInUser(req.userId, req.orgId)
      case Failure(_) => Traced(calls, Failure(ErrorGettingSignedInUser))
      case Success(user) => Traced(calls, Success(user))
    else
      Traced([], Success(SignedInUser(0, req.orgId, "")))
  }

  /** The leader-fenced subscribe: only the addressed node, and only while the
      leader store still reports the request's leadership, resolves the
      identity and the channel handler and calls OnSubscribe. */
  function HandlePluginSubscribeStream(c: Caller, data: Wire): (t: Traced<PluginSubscribeStreamResponse>)
    ensures InvokesOnSubscribe(t.calls) ==>
              DecodeSubscribeRequest(data).Success? && LeadershipCurrent(c, DecodeSubscribeRequest(data).value)
  {
    match DecodeSubscribeRequest(data)
    case Failure(e) => Traced([], Failure(e))
    case Success(req) =>
      if req.leaderNodeId != c.nodeId then
        Traced([], Success(EmptySubscribeResponse))
      else
        var fence := [GetLeaderCall(LeaderKey(c, req))];
        match c.getLeader(LeaderKey(c, req))
        case Failure(_) => Traced(fence, Failure(ErrorCheckingLeader))
        case Success(leader) =>
          if !leader.found || leader.leadershipId != req.leadershipId then
            Traced(fence, Failure(LeaderChanged))
          else
            var identity := ResolveUser(c, req);
            var calls := fence + identity.calls;
            match identity.result
            case Failure(e) => Traced(calls, Failure(e))
            case Success(user) =>
              var calls := calls + [GetChannelHandlerCall(user, req.channel)];
              match c.getChannelHandler(user, req.channel)
              case Failure(e) => Traced(calls, Failure(e))
              case Success((handler, parsed)) =>
                var event := SubscribeEvent(req.channel, parsed.path, req.leadershipId);
                var calls := calls + [OnSubscribeCall(handler, user, event)];
                match c.onSubscribe(handler, user, event)
                case Failure(e) => Traced(calls, Failure(e))
                case Success(s) => Traced(calls, Success(PluginSubscribeStreamResponse(s.status, s.reply)))
  }

  /** The fencing condition: this node is the addressed leader and the leader
      store reports a leader whose token is the one the request carries. */
  predicate LeadershipCurrent(c: Caller, req: PluginSubscribeStreamRequest)
  {
    var answer := c.getLeader(LeaderKey(c, req));
    && req.leaderNodeId == c.nodeId
    && answer.Success?
    && answer.value.found
    && answer.value.leadershipId == req.leadershipId
  }

  // ---------------------------------------------------------------------
  // The dispatcher

  /** An operation outside the table is rejected with code 1 and nothing
      else happens. */
  lemma UnknownOperationRejected(c: Caller, marshal: Message -> Result<Wire>, e: SurveyEvent)
    requires e.op != ManagedStreamsCall && e.op != PluginSubscribeStreamCall
    ensures HandleSurvey(c, marshal, e) == SurveyOutcome([], [SurveyReply(CodeFailed, NoData)])
  {
  }

  /** A handler or marshal failure is sent as code 1 with no payload, whatever
      the error was; success is sent as code 0 with the encoded response. */
  lemma ReplyReflectsHandler(c: Caller, marshal: Message -> Result<Wire>, e: SurveyEvent)
    ensures var handled := HandleOp(c, e);
            var r := HandleSurvey(c, marshal, e);
            && r.calls == handled.calls
            && (handled.result.Failure? ==> r.replies == [SurveyReply(CodeFailed, NoData)])
            && (handled.result.Success? && marshal(handled.result.value).Failure? ==>
                  r.replies == [SurveyReply(CodeFailed, NoData)])
            && (handled.result.Success? && marshal(handled.result.value).Success? ==>
                  r.replies == [SurveyReply(CodeOk, marshal(handled.result.value).value)])
  {
  }

  /** The managed-channels answer is the local tracker's list, unchanged and
      in the same order; its error is passed on unchanged. */
  lemma ManagedStreamsAnswerLocalList(c: Caller, data: Wire)
    ensures DecodeManagedRequest(data).Failure? ==> HandleManagedStreams(c, data) == Traced([], Failure(DecodeError))
    ensures DecodeManagedRequest(data).Success? ==>
            var orgId := DecodeManagedRequest(data).value.orgId;
            var t := HandleManagedStreams(c, data);
            && t.calls == [GetManagedChannelsCall(orgId)]
            && (c.getManagedChannels(orgId).Success? ==>
                  t.result == Success(NodeManagedChannelsResponse(c.getManagedChannels(orgId).value)))
            && (c.getManagedChannels(orgId).Failure? ==> t.result == Failure(c.getManagedChannels(orgId).error))
  {
  }

  // ---------------------------------------------------------------------
  // The leader-fenced subscribe

  /** A request addressed to another node gets an empty answer, and no
      collaborator is called. */
  lemma NonLeaderIsNoOp(c: Caller, data: Wire)
    requires DecodeSubscribeRequest(data).Success?
    requires DecodeSubscribeRequest(data).value.leaderNodeId != c.nodeId
    ensures HandlePluginSubscribeStream(c, data) == Traced([], Success(EmptySubscribeResponse))
    ensures !InvokesGetLeader(HandlePluginSubscribeStream(c, data).calls)
  {
  }

  /** A payload that does not decode fails before any collaborator is called. */
  lemma MalformedRequestRejected(c: Caller, data: Wire)
    requires DecodeSubscribeRequest(data).Failure?
    ensures HandlePluginSubscribeStream(c, data) == Traced([], Failure(DecodeError))
    ensures !InvokesGetLeader(HandlePluginSubscribeStream(c, data).calls)
  {
  }

  /** Fencing: when the leader store errs, reports no leader, or reports
      another leadership, the handler fails after that one query, so neither
      the user lookup, the channel-handler getter nor OnSubscribe runs. */
  lemma StaleLeadershipRejected(c: Caller, data: Wire)
    requires DecodeSubscribeRequest(data).Success?
    requires var req := DecodeSubscribeRequest(data).value;
             req.leaderNodeId == c.nodeId && !LeadershipCurrent(c, req)
    ensures var req := DecodeSubscribeRequest(data).value;
            var answer := c.getLeader(LeaderKey(c, req));
            var t := HandlePluginSubscribeStream(c, data);
            && t.calls == [GetLeaderCall(c.prependOrgId(req.orgId, req.channel))]
            && !InvokesOnSubscribe(t.calls)
            && (answer.Failure? ==> t.result == Failure(ErrorCheckingLeader))
            && (answer.Success? ==> t.result == Failure(LeaderChanged))
  {
  }

  /** Identity resolution once the fence has passed: a positive user id is
      looked up with the request's org, a failed lookup ends the call before
      the channel-handler getter, and a found user is the one the getter is
      asked for; otherwise no lookup is made and the
      channel handler is asked on behalf of a user with only the org set. */
  lemma IdentityResolution(c: Caller, data: Wire)
    requires DecodeSubscribeRequest(data).Success?
    requires LeadershipCurrent(c, DecodeSubscribeRequest(data).value)
    ensures var req := DecodeSubscribeRequest(data).value;
            var key := LeaderKey(c, req);
            var t := HandlePluginSubscribeStream(c, data);
            && (req.userId > 0 ==>
                  |t.calls| >= 2 && t.calls[..2] == [GetLeaderCall(key), GetSignedInUserCall(req.userId, req.orgId)])
            && (req.userId > 0 && c.getSignedInUser(req.userId, req.orgId).Failure? ==>
                  t == Traced([GetLeaderCall(key), GetSignedInUserCall(req.userId, req.orgId)],
                              Failure(ErrorGettingSignedInUser)))
            && (req.userId > 0 && c.getSignedInUser(req.userId, req.orgId).Success? ==>
                  |t.calls| >= 3 &&
                  t.calls[2] == GetChannelHandlerCall(c.getSignedInUser(req.userId, req.orgId).value, req.channel))
            && (req.userId <= 0 ==>
                  |t.calls| >= 2 && t.calls[..2] == [GetLeaderCall(key), GetChannelHandlerCall(SignedInUser(0, req.orgId, ""), req.channel)]
                  && !InvokesGetSignedInUser(t.calls))
  {
  }

  /** Past the fence and a resolved identity, a channel-handler error is
      returned unchanged; once the handler is resolved, OnSubscribe is called
      last, with the request's channel, the parsed path and the request's
      leadership token, and its answer or error is returned unchanged. */
  lemma SubscribeForwarded(c: Caller, data: Wire)
    requires DecodeSubscribeRequest(data).Success?
    requires LeadershipCurrent(c, DecodeSubscribeRequest(data).value)
    requires ResolveUser(c, DecodeSubscribeRequest(data).value).result.Success?
    ensures var req := DecodeSubscribeRequest(data).value;
            var user := ResolveUser(c, req).result.value;
            var resolved := c.getChannelHandler(user, req.channel);
            var t := HandlePluginSubscribeStream(c, data);
            && (resolved.Failure? ==> t.result == Failure(resolved.error) && !InvokesOnSubscribe(t.calls))
            && (resolved.Success? ==>
                  var event := SubscribeEvent(req.channel, resolved.value.1.path, req.leadershipId);
                  var answer := c.onSubscribe(resolved.value.0, user, event);
                  && t.calls[|t.calls| - 1] == OnSubscribeCall(resolved.value.0, user, event)
                  && (answer.Success? ==>
                        t.result == Success(PluginSubscribeStreamResponse(answer.value.status, answer.value.reply)))
                  && (answer.Failure? ==> t.result == Failure(answer.error)))
  {
  }

  /** OnSubscribe is reached exactly when every step before it succeeds:
      the request decodes, the fence passes, the identity resolves and the
      channel handler resolves. */
  lemma SubscribeReachedIff(c: Caller, data: Wire)
    ensures InvokesOnSubscribe(HandlePluginSubscribeStream(c, data).calls) <==>
              && DecodeSubscribeRequest(data).Success?
              && LeadershipCurrent(c, DecodeSubscribeRequest(data).value)
              && ResolveUser(c, DecodeSubscribeRequest(data).value).result.Success?
              && c.getChannelHandler(ResolveUser(c, DecodeSubscribeRequest(data).value).result.value,
                                     DecodeSubscribeRequest(data).value.channel).Success?
  {
    var t := HandlePluginSubscribeStream(c, data);
    if DecodeSubscribeRequest(data).Success? && LeadershipCurrent(c, DecodeSubscribeRequest(data).value) {
      var req := DecodeSubscribeRequest(data).value;
      var identity := ResolveUser(c, req);
      var prefix := [GetLeaderCall(LeaderKey(c, req))] + identity.calls;
      assert forall i :: 0 <= i < |prefix| ==> !prefix[i].OnSubscribeCall?;
      if identity.result.Success? {
        var user := identity.result.value;
        var withGetter := prefix + [GetChannelHandlerCall(user, req.channel)];
        assert forall i :: 0 <= i < |withGetter| ==> !withGetter[i].OnSubscribeCall?;
        if c.getChannelHandler(user, req.channel).Success? {
          assert t.calls[|t.calls| - 1].OnSubscribeCall?;
        } else {
          assert t.calls == withGetter;
        }
      } else {
        assert t.calls == prefix;
      }
    }
  }
}
