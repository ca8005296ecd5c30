/// Both sides of a survey together: what a caller receives when the nodes it
/// surveys answer with the dispatcher of this layer.
module Cluster {
  import opened Protocol
  import opened Collaborators
  import opened Handlers
  import opened Callers
  import opened Order

  /** A JSON encoder that succeeds on every record of the protocol. The
      end-to-end lemmas below assume it; a node whose encoder failed on its
      response would answer with the bare code 1 instead (see
      `Handlers.ReplyReflectsHandler`). */
  function CanonicalMarshal(m: Message): Result<Wire>
  {
    Success(Encode(m))
  }

  /** The reply a node sends back for a survey request. */
  function Answer(node: Caller, req: SurveyRequest): SurveyReply
  {
    HandleSurvey(node, CanonicalMarshal, SurveyEvent(req.op, req.data)).replies[0]
  }

  /** The targeted call end to end: the leader decodes exactly the request the
      caller built, and the caller receives the leader's subscribe answer
      unchanged, or the bare code 1 when the leader's handler failed. */
  lemma SubscribeRoundTrip(leader: Caller, user: SignedInUser, channel: string, leadershipId: string)
    ensures var req := SubscribeSurvey(user, channel, leader.nodeId, leadershipId);
            var handled := HandlePluginSubscribeStream(leader, req.data);
            && req.toNode == leader.nodeId
            && DecodeSubscribeRequest(req.data) ==
                 Success(PluginSubscribeStreamRequest(user.orgId, user.userId, channel, leader.nodeId, leadershipId))
            && SelectLeaderReply([(leader.nodeId, Answer(leader, req))], leader.nodeId) ==
                 if handled.result.Success? then Success(Subscribed(handled.result.value.reply, handled.result.value.status))
                 else Failure(UnexpectedSurveyCode(CodeFailed))
  {
  }

  /** The replies of a broadcast that reaches `nodes`, in that order. */
  function NodeReplies(nodes: seq<Caller>, orgId: int): (r: Replies)
    ensures |r| == |nodes|
  {
    if nodes == [] then []
    else [(nodes[0].nodeId, Answer(nodes[0], ManagedStreamsSurvey(orgId)))] + NodeReplies(nodes[1..], orgId)
  }

  /** The nodes' own managed-channel lists, concatenated, or a failure when
      one node's tracker failed. */
  function LocalChannels(nodes: seq<Caller>, orgId: int): Result<seq<ManagedChannel>>
  {
    if nodes == [] then Success([])
    else
      match nodes[0].getManagedChannels(orgId)
      case Failure(_) => Failure(UnexpectedSurveyCode(CodeFailed))
      case Success(chs) => Prepend(chs, LocalChannels(nodes[1..], orgId))
  }

  /** The broadcast end to end: the caller collects exactly the nodes' own
      lists, and fails with code 1 as soon as one node's tracker failed. */
  lemma {:induction false} BroadcastCollectsLocalLists(nodes: seq<Caller>, orgId: int)
    ensures CollectChannels(NodeReplies(nodes, orgId)) == LocalChannels(nodes, orgId)
  {
    if nodes != [] {
      var replies := NodeReplies(nodes, orgId);
      assert replies[1..] == NodeReplies(nodes[1..], orgId);
      BroadcastCollectsLocalLists(nodes[1..], orgId);
    }
  }

  /** Node A reports x/a at rate 1; node B x/a at 2 and x/b at 5; nodes C
      and D each report the testdata channel at 100. */
  function ExampleReplies(): Replies
  {
    [("A", ChannelsReply([ManagedChannel("x/a", 1)])),
     ("B", ChannelsReply([ManagedChannel("x/a", 2), ManagedChannel("x/b", 5)])),
     ("C", ChannelsReply([ManagedChannel("plugin/testdata/foo", 100)])),
     ("D", ChannelsReply([ManagedChannel("plugin/testdata/foo", 100)]))]
  }

  function ChannelsReply(chs: seq<ManagedChannel>): SurveyReply
  {
    SurveyReply(CodeOk, Encode(ManagedChannelsResp(NodeManagedChannelsResponse(chs))))
  }

  /** The reported channels, in reply order. */
  function ExampleChannels(): seq<ManagedChannel>
  {
    [ManagedChannel("x/a", 1), ManagedChannel("x/a", 2), ManagedChannel("x/b", 5),
     ManagedChannel("plugin/testdata/foo", 100), ManagedChannel("plugin/testdata/foo", 100)]
  }

  function ExampleListing(): seq<ManagedChannel>
  {
    [ManagedChannel("plugin/testdata/foo", 100), ManagedChannel("x/a", 3), ManagedChannel("x/b", 5)]
  }

  lemma ExampleCollected()
    ensures CollectChannels(ExampleReplies()) == Success(ExampleChannels())
  {
    var a, b, foo := ManagedChannel("x/a", 1), [ManagedChannel("x/a", 2), ManagedChannel("x/b", 5)],
                     ManagedChannel("plugin/testdata/foo", 100);
    var fromD := [("D", ChannelsReply([foo]))];
    var fromC := [("C", ChannelsReply([foo]))] + fromD;
    var fromB := [("B", ChannelsReply(b))] + fromC;
    var fromA := [("A", ChannelsReply([a]))] + fromB;
    assert fromD[1..] == [];
    assert [foo] + [] == [foo];
    assert CollectChannels(fromD) == Success([foo]);
    assert fromC[1..] == fromD;
    assert CollectChannels(fromC) == Prepend([foo], CollectChannels(fromD));
    assert [foo] + [foo] == [foo, foo];
    assert CollectChannels(fromC) == Success([foo, foo]);
    assert fromB[1..] == fromC;
    assert CollectChannels(fromB) == Prepend(b, CollectChannels(fromC));
    assert b + [foo, foo] == [b[0], b[1], foo, foo];
    assert CollectChannels(fromB) == Success([b[0], b[1], foo, foo]);
    assert fromA[1..] == fromB;
    assert CollectChannels(fromA) == Prepend([a], CollectChannels(fromB));
    assert [a] + [b[0], b[1], foo, foo] == ExampleChannels();
    assert fromA == ExampleReplies();
  }

  /** The aggregate of the example: x/a summed to 3, the testdata channel
      kept at 100. */
  function ExampleAggregate(): map<string, ManagedChannel>
  {
    map["x/a" := ManagedChannel("x/a", 3), "x/b" := ManagedChannel("x/b", 5),
        "plugin/testdata/foo" := ManagedChannel("plugin/testdata/foo", 100)]
  }

  lemma ExampleMerged()
    ensures Merged(ExampleChannels()) == ExampleAggregate()
  {
    var chs := ExampleChannels();
    var foo := "plugin/testdata/foo";
    assert HasPrefix(foo, TestdataPrefix);
    assert chs[..1] == [chs[0]] && chs[..1][..0] == [];
    assert Merged(chs[..1]) == map["x/a" := chs[0]];
    assert chs[..2][..1] == chs[..1];
    assert Merged(chs[..2]) == map["x/a" := ManagedChannel("x/a", 3)];
    assert chs[..3][..2] == chs[..2];
    assert Merged(chs[..3]) == map["x/a" := ManagedChannel("x/a", 3), "x/b" := ManagedChannel("x/b", 5)];
    assert chs[..4][..3] == chs[..3];
    assert Merged(chs[..4]) == ExampleAggregate();
    assert chs[..4] == chs[..|chs| - 1];
  }

  lemma ExampleOrder()
    ensures Less("plugin/testdata/foo", "x/a") && Less("x/a", "x/b")
  {
    assert "x/a"[1..] == "/a" && "x/b"[1..] == "/b";
    assert "/a"[1..] == "a" && "/b"[1..] == "b";
  }

  lemma ExampleListed()
    ensures SortedListing(ExampleListing(), ExampleAggregate())
  {
    var foo := "plugin/testdata/foo";
    var m, listing := ExampleAggregate(), ExampleListing();
    ExampleOrder();
    LessTransitive(foo, "x/a", "x/b");
    assert StrictlySorted(listing);
    assert Listed(listing[0], m) && Listed(listing[1], m) && Listed(listing[2], m);
    assert m.Keys == {foo, "x/a", "x/b"};
    assert listing[0].channel == foo && listing[1].channel == "x/a" && listing[2].channel == "x/b";
  }

  /** The broadcast collects `ExampleReplies`, and the one result it can
      return lists the testdata channel at 100 (not 200), x/a at 3 and x/b
      at 5. */
  lemma AggregationExample(result: seq<ManagedChannel>)
    ensures CollectChannels(ExampleReplies()).Success?
    ensures SortedListing(result, Merged(CollectChannels(ExampleReplies()).value)) <==>
              result == ExampleListing()
  {
    ExampleCollected();
    ExampleMerged();
    ExampleListed();
    if SortedListing(result, ExampleAggregate()) {
      SortedListingUnique(result, ExampleListing(), ExampleAggregate());
    }
  }
}
