# Live survey coordination, modelled in Dafny

This project models the cluster survey layer of Grafana Live
(`pkg/services/live/survey/survey.go`). A survey is a scatter-gather RPC:
one node sends a typed request to one node or to all of them and collects
one reply per node. The layer uses it in two ways:

- **managed streams**: a broadcast asks every node which channels it
  tracks, and the caller merges the per-node lists into one list sorted
  by channel name;
- **plugin subscribe stream**: a targeted call asks the node that leads a
  channel to run the channel handler's `OnSubscribe`. The leader re-checks
  its leadership against the leader store first, using the request's
  fencing token (the leadership id).

Modules:

- `Protocol` (`protocol.dfy`) holds the request and response records, the
  survey envelope (`SurveyRequest`, `SurveyEvent`, `SurveyReply` with a
  32-bit status code), the errors and the JSON encoding. A payload is
  `Json(record)` or `Invalid(bytes)`. Decoding `Invalid` fails. The four
  records have disjoint JSON keys and Go's decoder ignores unknown keys,
  so the encoding of one record decodes into another record type as that
  type's zero value.
- `Order` (`order.dfy`) holds Go's `<` on strings and `strings.HasPrefix`.
- `Collaborators` (`collaborators.dfy`) holds the `Caller`. As in Go, it is
  this node's id plus its collaborators: the leader store, the user lookup,
  the channel-handler getter and its `OnSubscribe`, the managed-stream
  tracker, the org-scoping of channel keys and the survey transport. Each
  collaborator is a function giving its answer. `Call` records one
  invocation of a collaborator.
- `Handlers` (`handlers.dfy`) is the receiving side. `HandleSurvey`,
  `HandleManagedStreams` and `HandlePluginSubscribeStream` are pure
  functions. Each returns its result with the sequence of collaborator
  calls it made, so the model can state which collaborators were never
  reached.
- `Callers` (`callers.dfy`) is the sending side. `CallPluginSubscribeStream`
  and `CallManagedStreams` are methods with the source's loops. The merge
  loop updates a map, and the final sort runs in place on an array. Each
  method is proved against a specification function of the replies
  (`SelectLeaderReply`, `CollectChannels`, `Merged`).
- `Cluster` (`cluster.dfy`) puts both sides together: what a caller
  receives when the surveyed nodes answer with `HandleSurvey`.

Go's map iteration order is arbitrary, so the per-node replies are a
sequence in iteration order and every lemma holds for every order. Go
compares strings byte by byte in UTF-8. UTF-8 preserves code-point order,
so comparing `char`s lexicographically gives the same order.

## Model

| member | source | states |
|---|---|---|
| `Protocol.RoundTrip` | pkg/services/live/survey/survey.go:111-122 | each of the four survey records (these and the managed-channels pair at lines 60-66) decodes to itself after encoding; the empty payload of a failed reply does not decode |
| `Handlers.HandleSurvey` | pkg/services/live/survey/survey.go:68-94 | the callback gets exactly one reply, and that reply has code 0 or is code 1 with no payload |
| `Handlers.UnknownOperationRejected` | pkg/services/live/survey/survey.go:73-84 | an operation outside the two known names is answered with code 1 and no payload, and no collaborator is called |
| `Handlers.ReplyReflectsHandler` | pkg/services/live/survey/survey.go:81-93 | a handler error or a marshal error gives code 1 with no payload, whatever the error was; success gives code 0 with the marshalled response; the handler's collaborator calls are the dispatcher's calls |
| `Handlers.HandleManagedStreams` | pkg/services/live/survey/survey.go:96-109 | the managed-channels handler consults no collaborator but the tracker, and that at most once |
| `Handlers.ManagedStreamsAnswerLocalList` | pkg/services/live/survey/survey.go:96-109 | a payload that does not decode fails with the decode error and the tracker is not called; otherwise the answer is the tracker's list for the request's org, unchanged and in the same order, and the tracker's error is returned unchanged |
| `Handlers.HandlePluginSubscribeStream` | pkg/services/live/survey/survey.go:124-184 | safety: when OnSubscribe is called, the request decoded, this node is the addressed leader, and the leader store reports a leader whose leadership id is the request's |
| `Handlers.MalformedRequestRejected` | pkg/services/live/survey/survey.go:125-129 | a payload that does not decode fails with the decode error before any collaborator is called; in particular the leader store is not queried |
| `Handlers.NonLeaderIsNoOp` | pkg/services/live/survey/survey.go:131-135 | a request addressed to another node gets the empty response with no error, and no collaborator is called; in particular the leader store is not queried |
| `Handlers.StaleLeadershipRejected` | pkg/services/live/survey/survey.go:137-147 | if the leader store errs, the result is "error checking leader"; if it reports no leader or another leadership id, the result is "leader changed"; either way the only call made is the leader query on the org-scoped channel key |
| `Handlers.IdentityResolution` | pkg/services/live/survey/survey.go:149-162 | once the fence has passed: a positive user id is looked up with (user id, org id), and a failed lookup ends the call with "error getting signed in user" before the channel getter, and a found user is the one the channel getter is asked for; otherwise no lookup is made, and the channel getter is asked for a user that carries only the request's org |
| `Handlers.SubscribeForwarded` | pkg/services/live/survey/survey.go:164-183 | a channel-getter error is returned unchanged and OnSubscribe is not called; otherwise the last call is OnSubscribe with the request's channel, the parsed path and the request's leadership id, and its reply and status or its error come back unchanged |
| `Handlers.SubscribeReachedIff` | pkg/services/live/survey/survey.go:131-178 | OnSubscribe is called if and only if the request decodes, the fence passes, the identity resolves and the channel handler resolves |
| `Callers.CallPluginSubscribeStream` | pkg/services/live/survey/survey.go:186-219 | the survey sent is `SubscribeSurvey`, which is addressed to the leader node and carries the user's org and id; a transport error is wrapped as a survey error; otherwise the result is the reply `SelectLeaderReply` selects (see the three lemmas below) |
| `Callers.LeaderReplySelected` | pkg/services/live/survey/survey.go:204-216 | if the first reply from the leader comes after only successful replies from other nodes, the result is that reply's decoded reply and status, or its decode error |
| `Callers.FailingReplyAborts` | pkg/services/live/survey/survey.go:204-207 | a non-zero code met before the leader's reply, from any node, fails the call with "unexpected survey code" and that code |
| `Callers.LeaderNotRespondedIff` | pkg/services/live/survey/survey.go:204-218 | the result is "leader node not responded" if and only if every reply has code 0 and none comes from the leader node |
| `Callers.CallManagedStreams` | pkg/services/live/survey/survey.go:221-270 | a transport error is returned unchanged; a reply with a non-zero code or an undecodable payload fails the call with no channels; otherwise the result lists every entry of the merged map once, strictly sorted by channel name |
| `Callers.MergeReplies` | pkg/services/live/survey/survey.go:237-258 | the loop over the replies fails with the first failing reply's error, or returns the merge of all their channel lists, in iteration order |
| `Callers.MergeList` | pkg/services/live/survey/survey.go:246-257 | merging one node's list into the map gives the merge of everything seen so far followed by that list |
| `Callers.ListChannels` | pkg/services/live/survey/survey.go:260-263 | the list copied out of the map holds each entry under its own name, once per name, and covers every key |
| `Callers.CollectSucceedsIff` | pkg/services/live/survey/survey.go:237-245 | the channel lists are collected if and only if every reply has code 0 and decodes, so one failing node fails the whole broadcast |
| `Callers.CollectedFromEveryReply` | pkg/services/live/survey/survey.go:237-246 | a successful collection contains every channel of every reply |
| `Callers.MergedKeys` | pkg/services/live/survey/survey.go:246-257 | the merged map's keys are exactly the channel names that occur in the replies |
| `Callers.MergedEntriesNamed` | pkg/services/live/survey/survey.go:253-256 | every merged entry is filed under its own channel name |
| `Callers.MergedSumsRates` | pkg/services/live/survey/survey.go:247-254 | for a name without the `plugin/testdata/` prefix, the merged rate is the sum of the rates of all its occurrences |
| `Callers.MergedKeepsFirstTestdata` | pkg/services/live/survey/survey.go:247-252 | for a name with the `plugin/testdata/` prefix, the merged entry is its first occurrence; later occurrences are dropped, not summed |
| `Callers.SortByChannel` | pkg/services/live/survey/survey.go:265-267 | the in-place sort leaves the entries (distinct names) strictly ascending by name and is a permutation of its input |
| `Callers.SortedListingUnique` | pkg/services/live/survey/survey.go:260-267 | two sorted listings of the same map are equal, so the result does not depend on the order in which the reply map or the channel map is iterated |
| `Order.LessTransitive` | pkg/services/live/survey/survey.go:266 | Go's string order is transitive |
| `Order.LessTotal` | pkg/services/live/survey/survey.go:266 | any two distinct strings are ordered one way or the other |
| `Cluster.SubscribeRoundTrip` | pkg/services/live/survey/survey.go:199-216 | with an encoder that succeeds on these records, the leader decodes exactly the request the caller built; the caller gets back the leader handler's reply and status unchanged, or "unexpected survey code" 1 when the handler failed |
| `Cluster.BroadcastCollectsLocalLists` | pkg/services/live/survey/survey.go:230-245 | with an encoder that succeeds on these records, when every node answers through the dispatcher, the caller collects the concatenation of the nodes' own tracker lists, or fails with code 1 if one tracker failed |
| `Cluster.AggregationExample` | pkg/services/live/survey/survey.go:246-267 | an example: nodes reporting x/a at 1; x/a at 2 and x/b at 5; and the testdata channel at 100 from two nodes are collected, and a result is a sorted listing of their merge if and only if it is exactly [testdata 100, x/a 3, x/b 5] |

## Left out

- JSON encoding and decoding is a foreign library. Payloads are records or invalid bytes. Marshalling the responses in `handleSurvey` is a parameter that may fail.
- Marshalling the request records in the two callers (lines 194-197 and 223-226) is not modelled as failing. Those records hold only integers and strings, and Go's encoder cannot fail on them.
- The centrifuge node is not part of this model: `OnSurvey`, `SetupHandlers`, `NewCaller`, `node.ID()` and how `Survey` delivers messages. The node id is a field of `Caller`. The transport is a function from the survey request to the reply sequence or an error.
- Contexts, the 250 ms and 1 s timeouts, and cancellation are left out. A timed-out leader query or survey shows up only as that collaborator returning an error.
- Logging is left out.
- `orgchannel.PrependOrgID` is not part of this model. It is the `prependOrgId` function of `Caller`, and the properties hold for any such function.
- `managedstream.ManagedChannel` is not part of this model beyond its name and rate. `MinuteRate` is an unbounded integer, so overflow and floating-point behaviour are not modelled.
- `models.SubscribeReply` and `models.SignedInUser` are opaque beyond the fields this file reads.
- Go stores pointers to the decoded channels in the merge map and adds rates through them, which changes the decoded records too. The model updates a map value instead.
- `sort.Slice` is modelled by a selection sort with the same contract. The names are distinct, so `Callers.SortedListingUnique` shows the sorted result is the same whatever algorithm produces it.
- The reply map's keys are unique in Go. The model does not rely on that, so its properties also hold for a reply sequence that repeats a node id.
- Idempotence of a repeated subscribe is not a property of this layer. Given the same collaborator answers, the handler gives the same outcome, and each call records its own `OnSubscribe`. De-duplication is left to callers.
