/// The sending side of the survey layer: the targeted call to a channel's
/// leader node and the broadcast that aggregates every node's managed
/// channels. Each method is proved against a specification function of the
/// replies, and the lemmas below state what those functions promise.
module Callers {
  import opened Protocol
  import opened Order
  import opened Collaborators

  // ---------------------------------------------------------------------
  // Targeted call to the leader node

  /** The survey the targeted call sends: a subscribe request built from the
      user, addressed to the supposed leader only. */
  function SubscribeSurvey(user: SignedInUser, channel: string, leaderNodeId: NodeId, leadershipId: string): SurveyRequest
  {
    var req := PluginSubscribeStreamRequest(user.orgId, user.userId, channel, leaderNodeId, leadershipId);
    SurveyRequest(PluginSubscribeStreamCall, Encode(SubscribeReq(req)), leaderNodeId)
  }

  /** The leader's answer among the replies, scanned in iteration order: a
      non-zero code ends the scan with an error, replies from other nodes are
      skipped, and the first reply from the leader is decoded. */
  function SelectLeaderReply(replies: Replies, leader: NodeId): Result<Subscribed>
  {
    if replies == [] then Failure(LeaderNodeNotResponded)
    else
      var (nodeId, reply) := replies[0];
      if reply.code != CodeOk then Failure(UnexpectedSurveyCode(reply.code))
      else if nodeId != leader then SelectLeaderReply(replies[1..], leader)
      else
        match DecodeSubscribeResponse(reply.data)
        case Failure(e) => Failure(e)
        case Success(res) => Success(Subscribed(res.reply, res.status))
  }

  /** Runs a subscribe on the leader node and returns its reply and status.
      A transport error is wrapped; otherwise the result is the leader's
      answer as `SelectLeaderReply` selects it. */
  method CallPluginSubscribeStream(c: Caller, user: SignedInUser, channel: string, leaderNodeId: NodeId, leadershipId: string)
    returns (r: Result<Subscribed>)
    ensures var resp := c.survey(SubscribeSurvey(user, channel, leaderNodeId, leadershipId));
            && (resp.Failure? ==> r == Failure(SurveyError(resp.error)))
            && (resp.Success? ==> r == SelectLeaderReply(resp.value, leaderNodeId))
  {
    var resp := c.survey(SubscribeSurvey(user, channel, leaderNodeId, leadershipId));
    if resp.Failure? {
      return Failure(SurveyError(resp.error));
    }
    var replies := resp.value;
    var i := 0;
    while i < |replies|
      invariant 0 <= i <= |replies|
      invariant SelectLeaderReply(replies[i..], leaderNodeId) == SelectLeaderReply(replies, leaderNodeId)
    {
      assert replies[i..][1..] == replies[i + 1..];
      var (nodeId, result) := replies[i];
      if result.code != CodeOk {
        return Failure(UnexpectedSurveyCode(result.code));
      }
      if nodeId != leaderNodeId {
        i := i + 1;
        continue;
      }
      var res := DecodeSubscribeResponse(result.data);
      if res.Failure? {
        return Failure(res.error);
      }
      return Success(Subscribed(res.value.reply, res.value.status));
    }
    return Failure(LeaderNodeNotResponded);
  }

  /** The first reply from the leader, preceded only by successful replies
      from other nodes, is the answer: its decoded reply and status. */
  lemma {:induction false} LeaderReplySelected(replies: Replies, leader: NodeId, i: nat)
    requires i < |replies| && replies[i].0 == leader && replies[i].1.code == CodeOk
    requires forall j :: 0 <= j < i ==> replies[j].0 != leader && replies[j].1.code == CodeOk
    ensures var decoded := DecodeSubscribeResponse(replies[i].1.data);
            && (decoded.Success? ==>
                  SelectLeaderReply(replies, leader) == Success(Subscribed(decoded.value.reply, decoded.value.status)))
            && (decoded.Failure? ==> SelectLeaderReply(replies, leader) == Failure(decoded.error))
  {
    if i > 0 {
      LeaderReplySelected(replies[1..], leader, i - 1);
    }
  }

  /** A failing reply met before the leader's, from any node, fails the call
      with that code. */
  lemma {:induction false} FailingReplyAborts(replies: Replies, leader: NodeId, i: nat)
    requires i < |replies| && replies[i].1.code != CodeOk
    requires forall j :: 0 <= j < i ==> replies[j].0 != leader && replies[j].1.code == CodeOk
    ensures SelectLeaderReply(replies, leader) == Failure(UnexpectedSurveyCode(replies[i].1.code))
  {
    if i > 0 {
      FailingReplyAborts(replies[1..], leader, i - 1);
    }
  }

  /** "Leader node not responded" is the answer exactly when every reply
      succeeded and none came from the leader. */
  lemma {:induction false} LeaderNotRespondedIff(replies: Replies, leader: NodeId)
    ensures SelectLeaderReply(replies, leader) == Failure(LeaderNodeNotResponded) <==>
              forall j :: 0 <= j < |replies| ==> replies[j].0 != leader && replies[j].1.code == CodeOk
  {
    if replies != [] {
      LeaderNotRespondedIff(replies[1..], leader);
      assert forall j :: 1 <= j < |replies| ==> replies[j] == replies[1..][j - 1];
    }
  }

  // ---------------------------------------------------------------------
  // Broadcast aggregation of managed channels

  /** The survey the broadcast sends: a managed-channels request for the org,
      addressed to every node. */
  function ManagedStreamsSurvey(orgId: int): SurveyRequest
  {
    SurveyRequest(ManagedStreamsCall, Encode(ManagedChannelsReq(NodeManagedChannelsRequest(orgId))), "")
  }

  /** All channel lists of the replies, concatenated in iteration order, or
      the error of the first reply that failed or did not decode. */
  function CollectChannels(replies: Replies): Result<seq<ManagedChannel>>
  {
    if replies == [] then Success([])
    else if replies[0].1.code != CodeOk then Failure(UnexpectedSurveyCode(replies[0].1.code))
    else
      match DecodeManagedResponse(replies[0].1.data)
      case Failure(e) => Failure(e)
      case Success(res) => Prepend(res.channels, CollectChannels(replies[1..]))
  }

  function Prepend(front: seq<ManagedChannel>, rest: Result<seq<ManagedChannel>>): Result<seq<ManagedChannel>>
  {
    match rest
    case Failure(e) => Failure(e)
    case Success(chs) => Success(front + chs)
  }

  /** The replies are collected exactly when every reply has code 0 and a
      payload that decodes: a single failing node fails the whole broadcast. */
  lemma {:induction false} CollectSucceedsIff(replies: Replies)
    ensures CollectChannels(replies).Success? <==>
              forall i :: 0 <= i < |replies| ==>
                replies[i].1.code == CodeOk && DecodeManagedResponse(replies[i].1.data).Success?
  {
    if replies != [] {
      CollectSucceedsIff(replies[1..]);
      assert forall i :: 1 <= i < |replies| ==> replies[i] == replies[1..][i - 1];
    }
  }

  /** A successful collection contains every channel of every reply. */
  lemma {:induction false} CollectedFromEveryReply(replies: Replies, i: nat)
    requires CollectChannels(replies).Success? && i < |replies|
    ensures DecodeManagedResponse(replies[i].1.data).Success?
    ensures forall ch :: ch in DecodeManagedResponse(replies[i].1.data).value.channels ==>
              ch in CollectChannels(replies).value
  {
    if i > 0 {
      CollectedFromEveryReply(replies[1..], i - 1);
    }
  }

  /** The prefix under which duplicate channels keep their first rate. */
  const TestdataPrefix: string := "plugin/testdata/"

  /** Folds one channel into the aggregate: a new name is inserted as it is,
      a repeated name adds its rate, unless it is a testdata channel. */
  function MergeChannel(m: map<string, ManagedChannel>, ch: ManagedChannel): map<string, ManagedChannel>
  {
    if ch.channel in m then
      if HasPrefix(ch.channel, TestdataPrefix) then m
      else m[ch.channel := m[ch.channel].(minuteRate := m[ch.channel].minuteRate + ch.minuteRate)]
    else m[ch.channel := ch]
  }

  /** The aggregate of a sequence of channels, folded from the first. */
  function Merged(chs: seq<ManagedChannel>): map<string, ManagedChannel>
  {
    if chs == [] then map[] else MergeChannel(Merged(chs[..|chs| - 1]), chs[|chs| - 1])
  }

  /** The names occurring in a sequence of channels. */
  function Names(chs: seq<ManagedChannel>): set<string>
  {
    set i | 0 <= i < |chs| :: chs[i].channel
  }

  /** The total rate reported for a name, over all its occurrences. */
  function RateSum(chs: seq<ManagedChannel>, name: string): int
  {
    if chs == [] then 0
    else (if chs[0].channel == name then chs[0].minuteRate else 0) + RateSum(chs[1..], name)
  }

  /** `m` maps `ch`'s name to `ch`. */
  predicate Listed(ch: ManagedChannel, m: map<string, ManagedChannel>)
  {
    ch.channel in m && m[ch.channel] == ch
  }

  predicate StrictlySorted(s: seq<ManagedChannel>)
  {
    forall i, j :: 0 <= i < j < |s| ==> Less(s[i].channel, s[j].channel)
  }

  /** `s` lists the entries of `m`, each once, sorted by channel name. */
  predicate SortedListing(s: seq<ManagedChannel>, m: map<string, ManagedChannel>)
  {
    && StrictlySorted(s)
    && (forall i :: 0 <= i < |s| ==> Listed(s[i], m))
    && (forall name :: name in m ==> exists i :: 0 <= i < |s| && s[i].channel == name)
  }

  /** Every name that occurs is a key of the aggregate, and nothing else is. */
  lemma {:induction false} MergedKeys(chs: seq<ManagedChannel>)
    ensures Merged(chs).Keys == Names(chs)
  {
    if chs != [] {
      var init := chs[..|chs| - 1];
      MergedKeys(init);
      assert Names(chs) == Names(init) + {chs[|chs| - 1].channel} by {
        assert forall i :: 0 <= i < |init| ==> chs[i] == init[i];
      }
    }
  }

  /** Every entry of the aggregate is filed under its own channel name. */
  lemma {:induction false} MergedEntriesNamed(chs: seq<ManagedChannel>)
    ensures forall name :: name in Merged(chs) ==> Merged(chs)[name].channel == name
  {
    if chs != [] {
      MergedEntriesNamed(chs[..|chs| - 1]);
    }
  }

  lemma {:induction false} RateSumAppend(chs: seq<ManagedChannel>, ch: ManagedChannel, name: string)
    ensures RateSum(chs + [ch], name) == RateSum(chs, name) + (if ch.channel == name then ch.minuteRate else 0)
  {
    if chs != [] {
      assert (chs + [ch])[1..] == chs[1..] + [ch];
      RateSumAppend(chs[1..], ch, name);
    }
  }

  /** A name outside the testdata prefix aggregates to the sum of all the
      rates reported for it. */
  lemma {:induction false} MergedSumsRates(chs: seq<ManagedChannel>, name: string)
    requires name in Names(chs) && !HasPrefix(name, TestdataPrefix)
    ensures name in Merged(chs)
    ensures Merged(chs)[name] == ManagedChannel(name, RateSum(chs, name))
  {
    var init, last := chs[..|chs| - 1], chs[|chs| - 1];
    assert chs == init + [last];
    RateSumAppend(init, last, name);
    MergedKeys(chs);
    MergedKeys(init);
    if name in Names(init) {
      MergedSumsRates(init, name);
    } else {
      assert RateSum(init, name) == 0 by { RateSumAbsent(init, name); }
    }
  }

  lemma {:induction false} RateSumAbsent(chs: seq<ManagedChannel>, name: string)
    requires name !in Names(chs)
    ensures RateSum(chs, name) == 0
  {
    if chs != [] {
      assert Names(chs[1..]) <= Names(chs) by {
        assert forall i :: 0 <= i < |chs| - 1 ==> chs[1..][i] == chs[i + 1];
      }
      RateSumAbsent(chs[1..], name);
    }
  }

  /** A testdata name keeps the record of its first occurrence: later
      occurrences are dropped, not summed. */
  lemma {:induction false} MergedKeepsFirstTestdata(chs: seq<ManagedChannel>, i: nat)
    requires i < |chs| && HasPrefix(chs[i].channel, TestdataPrefix)
    requires forall j :: 0 <= j < i ==> chs[j].channel != chs[i].channel
    ensures chs[i].channel in Merged(chs) && Merged(chs)[chs[i].channel] == chs[i]
  {
    var init := chs[..|chs| - 1];
    if i < |chs| - 1 {
      MergedKeepsFirstTestdata(init, i);
    } else {
      MergedKeys(init);
      assert chs[i].channel !in Names(init);
    }
  }

  /** Dropping the first entry of a listing lists the rest of the map. */
  lemma SortedListingTail(s: seq<ManagedChannel>, m: map<string, ManagedChannel>)
    requires SortedListing(s, m) && s != []
    ensures SortedListing(s[1..], m - {s[0].channel})
  {
    var m' := m - {s[0].channel};
    forall i | 0 <= i < |s| - 1 ensures Listed(s[1..][i], m') {
      assert Less(s[0].channel, s[i + 1].channel);
      LessIrreflexive(s[0].channel);
    }
    forall name | name in m' ensures exists i :: 0 <= i < |s[1..]| && s[1..][i].channel == name {
      var i :| 0 <= i < |s| && s[i].channel == name;
      assert s[1..][i - 1].channel == name;
    }
  }

  /** Two listings of the same map start with the same entry: the one with
      the least name. */
  lemma SortedListingHead(s: seq<ManagedChannel>, t: seq<ManagedChannel>, m: map<string, ManagedChannel>)
    requires SortedListing(s, m) && SortedListing(t, m) && s != []
    ensures t != [] && t[0] == s[0]
  {
    var a := s[0].channel;
    assert Listed(s[0], m);
    var k :| 0 <= k < |t| && t[k].channel == a;
    var b := t[0].channel;
    assert Listed(t[0], m);
    if a != b {
      var j :| 0 <= j < |s| && s[j].channel == b;
      assert Less(a, s[j].channel);
      assert Less(b, t[k].channel);
      LessAsymmetric(a, b);
    }
  }

  lemma SameHeadAndTail(s: seq<ManagedChannel>, t: seq<ManagedChannel>)
    requires s != [] && t != [] && s[0] == t[0] && s[1..] == t[1..]
    ensures s == t
  {
    assert s == [s[0]] + s[1..] && t == [t[0]] + t[1..];
  }

  /** Listings are unique: whatever order the replies and the aggregate map
      were iterated in, there is one sorted listing of the aggregate. */
  lemma {:induction false} SortedListingUnique(s: seq<ManagedChannel>, t: seq<ManagedChannel>, m: map<string, ManagedChannel>)
    requires SortedListing(s, m) && SortedListing(t, m)
    ensures s == t
  {
    if s == [] {
      if t != [] {
        SortedListingHead(t, s, m);
      }
    } else {
      SortedListingHead(s, t, m);
      SortedListingTail(s, m);
      SortedListingTail(t, m);
      SortedListingUnique(s[1..], t[1..], m - {s[0].channel});
      SameHeadAndTail(s, t);
    }
  }

  /** Sorting a complete, duplicate-free list of the map's entries gives
      its sorted listing. */
  lemma SortedPermutationIsListing(unsorted: seq<ManagedChannel>, sorted: seq<ManagedChannel>, m: map<string, ManagedChannel>)
    requires forall p :: 0 <= p < |unsorted| ==> Listed(unsorted[p], m)
    requires forall name :: name in m ==> exists p :: 0 <= p < |unsorted| && unsorted[p].channel == name
    requires multiset(sorted) == multiset(unsorted) && StrictlySorted(sorted)
    ensures SortedListing(sorted, m)
  {
    forall p | 0 <= p < |sorted| ensures Listed(sorted[p], m) {
      assert sorted[p] in multiset(unsorted);
    }
    forall name | name in m ensures exists p :: 0 <= p < |sorted| && sorted[p].channel == name {
      var q :| 0 <= q < |unsorted| && unsorted[q].channel == name;
      assert unsorted[q] in multiset(sorted);
      var p :| 0 <= p < |sorted| && sorted[p] == unsorted[q];
    }
  }

  /** Asks every node for the org's managed channels and merges the answers.
      A transport error is returned unchanged; a reply with a non-zero code or
      a payload that does not decode fails the whole call; otherwise the
      result lists the aggregate of all the channels, sorted by name. */
  method CallManagedStreams(c: Caller, orgId: int) returns (r: Result<seq<ManagedChannel>>)
    ensures var resp := c.survey(ManagedStreamsSurvey(orgId));
            && (resp.Failure? ==> r == Failure(resp.error))
            && (resp.Success? && CollectChannels(resp.value).Failure? ==> r == CollectChannels(resp.value))
            && (resp.Success? && CollectChannels(resp.value).Success? ==>
                  r.Success? && SortedListing(r.value, Merged(CollectChannels(resp.value).value)))
  {
    var resp := c.survey(ManagedStreamsSurvey(orgId));
    if resp.Failure? {
      return Failure(resp.error);
    }
    var merged := MergeReplies(resp.value);
    if merged.Failure? {
      return Failure(merged.error);
    }
    var channels := merged.value;
    MergedEntriesNamed(CollectChannels(resp.value).value);
    var unsorted := ListChannels(channels);
    var result := new ManagedChannel[|unsorted|](p requires 0 <= p < |unsorted| => unsorted[p]);
    assert result[..] == unsorted;
    SortByChannel(result);
    SortedPermutationIsListing(unsorted, result[..], channels);
    return Success(result[..]);
  }

  /** The loop over the replies: fails on the first reply with a non-zero
      code or an undecodable payload, otherwise merges every channel list
      into one map. */
  method MergeReplies(replies: Replies) returns (r: Result<map<string, ManagedChannel>>)
    ensures CollectChannels(replies).Failure? ==> r == Failure(CollectChannels(replies).error)
    ensures CollectChannels(replies).Success? ==> r == Success(Merged(CollectChannels(replies).value))
  {
    var channels: map<string, ManagedChannel> := map[];
    ghost var seen: seq<ManagedChannel> := [];
    var i := 0;
    assert replies[i..] == replies;
    assert Prepend(seen, CollectChannels(replies)) == CollectChannels(replies) by {
      if CollectChannels(replies).Success? {
        assert seen + CollectChannels(replies).value == CollectChannels(replies).value;
      }
    }
    while i < |replies|
      invariant 0 <= i <= |replies|
      invariant CollectChannels(replies) == Prepend(seen, CollectChannels(replies[i..]))
      invariant channels == Merged(seen)
    {
      assert replies[i..][1..] == replies[i + 1..];
      var (_, result) := replies[i];
      if result.code != CodeOk {
        return Failure(UnexpectedSurveyCode(result.code));
      }
      var res := DecodeManagedResponse(result.data);
      if res.Failure? {
        return Failure(res.error);
      }
      channels := MergeList(channels, res.value.channels, seen);
      PrependTwice(seen, res.value.channels, CollectChannels(replies[i + 1..]));
      seen := seen + res.value.channels;
      i := i + 1;
    }
    assert replies[i..] == [];
    assert seen + [] == seen;
    return Success(channels);
  }

  /** Folds one node's channel list into the aggregate. */
  method MergeList(channels: map<string, ManagedChannel>, chs: seq<ManagedChannel>, ghost seen: seq<ManagedChannel>)
    returns (merged: map<string, ManagedChannel>)
    requires channels == Merged(seen)
    ensures merged == Merged(seen + chs)
  {
    merged := channels;
    var j := 0;
    assert seen + chs[..j] == seen;
    while j < |chs|
      invariant 0 <= j <= |chs|
      invariant merged == Merged(seen + chs[..j])
    {
      assert (seen + chs[..j + 1])[..|seen| + j] == seen + chs[..j];
      var ch := chs[j];
      if ch.channel in merged {
        if HasPrefix(ch.channel, TestdataPrefix) {
          j := j + 1;
          continue;
        }
        merged := merged[ch.channel := merged[ch.channel].(minuteRate := merged[ch.channel].minuteRate + ch.minuteRate)];
        j := j + 1;
        continue;
      }
      merged := merged[ch.channel := ch];
      j := j + 1;
    }
    assert chs[..j] == chs;
  }

  /** Appends the aggregate's entries to a list, in the map's iteration
      order (any order). */
  method ListChannels(channels: map<string, ManagedChannel>) returns (result: seq<ManagedChannel>)
    requires forall name :: name in channels ==> channels[name].channel == name
    ensures forall p :: 0 <= p < |result| ==> Listed(result[p], channels)
    ensures DistinctNames(result)
    ensures forall name :: name in channels ==> exists p :: 0 <= p < |result| && result[p].channel == name
  {
    result := [];
    var keys := channels.Keys;
    ghost var position: map<string, nat> := map[];
    while keys != {}
      invariant keys <= channels.Keys
      invariant forall p :: 0 <= p < |result| ==> Listed(result[p], channels) && result[p].channel !in keys
      invariant DistinctNames(result)
      invariant forall name :: name in channels && name !in keys ==>
                  name in position && position[name] < |result| && result[position[name]].channel == name
      decreases |keys|
    {
      var k :| k in keys;
      position := position[k := |result|];
      result := result + [channels[k]];
      keys := keys - {k};
    }
    forall name | name in channels ensures exists p :: 0 <= p < |result| && result[p].channel == name {
      assert result[position[name]].channel == name;
    }
  }

  lemma PrependTwice(first: seq<ManagedChannel>, second: seq<ManagedChannel>, rest: Result<seq<ManagedChannel>>)
    ensures Prepend(first, Prepend(second, rest)) == Prepend(first + second, rest)
  {
    if rest.Success? {
      assert first + (second + rest.value) == (first + second) + rest.value;
    }
  }

  /** Sorts channels with distinct names by name, in place. */
  method SortByChannel(a: array<ManagedChannel>)
    requires DistinctNames(a[..])
    modifies a
    ensures StrictlySorted(a[..])
    ensures multiset(a[..]) == multiset(old(a[..]))
  {
    var i := 0;
    while i < a.Length
      invariant 0 <= i <= a.Length
      invariant DistinctNames(a[..])
      invariant SortedBelow(a[..], i)
      invariant multiset(a[..]) == multiset(old(a[..]))
    {
      var least := IndexOfLeast(a, i);
      ghost var before := a[..];
      Swap(a, i, least);
      SelectionStep(before, a[..], i, least);
      i := i + 1;
    }
  }

  predicate DistinctNames(s: seq<ManagedChannel>)
  {
    forall p, q :: 0 <= p < q < |s| ==> s[p].channel != s[q].channel
  }

  /** The first `i` entries are sorted and precede every later entry. */
  predicate SortedBelow(s: seq<ManagedChannel>, i: nat)
  {
    && (forall p, q :: 0 <= p < q < i <= |s| ==> Less(s[p].channel, s[q].channel))
    && (forall p, q :: 0 <= p < i <= q < |s| ==> Less(s[p].channel, s[q].channel))
  }

  /** Swapping the least remaining entry to position `i` extends the sorted
      part by one. */
  lemma SelectionStep(before: seq<ManagedChannel>, after: seq<ManagedChannel>, i: nat, least: nat)
    requires i <= least < |before| == |after|
    requires DistinctNames(before) && SortedBelow(before, i)
    requires forall q :: i <= q < |before| && q != least ==> Less(before[least].channel, before[q].channel)
    requires after == before[i := before[least]][least := before[i]]
    ensures DistinctNames(after) && SortedBelow(after, i + 1)
  {
  }

  method Swap(a: array<ManagedChannel>, i: nat, j: nat)
    requires i <= j < a.Length
    modifies a
    ensures a[..] == old(a[..])[i := old(a[j])][j := old(a[i])]
    ensures multiset(a[..]) == multiset(old(a[..]))
  {
    a[i], a[j] := a[j], a[i];
  }

  /** The position of the least name in `a[from..]`. */
  method IndexOfLeast(a: array<ManagedChannel>, from: nat) returns (least: nat)
    requires from < a.Length
    requires DistinctNames(a[..])
    ensures from <= least < a.Length
    ensures forall q :: from <= q < a.Length && q != least ==> Less(a[least].channel, a[q].channel)
  {
    least := from;
    var j := from + 1;
    while j < a.Length
      invariant from <= least < j <= a.Length
      invariant forall q :: from <= q < j && q != least ==> Less(a[least].channel, a[q].channel)
    {
      LessTotal(a[j].channel, a[least].channel);
      if Less(a[j].channel, a[least].channel) {
        forall q | from <= q < j && q != least ensures Less(a[j].channel, a[q].channel) {
          LessTransitive(a[j].channel, a[least].channel, a[q].channel);
        }
        LessIrreflexive(a[j].channel);
        least := j;
      }
      j := j + 1;
    }
  }
}
