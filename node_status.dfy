/** The node-status hook: it holds one node's status, starting at "initial",
    and on each batch of realtime messages adopts the status carried by the
    newest message addressed to that node. */
module NodeStatus {
  import Wrappers
  import Seqs

  datatype NodeStatus = Initial | Loading | Success | Error

  /** A realtime message; timestamps are whole milliseconds. */
  datatype Message = Message(kind: string, channel: string, topic: string, nodeId: string, status: NodeStatus, createdAt: int)

  /** Which messages a hook listens to. */
  datatype Subscription = Subscription(channel: string, topic: string, nodeId: string)

  /** A data message on the subscribed channel and topic, for the subscribed node. */
  predicate Matches(sub: Subscription, m: Message)
  {
    m.kind == "data" && m.channel == sub.channel && m.topic == sub.topic && m.nodeId == sub.nodeId
  }

  function MatchesFor(sub: Subscription): Message -> bool
  {
    m => Matches(sub, m)
  }

  /** The messages of a batch that the hook considers, in batch order. */
  function Matching(sub: Subscription, batch: seq<Message>): (r: seq<Message>)
    ensures forall i :: 0 <= i < |r| ==> Matches(sub, r[i])
  {
    Seqs.Filter(batch, MatchesFor(sub))
  }

  /** Index `i` holds a newest message of `ms`, and no earlier message is as new. */
  predicate IsFirstNewest(ms: seq<Message>, i: int)
  {
    && 0 <= i < |ms|
    && (forall j :: 0 <= j < |ms| ==> ms[j].createdAt <= ms[i].createdAt)
    && (forall j :: 0 <= j < i ==> ms[j].createdAt < ms[i].createdAt)
  }

  /** The position of the first message with the greatest timestamp. */
  function FirstNewest(ms: seq<Message>): (r: Wrappers.Option<nat>)
    ensures r.None? <==> ms == []
    ensures r.Some? ==> IsFirstNewest(ms, r.value)
  {
    if ms == [] then Wrappers.None
    else match FirstNewest(ms[1..])
      case None => Wrappers.Some(0)
      case Some(k) => if ms[k + 1].createdAt <= ms[0].createdAt then Wrappers.Some(0) else Wrappers.Some(k + 1)
  }

  /** At most one position is the first newest. */
  lemma FirstNewestUnique(ms: seq<Message>, i: int, j: int)
    requires IsFirstNewest(ms, i) && IsFirstNewest(ms, j)
    ensures i == j
  {
    assert ms[j].createdAt <= ms[i].createdAt;
    assert ms[i].createdAt <= ms[j].createdAt;
  }

  /** Messages from newest to oldest; equally new messages keep their batch
      order (a stable sort, as `Array.prototype.sort` is). */
  function SortNewestFirst(ms: seq<Message>): (r: seq<Message>)
    ensures |r| == |ms| && multiset(r) == multiset(ms)
    ensures forall i, j :: 0 <= i < j < |r| ==> r[i].createdAt >= r[j].createdAt
  {
    if ms == [] then [] else
      assert ms == [ms[0]] + ms[1..];
      Insert(ms[0], SortNewestFirst(ms[1..]))
  }

  /** Places `m` before the first message that is not newer than it. */
  function Insert(m: Message, sorted: seq<Message>): (r: seq<Message>)
    requires forall i, j :: 0 <= i < j < |sorted| ==> sorted[i].createdAt >= sorted[j].createdAt
    ensures |r| == |sorted| + 1 && multiset(r) == multiset(sorted) + multiset{m}
    ensures forall i, j :: 0 <= i < j < |r| ==> r[i].createdAt >= r[j].createdAt
    ensures r[0] == if sorted == [] || sorted[0].createdAt <= m.createdAt then m else sorted[0]
  {
    if sorted == [] || sorted[0].createdAt <= m.createdAt then [m] + sorted
    else
      assert sorted == [sorted[0]] + sorted[1..];
      [sorted[0]] + Insert(m, sorted[1..])
  }

  /** The head of the newest-first order is the first newest message. */
  lemma {:induction false} HeadOfSortIsFirstNewest(ms: seq<Message>)
    requires ms != []
    ensures SortNewestFirst(ms)[0] == ms[FirstNewest(ms).value]
  {
    if ms[1..] != [] {
      HeadOfSortIsFirstNewest(ms[1..]);
    }
  }

  /** The message the hook adopts from a batch, if any. */
  function Selected(sub: Subscription, batch: seq<Message>): (r: Wrappers.Option<Message>)
    ensures r.None? <==> forall i :: 0 <= i < |batch| ==> !Matches(sub, batch[i])
    ensures r.Some? ==> Matches(sub, r.value) && r.value in batch
    ensures r.Some? ==> forall i :: 0 <= i < |batch| && Matches(sub, batch[i]) ==> batch[i].createdAt <= r.value.createdAt
  {
    var ms := Matching(sub, batch);
    match FirstNewest(ms)
    case None => Wrappers.None
    case Some(i) => Wrappers.Some(ms[i])
  }

  /** `Selected` is the head of the matching messages sorted newest first,
      which is how the hook picks it. */
  lemma SelectedIsHeadOfSortedMatches(sub: Subscription, batch: seq<Message>)
    ensures Matching(sub, batch) == [] ==> Selected(sub, batch).None?
    ensures Matching(sub, batch) != [] ==> Selected(sub, batch) == Wrappers.Some(SortNewestFirst(Matching(sub, batch))[0])
  {
    if Matching(sub, batch) != [] {
      HeadOfSortIsFirstNewest(Matching(sub, batch));
    }
  }

  /** The status after one batch: an absent or empty batch, or one with no
      matching message, leaves it unchanged. */
  function StatusAfter(current: NodeStatus, sub: Subscription, data: Wrappers.Option<seq<Message>>): (s: NodeStatus)
    ensures data.None? || data.value == [] ==> s == current
    ensures data.Some? && Selected(sub, data.value).None? ==> s == current
    ensures data.Some? && Selected(sub, data.value).Some? ==> s == Selected(sub, data.value).value.status
  {
    if data.None? || |data.value| == 0 then current
    else match Selected(sub, data.value)
      case None => current
      case Some(m) => m.status
  }

  /** A message the hook does not listen to changes nothing, wherever it
      sits in the batch. */
  lemma {:induction false} NonMatchingIgnored(current: NodeStatus, sub: Subscription, before: seq<Message>, m: Message, after: seq<Message>)
    requires !Matches(sub, m)
    ensures Selected(sub, before + [m] + after) == Selected(sub, before + after)
    ensures StatusAfter(current, sub, Wrappers.Some(before + [m] + after)) == StatusAfter(current, sub, Wrappers.Some(before + after))
  {
    MatchingSkipsNonMatching(sub, before, m, after);
  }

  lemma {:induction false} MatchingSkipsNonMatching(sub: Subscription, before: seq<Message>, m: Message, after: seq<Message>)
    requires !Matches(sub, m)
    ensures Matching(sub, before + [m] + after) == Matching(sub, before + after)
  {
    var keep := MatchesFor(sub);
    assert !keep(m);
    assert Seqs.Filter([m], keep) == [] by {
      assert [m][1..] == [];
      assert Seqs.Filter([m], keep) == Seqs.Filter([m][1..], keep);
    }
    Seqs.FilterAppend(before, [m], keep);
    var a := Seqs.Filter(before, keep);
    assert Seqs.Filter(before + [m], keep) == a;
    Seqs.FilterAppend(before + [m], after, keep);
    Seqs.FilterAppend(before, after, keep);
  }

  class NodeStatusHook {
    const subscription: Subscription
    var status: NodeStatus

    constructor (subscription: Subscription)
      ensures this.subscription == subscription && status == Initial
    {
      this.subscription := subscription;
      status := Initial;
    }

    /** The effect run when a new batch of messages arrives. */
    method OnData(data: Wrappers.Option<seq<Message>>)
      modifies this
      ensures status == StatusAfter(old(status), subscription, data)
    {
      if data.Some? && |data.value| > 0 {
        var last := Selected(subscription, data.value);
        if last.Some? {
          status := last.value.status;
        }
      }
    }
  }
}
