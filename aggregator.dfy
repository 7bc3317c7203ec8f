/**
  The notification records and the per-source views the widget derives
  from its list: the items of one source, the latest of them, the number
  of distinct chats, and the list left after a source is deleted.
 */
module Aggregator {
  import opened Wrappers

  /** The two sources the widget draws a card for. */
  const Telegram := "Telegram"
  const TradingView := "TradingView"

  /**
    One notification. `receivedAt` is the arrival time in milliseconds
    (the record carries it as an ISO date string); `chatId` and `chatTitle`
    are present only for chat-relay notifications.
   */
  datatype Notification = Notification(
    id: int,
    source: string,
    content: string,
    receivedAt: int,
    chatId: Option<int>,
    chatTitle: Option<string>)

  /** The notifications of `source`, in list order. */
  function SourceItems(ns: seq<Notification>, source: string): (r: seq<Notification>)
    ensures |r| <= |ns|
    ensures forall n {:trigger n in r} :: n in r ==> n in ns && n.source == source
    ensures forall i :: 0 <= i < |ns| && ns[i].source == source ==> ns[i] in r
  {
    if ns == [] then []
    else (if ns[0].source == source then [ns[0]] else []) + SourceItems(ns[1..], source)
  }

  /** The list after deleting `source`: every notification of another source, in list order. */
  function WithoutSource(ns: seq<Notification>, source: string): (r: seq<Notification>)
    ensures |r| <= |ns|
  {
    if ns == [] then []
    else (if ns[0].source != source then [ns[0]] else []) + WithoutSource(ns[1..], source)
  }

  /** Deletion keeps exactly the notifications of other sources. */
  lemma {:induction false} WithoutSourceMembers(ns: seq<Notification>, source: string)
    ensures forall n :: n in WithoutSource(ns, source) <==> n in ns && n.source != source
  {
    if ns != [] {
      WithoutSourceMembers(ns[1..], source);
      assert ns == [ns[0]] + ns[1..];
    }
  }

  /**
    Deleting a source splits the list: the deleted group and the remainder
    together hold every notification exactly as often as the list did.
   */
  lemma {:induction false} PartitionBySource(ns: seq<Notification>, source: string)
    ensures multiset(SourceItems(ns, source)) + multiset(WithoutSource(ns, source)) == multiset(ns)
    ensures |SourceItems(ns, source)| + |WithoutSource(ns, source)| == |ns|
  {
    if ns != [] {
      PartitionBySource(ns[1..], source);
      assert ns == [ns[0]] + ns[1..];
    }
  }

  /** The group of a source keeps the list's order: it distributes over concatenation. */
  lemma {:induction false} SourceItemsAppend(a: seq<Notification>, b: seq<Notification>, source: string)
    ensures SourceItems(a + b, source) == SourceItems(a, source) + SourceItems(b, source)
  {
    if a == [] {
      assert a + b == b;
    } else {
      var head := if a[0].source == source then [a[0]] else [];
      var ab := a + b;
      assert ab != [] && ab[0] == a[0] && ab[1..] == a[1..] + b;
      assert SourceItems(ab, source) == head + SourceItems(ab[1..], source);
      SourceItemsAppend(a[1..], b, source);
      assert SourceItems(a, source) == head + SourceItems(a[1..], source);
    }
  }

  /** Deletion keeps the list's order: it distributes over concatenation. */
  lemma {:induction false} WithoutSourceAppend(a: seq<Notification>, b: seq<Notification>, source: string)
    ensures WithoutSource(a + b, source) == WithoutSource(a, source) + WithoutSource(b, source)
  {
    if a == [] {
      assert a + b == b;
    } else {
      var head := if a[0].source != source then [a[0]] else [];
      var ab := a + b;
      assert ab != [] && ab[0] == a[0] && ab[1..] == a[1..] + b;
      assert WithoutSource(ab, source) == head + WithoutSource(ab[1..], source);
      WithoutSourceAppend(a[1..], b, source);
      assert WithoutSource(a, source) == head + WithoutSource(a[1..], source);
    }
  }

  /**
    After deleting `source` its group is empty, and the group of every
    other source is exactly what it was, items and order alike.
   */
  lemma {:induction false} DeleteLeavesOtherGroups(ns: seq<Notification>, source: string, other: string)
    ensures SourceItems(WithoutSource(ns, source), source) == []
    ensures other != source ==>
      SourceItems(WithoutSource(ns, source), other) == SourceItems(ns, other)
  {
    if ns != [] {
      DeleteLeavesOtherGroups(ns[1..], source, other);
      var head := if ns[0].source != source then [ns[0]] else [];
      SourceItemsAppend(head, WithoutSource(ns[1..], source), source);
      SourceItemsAppend(head, WithoutSource(ns[1..], source), other);
    }
  }

  /** Deleting a source that has no notifications leaves the list as it is. */
  lemma {:induction false} DeleteAbsentSource(ns: seq<Notification>, source: string)
    requires SourceItems(ns, source) == []
    ensures WithoutSource(ns, source) == ns
  {
    if ns != [] {
      assert ns[0].source != source;
      assert SourceItems(ns, source) == SourceItems(ns[1..], source);
      DeleteAbsentSource(ns[1..], source);
      assert ns == [ns[0]] + ns[1..];
    }
  }

  /** Deleting a source changes nothing exactly when it has no notifications. */
  lemma {:induction false} DeleteIsNoOpIff(ns: seq<Notification>, source: string)
    ensures WithoutSource(ns, source) == ns <==> SourceItems(ns, source) == []
  {
    if SourceItems(ns, source) == [] {
      DeleteAbsentSource(ns, source);
    } else {
      PartitionBySource(ns, source);
    }
  }

  /** Deleting the same source twice leaves what deleting it once left. */
  lemma DeleteIdempotent(ns: seq<Notification>, source: string)
    ensures WithoutSource(WithoutSource(ns, source), source) == WithoutSource(ns, source)
  {
    DeleteLeavesOtherGroups(ns, source, source);
    DeleteIsNoOpIff(WithoutSource(ns, source), source);
  }

  /**
    The position of the item a descending sort by `receivedAt` puts first:
    an item with the greatest `receivedAt`, the earliest of them in list
    order when several tie (the sort is stable); -1 for an empty list.
   */
  function LatestIndex(items: seq<Notification>): (k: int)
    ensures -1 <= k < |items|
    ensures k == -1 <==> items == []
    ensures k >= 0 ==> forall j :: 0 <= j < |items| ==> items[j].receivedAt <= items[k].receivedAt
    ensures k >= 0 ==> forall j :: 0 <= j < k ==> items[j].receivedAt < items[k].receivedAt
  {
    if items == [] then -1
    else
      var k := LatestIndex(items[1..]);
      if k == -1 || items[0].receivedAt >= items[k + 1].receivedAt then 0 else k + 1
  }

  /**
    The latest notification of `source`: absent exactly when the source has
    none, otherwise one of its notifications, received no earlier than any other.
   */
  function Latest(ns: seq<Notification>, source: string): (r: Option<Notification>)
    ensures r.None? <==> SourceItems(ns, source) == []
    ensures r.Some? ==> r.value in ns && r.value.source == source
    ensures r.Some? ==>
      forall n :: n in ns && n.source == source ==> n.receivedAt <= r.value.receivedAt
  {
    var items := SourceItems(ns, source);
    var k := LatestIndex(items);
    if k == -1 then None
    else
      assert items[k] in items;
      Some(items[k])
  }

  /** The set of chat titles among `items`; an absent title is the value `None`. */
  function ChatTitles(items: seq<Notification>): (r: set<Option<string>>)
    ensures |r| <= |items|
    ensures forall n :: n in items ==> n.chatTitle in r
    ensures forall t :: t in r ==> exists n :: n in items && n.chatTitle == t
  {
    if items == [] then {} else {items[0].chatTitle} + ChatTitles(items[1..])
  }

  /** How many distinct chats the items come from (`new Set(titles).size`). */
  function DistinctChats(items: seq<Notification>): (k: nat)
    ensures k <= |items|
    ensures k == 0 <==> items == []
  {
    assert items != [] ==> items[0] in items;
    |ChatTitles(items)|
  }

  /** Items that all share one title (or all lack one) come from one chat. */
  lemma OneTitleOneChat(items: seq<Notification>, title: Option<string>)
    requires items != []
    requires forall n :: n in items ==> n.chatTitle == title
    ensures DistinctChats(items) == 1
  {
    assert items[0] in items;
    assert ChatTitles(items) == {title};
  }

  /** Two items titled "Crypto Signals" and one "Trading Group" make two chats. */
  lemma DistinctChatsExample(a: Notification, b: Notification, c: Notification)
    requires a.chatTitle == Some("Crypto Signals") && b.chatTitle == Some("Crypto Signals")
    requires c.chatTitle == Some("Trading Group")
    ensures DistinctChats([a, b, c]) == 2
  {
    var items := [a, b, c];
    assert items[1..] == [b, c] && [b, c][1..] == [c] && [c][1..] == [];
    var crypto, trading := Some("Crypto Signals"), Some("Trading Group");
    assert ChatTitles(items) == {crypto} + {crypto} + {trading} + {};
    assert crypto != trading by {
      assert "Crypto Signals"[0] != "Trading Group"[0];
    }
    assert {crypto} + {crypto} + {trading} + {} == {crypto, trading};
  }
}
