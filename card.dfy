/**
  What one source card shows: the count line, the distinct-chat count for
  Telegram, the "Latest: ..." label, and the collapsed or open layout.
 */
module Card {
  import opened Wrappers
  import opened Decimal
  import opened Timestamp
  import opened Aggregator

  const CardHeight := 100

  /**
    The derived card of one source. `uniqueChats` is `None` for any source
    other than Telegram; `latest` is the label of the latest item, computed
    only when the card has content; `height` and `opacity` are the layout
    values the card animates to.
   */
  datatype Summary = Summary(
    count: nat,
    uniqueChats: Option<nat>,
    text: string,
    latest: Option<Label>,
    height: nat,
    opacity: nat,
    showsContent: bool)

  /** The fixed parts of the count line. */
  const MessagesFrom := " new messages from "
  const DistinctChatsSuffix := " distinct chats"
  const NewAlerts := " new alerts"

  /** What a count line says: the count, and the distinct chats when it names them. */
  datatype CountLine = CountLine(count: nat, chats: Option<nat>)

  /**
    Reads a count line back: leading digits for the count, then either
    " new alerts", or " new messages from ", the digits of the chat count
    and " distinct chats"; `None` for any other text.
   */
  function ReadCountLine(t: string): Option<CountLine> {
    var k := LeadingDigits(t);
    if k == 0 then None
    else
      var count := ParseNat(t[..k]);
      var rest := t[k..];
      if rest == NewAlerts then Some(CountLine(count, None))
      else if |rest| < |MessagesFrom| + |DistinctChatsSuffix| then None
      else if rest[..|MessagesFrom|] != MessagesFrom then None
      else if rest[|rest| - |DistinctChatsSuffix|..] != DistinctChatsSuffix then None
      else
        var middle := rest[|MessagesFrom|..|rest| - |DistinctChatsSuffix|];
        if |middle| >= 1 && AllDigits(middle) then Some(CountLine(count, Some(ParseNat(middle))))
        else None
  }

  /** The Telegram line reads back as its count and its chat count. */
  lemma ReadMessagesLine(count: nat, chats: nat)
    ensures ReadCountLine(NatToString(count) + MessagesFrom + NatToString(chats) + DistinctChatsSuffix)
         == Some(CountLine(count, Some(chats)))
  {
    var digits, chatDigits := NatToString(count), NatToString(chats);
    var rest := MessagesFrom + chatDigits + DistinctChatsSuffix;
    var t := digits + rest;
    assert t == NatToString(count) + MessagesFrom + NatToString(chats) + DistinctChatsSuffix;
    LeadingDigitsOf(digits, rest);
    assert t[..|digits|] == digits && t[|digits|..] == rest;
    assert |rest| != |NewAlerts|;
    assert rest[..|MessagesFrom|] == MessagesFrom;
    assert rest[|rest| - |DistinctChatsSuffix|..] == DistinctChatsSuffix;
    assert rest[|MessagesFrom|..|rest| - |DistinctChatsSuffix|] == chatDigits;
    ParseNatToString(count);
    ParseNatToString(chats);
  }

  /** Any other source's line reads back as its count alone. */
  lemma ReadAlertsLine(count: nat)
    ensures ReadCountLine(NatToString(count) + NewAlerts) == Some(CountLine(count, None))
  {
    var digits := NatToString(count);
    var t := digits + NewAlerts;
    LeadingDigitsOf(digits, NewAlerts);
    assert t[..|digits|] == digits && t[|digits|..] == NewAlerts;
    ParseNatToString(count);
  }

  /**
    The count line: messages and distinct chats for Telegram, alerts
    otherwise. It reads back as the count, and for Telegram the chat count.
   */
  function SummaryText(source: string, count: nat, chats: nat): (t: string)
    ensures NatToString(count) <= t
    ensures ReadCountLine(t) == Some(CountLine(count, if source == Telegram then Some(chats) else None))
    ensures source == Telegram ==> |t| >= 15 && t[|t| - 15..] == " distinct chats"
    ensures source != Telegram ==> t == NatToString(count) + " new alerts"
  {
    if source == Telegram then
      ReadMessagesLine(count, chats);
      NatToString(count) + MessagesFrom + NatToString(chats) + DistinctChatsSuffix
    else
      ReadAlertsLine(count);
      NatToString(count) + NewAlerts
  }

  /**
    The "Latest: ..." label: present exactly when the source has
    notifications, and then the bucket of the latest one's age.
   */
  function LatestLabel(ns: seq<Notification>, source: string, now: int): (l: Option<Label>)
    ensures l.Some? <==> SourceItems(ns, source) != []
    ensures l.Some? ==>
      && Latest(ns, source).Some?
      && ReadLabel(l.value) == Some(AgeOf(now - Latest(ns, source).value.receivedAt))
  {
    var latest := Latest(ns, source);
    if latest.None? then None
    else
      var shown := FormatTimestamp(latest.value.receivedAt, now);
      Some(shown)
  }

  /** The card of `source` for the list `ns`, seen at time `now`. */
  function Summarize(ns: seq<Notification>, source: string, now: int): (c: Summary)
    ensures c.count == |SourceItems(ns, source)|
    ensures c.uniqueChats.Some? <==> source == Telegram
    ensures c.uniqueChats.Some? ==> c.uniqueChats.value == |ChatTitles(SourceItems(ns, source))|
    ensures c.uniqueChats.Some? ==> c.uniqueChats.value <= c.count
    ensures c.uniqueChats.Some? ==> (c.uniqueChats.value == 0 <==> c.count == 0)
    ensures c.count == 0 <==> c.height == 0
    ensures c.count == 0 <==> c.opacity == 0
    ensures c.count == 0 <==> !c.showsContent
    ensures c.showsContent ==> c.height == CardHeight && c.opacity == 1
    ensures c.text == SummaryText(source, c.count, DistinctChats(SourceItems(ns, source)))
    ensures ReadCountLine(c.text) == Some(CountLine(c.count, c.uniqueChats))
    ensures c.latest.Some? <==> c.showsContent
    ensures c.latest == LatestLabel(ns, source, now)
    ensures c.latest.Some? ==>
      && Latest(ns, source).Some?
      && ReadLabel(c.latest.value) == Some(AgeOf(now - Latest(ns, source).value.receivedAt))
  {
    var items := SourceItems(ns, source);
    var count := |items|;
    var chats := DistinctChats(items);
    Summary(
      count,
      if source == Telegram then Some(chats) else None,
      SummaryText(source, count, chats),
      LatestLabel(ns, source, now),
      if count == 0 then 0 else CardHeight,
      if count == 0 then 0 else 1,
      count > 0)
  }

  /**
    After a source is deleted its card is collapsed and empty, and the card
    of every other source is exactly what it was.
   */
  lemma DeletedCardCollapses(ns: seq<Notification>, source: string, other: string, now: int)
    ensures Summarize(WithoutSource(ns, source), source, now).count == 0
    ensures !Summarize(WithoutSource(ns, source), source, now).showsContent
    ensures other != source ==>
      Summarize(WithoutSource(ns, source), other, now) == Summarize(ns, other, now)
  {
    DeleteLeavesOtherGroups(ns, source, other);
  }
}
