# Swipe-to-delete notification widget, modelled in Dafny

The widget shows one summary card for each of its two notification sources,
"Telegram" and "TradingView". Each card shows a count, the number of distinct
chats (Telegram only) and the age of the latest notification, such as "5m ago".
Swiping a card left reveals a delete button. If the card is released past the
middle of the button, every notification of that source is deleted. Otherwise
the card springs back. Tapping the button also deletes the source.

The model has six modules:

- `Aggregator` (`aggregator.dfy`): the notification record and the pure views
  of the list. These are the items of a source, the latest item, the set of
  chat titles and the list left after deleting a source. It also holds the
  lemmas about deletion: it partitions the list, keeps order, leaves other
  groups untouched, is a no-op exactly on an absent source, and is idempotent.
- `Timestamp` (`timestamp.dfy`): the relative-age label. `AgeOf` picks the
  bucket (minutes, hours or a date) and characterises each bucket by the age
  range it covers. `Render` writes the label, and `ReadLabel` reads it back,
  so the text is shown to encode exactly the bucket's number.
- `Decimal` (`decimal.dfy`): how a template literal writes an integer, with a
  parser and the round-trip lemma.
- `Wrappers` (`wrappers.dfy`): the shared `Option` type.
- `Card` (`card.dfy`): what one card shows: the count, the distinct chats,
  the summary text, the latest label, and the collapsed or open layout.
  `ReadCountLine` reads a summary text back, so the text is shown to carry
  exactly the count and, for Telegram, the chat count.
- `Swipe` (`widget.dfy`): the stateful controller. It is the class
  `NotificationWidget`, with the list and the two card offsets
  `telegramTranslateX` and `tradingViewTranslateX` as fields. Its methods
  are `OnUpdate`, `OnEnd`, `DeleteSource` and `TapDelete`. The class invariant
  `Valid()` keeps both offsets in `[-80, 0]`.

Times are integer milliseconds. "Now" is a parameter instead of a clock
reading. Animations are modelled as setting their target value at once.

Three behaviours of the widget are worth stating plainly, because a reader
might expect otherwise:

- There is one offset per card, not one per source: any source other than
  "Telegram" drives the TradingView offset (`NotificationWidget.Offset`).
- The age has no lower bound. The widget floors `(now - receivedAt) / 60000`,
  so a notification stamped in the future reads as a negative number of
  minutes, such as "-3m ago". `AgeOf` models that: Dafny's division by a
  positive constant rounds down, as `Math.floor` does.
- There is no resting revealed state: release either deletes the source or
  springs the card back to 0, and so does the model.

## Model

| member | source | states |
|---|---|---|
| `Aggregator.SourceItems` | components/NewNotificationWidget.tsx:74-76 | the result holds only notifications of the source taken from the list, holds every such notification, and is no longer than the list |
| `Aggregator.WithoutSource` | components/NewNotificationWidget.tsx:104-106 | the list left after deleting a source is no longer than the list |
| `Aggregator.WithoutSourceMembers` | components/NewNotificationWidget.tsx:105 | a notification survives deletion of a source exactly when it was in the list and has another source |
| `Aggregator.PartitionBySource` | components/NewNotificationWidget.tsx:104-106 | the deleted group and the remainder together hold each notification exactly as often as the list did, so their lengths add up to the list's |
| `Aggregator.SourceItemsAppend` | components/NewNotificationWidget.tsx:74-76 | filtering by source keeps the list order: it distributes over concatenation |
| `Aggregator.WithoutSourceAppend` | components/NewNotificationWidget.tsx:104-106 | deletion keeps the relative order of what it keeps: it distributes over concatenation |
| `Aggregator.DeleteLeavesOtherGroups` | components/NewNotificationWidget.tsx:104-106 | after deleting a source that source has no items, and every other source's items are exactly what they were, in the same order |
| `Aggregator.DeleteAbsentSource` | components/NewNotificationWidget.tsx:105 | deleting a source with no notifications leaves the list unchanged |
| `Aggregator.DeleteIsNoOpIff` | components/NewNotificationWidget.tsx:105 | deletion leaves the list unchanged if and only if the source has no notifications |
| `Aggregator.DeleteIdempotent` | components/NewNotificationWidget.tsx:104-106 | deleting the same source twice gives the same list as deleting it once |
| `Aggregator.LatestIndex` | components/NewNotificationWidget.tsx:79-84 | -1 exactly for an empty list; otherwise the index of an item whose `receivedAt` is at least every item's, and the first such item, as a stable descending sort puts first |
| `Aggregator.Latest` | components/NewNotificationWidget.tsx:78-85 | absent if and only if the source has no notifications; otherwise it is a notification of that source in the list, received no earlier than any other of that source |
| `Aggregator.ChatTitles` | components/NewNotificationWidget.tsx:141 | the set holds the title of every item (absent titles as one value `None`) and nothing else, and has at most as many elements as there are items |
| `Aggregator.DistinctChats` | components/NewNotificationWidget.tsx:139-142 | the distinct-chat count is at most the number of items, and 0 exactly when there are none |
| `Aggregator.OneTitleOneChat` | components/NewNotificationWidget.tsx:141 | items that all share one title, or all lack one, count as one chat |
| `Aggregator.DistinctChatsExample` | components/NewNotificationWidget.tsx:141 | two items titled "Crypto Signals" and one titled "Trading Group" make two distinct chats |
| `Decimal.NatToString` | components/NewNotificationWidget.tsx:146-147 | a natural number is written as a non-empty string of digits that starts with '0' only for 0 |
| `Decimal.IntToString` | components/NewNotificationWidget.tsx:94 | an integer is written with a leading '-' exactly when negative, followed by digits |
| `Decimal.ParseNatToString` | components/NewNotificationWidget.tsx:94-96 | reading back the digits written for a natural number gives that number |
| `Decimal.ParseIntToString` | components/NewNotificationWidget.tsx:94-96 | reading back the text written for an integer gives that integer |
| `Decimal.IntToStringInjective` | components/NewNotificationWidget.tsx:94-96 | two integers are written alike only when they are equal |
| `Timestamp.AgeOf` | components/NewNotificationWidget.tsx:90-99 | the minutes bucket holds exactly ages under one hour, the hours bucket exactly ages from one hour up to one day, and the date bucket exactly the rest; the minutes shown are the whole minutes of the age, and the hours shown lie in 1..23 and are its whole hours |
| `Timestamp.Render` | components/NewNotificationWidget.tsx:93-98 | the three label forms: a relative text exactly for the minutes and hours buckets, ending in "m ago" or "h ago" respectively, and a date label carrying the notification's timestamp; beyond that it states only its definition (the number in front of the suffix), whose meaning `ReadRender` proves |
| `Timestamp.ReadRender` | components/NewNotificationWidget.tsx:93-98 | every bucket's label reads back as that bucket, with its number |
| `Timestamp.FormatTimestamp` | components/NewNotificationWidget.tsx:87-100 | the label reads back as exactly the bucket of the age `now - receivedAt`, and a date label carries the notification's own timestamp |
| `Timestamp.LabelsDistinguishAges` | components/NewNotificationWidget.tsx:93-98 | two ages get the same label only when they fall in the same bucket with the same number |
| `Timestamp.FormatTimestampExamples` | components/NewNotificationWidget.tsx:87-99 | 5 minutes reads "5m ago", 90 minutes reads "1h ago", and two days gives a date label |
| `Card.LatestLabel` | components/NewNotificationWidget.tsx:212 | the latest label exists if and only if the source has notifications, and then reads back as the bucket of the latest notification's age |
| `Card.SummaryText` | components/NewNotificationWidget.tsx:144-147 | the summary line starts with the count's digits and reads back as exactly the count, together with the distinct-chat count for Telegram and with no chat count otherwise; for Telegram it ends in " distinct chats", otherwise it is "<count> new alerts" |
| `Card.ReadMessagesLine` | components/NewNotificationWidget.tsx:146 | "N new messages from K distinct chats" reads back as the count N and the chat count K, for all N and K |
| `Card.ReadAlertsLine` | components/NewNotificationWidget.tsx:147 | "N new alerts" reads back as the count N with no chat count, for every N |
| `Card.Summarize` | components/NewNotificationWidget.tsx:135-163 | the count is the number of the source's items; the distinct-chat count is present exactly for Telegram and is then the size of its chat-title set; the summary text is the count line of that count and chat count, and reads back as the card's count and chat count; the card has height 0, opacity 0 and no content if and only if the count is 0, and otherwise height 100 and opacity 1; the latest label is there exactly when there is content, is the source's latest label, and then reads back as the bucket of the latest notification's age |
| `Card.DeletedCardCollapses` | components/NewNotificationWidget.tsx:104-106 | after a source is deleted its card has count 0 and no content, and every other source's card is exactly what it was |
| `Swipe.Clamp` | components/NewNotificationWidget.tsx:122 | the offset lies in [-80, 0], equals the drag exactly when the drag already lies there, and otherwise is the nearer bound |
| `Swipe.CommitsDeletion` | components/NewNotificationWidget.tsx:126 | release commits exactly when the offset is nearer the fully revealed position (-80) than rest (0), which is the test `offset < -80/2` |
| `Swipe.ReleaseAfterDrag` | components/NewNotificationWidget.tsx:122-126 | a release right after a drag deletes exactly when the drag went further left than -40 |
| `Swipe.NotificationWidget.Offset` | components/NewNotificationWidget.tsx:117 | the offset a source's gesture drives is Telegram's for "Telegram" and the TradingView one for every other source, and lies in [-80, 0] whenever the invariant holds |
| `Swipe.NotificationWidget.constructor` | components/NewNotificationWidget.tsx:61-68 | the widget starts with the given list and both offsets at 0 |
| `Swipe.NotificationWidget.OnUpdate` | components/NewNotificationWidget.tsx:121-124 | the dragged source's offset becomes the clamped drag; the other offset and the list are unchanged; both offsets stay in [-80, 0] |
| `Swipe.NotificationWidget.DeleteSource` | components/NewNotificationWidget.tsx:102-114 | the list becomes the old list without the source; the source then has no items and every other source keeps exactly its items; the source's offset becomes 0 (Telegram's for "Telegram", TradingView's otherwise) and the other offset is unchanged |
| `Swipe.NotificationWidget.OnEnd` | components/NewNotificationWidget.tsx:125-132 | deletion is committed if and only if the offset was below -40; if committed the list loses the source, otherwise it is unchanged; either way the source's offset ends at 0 and the other offset is unchanged |
| `Swipe.NotificationWidget.TapDelete` | components/NewNotificationWidget.tsx:219-221 | the trash button deletes the source whatever the offset: same new state as `DeleteSource` |

## Left out

- Rendering, styles, colours, icons and the colour scheme are left out. They are presentational only. The "No notifications yet" text shown for an empty list is left out as well.
- The details modal and its visibility and selected-source state are left out. The modal is an external component.
- Spring and layout animations (`withSpring`, `Layout.springify`, `FadeIn`) are left out. Each animated value is set to its target at once.
- The pan gesture's activation threshold (`activeOffsetX(-10)`) is left out. It is gesture-library behaviour.
- The hop from the UI thread to the JS thread (`runOnJS`) is left out. `OnEnd` performs the deletion synchronously.
- Gestures and the trash button only exist while a card has content. The methods do not require that: they are modelled for any state.
- Parsing ISO date strings and `toLocaleDateString` are left out. Times are integer milliseconds, and an invalid date (NaN) is not modelled. The date label is a tag carrying the timestamp it would format.
- Gesture translations are floating point in the source. The model uses integers.
- The mock data and the effect that loads it on mount are left out. The constructor takes the initial list instead.
- Latest: ties are broken as a stable sort would do it, taking the first in list order. An engine with an unstable sort may pick another of the tied items.
- Decimal.IntToString: JavaScript writes numbers of 10^21 or more in exponent notation. The model always writes plain digits.
