/**
  The swipe-to-delete controller of the notification widget: the list of
  notifications it holds, and one horizontal card offset per source that
  pan gestures move and release either commits (deleting the source) or
  springs back to rest. Animations are modelled as the immediate
  assignment of their target value.
 */
module Swipe {
  import opened Aggregator

  /** Width of the delete button the swipe reveals; the drag bound and the commit threshold. */
  const DeleteButtonWidth := 80

  /**
    The offset for a drag of `translationX`: never right of rest (0), never
    left of the fully revealed button, and the drag itself whenever that
    already lies in the range.
   */
  function Clamp(translationX: int): (offset: int)
    ensures -DeleteButtonWidth <= offset <= 0
    ensures offset == translationX <==> -DeleteButtonWidth <= translationX <= 0
    ensures translationX < -DeleteButtonWidth ==> offset == -DeleteButtonWidth
    ensures translationX > 0 ==> offset == 0
  {
    var atLeast := if translationX < -DeleteButtonWidth then -DeleteButtonWidth else translationX;
    if atLeast > 0 then 0 else atLeast
  }

  /**
    Release commits the deletion when the card is past the middle of the
    button: nearer the fully revealed position than rest.
   */
  predicate CommitsDeletion(offset: int): (b: bool)
    ensures b <==> offset - (-DeleteButtonWidth) < 0 - offset
  {
    offset < -DeleteButtonWidth / 2
  }

  /**
    A release right after a drag deletes exactly when the drag went further
    left than half the button, however far past the button it went.
   */
  lemma ReleaseAfterDrag(translationX: int)
    ensures CommitsDeletion(Clamp(translationX)) <==> translationX < -DeleteButtonWidth / 2
  {
  }

  class NotificationWidget {
    var notifications: seq<Notification>
    var telegramTranslateX: int
    var tradingViewTranslateX: int

    /** Both card offsets stay between the fully revealed button and rest. */
    ghost predicate Valid()
      reads this
    {
      && -DeleteButtonWidth <= telegramTranslateX <= 0
      && -DeleteButtonWidth <= tradingViewTranslateX <= 0
    }

    /** The offset a source's gesture drives: Telegram's, or the TradingView one for any other source. */
    function Offset(source: string): (x: int)
      reads this
      ensures Valid() ==> -DeleteButtonWidth <= x <= 0
      ensures source == Telegram ==> x == telegramTranslateX
      ensures source != Telegram ==> x == tradingViewTranslateX
    {
      if source == Telegram then telegramTranslateX else tradingViewTranslateX
    }

    /** The widget once mounted with `initial` as its list; both cards at rest. */
    constructor (initial: seq<Notification>)
      ensures Valid()
      ensures notifications == initial
      ensures telegramTranslateX == 0 && tradingViewTranslateX == 0
    {
      notifications := initial;
      telegramTranslateX := 0;
      tradingViewTranslateX := 0;
    }

    /** A pan update: the source's offset follows the drag, clamped. */
    method OnUpdate(source: string, translationX: int)
      requires Valid()
      modifies this
      ensures Valid()
      ensures Offset(source) == Clamp(translationX)
      ensures source == Telegram ==> tradingViewTranslateX == old(tradingViewTranslateX)
      ensures source != Telegram ==> telegramTranslateX == old(telegramTranslateX)
      ensures notifications == old(notifications)
    {
      var newValue := Clamp(translationX);
      if source == Telegram {
        telegramTranslateX := newValue;
      } else {
        tradingViewTranslateX := newValue;
      }
    }

    /**
      Deletes every notification of `source` and puts that source's card
      back at rest. Afterwards the source has no notifications and every
      other source keeps exactly its own, in order.
     */
    method DeleteSource(source: string)
      requires Valid()
      modifies this
      ensures Valid()
      ensures notifications == WithoutSource(old(notifications), source)
      ensures SourceItems(notifications, source) == []
      ensures forall other :: other != source ==>
        SourceItems(notifications, other) == SourceItems(old(notifications), other)
      ensures Offset(source) == 0
      ensures source == Telegram ==> tradingViewTranslateX == old(tradingViewTranslateX)
      ensures source != Telegram ==> telegramTranslateX == old(telegramTranslateX)
    {
      ghost var before := notifications;
      notifications := WithoutSource(notifications, source);
      if source == Telegram {
        telegramTranslateX := 0;
      } else {
        tradingViewTranslateX := 0;
      }
      forall other | other != source
        ensures SourceItems(notifications, other) == SourceItems(before, other)
      {
        DeleteLeavesOtherGroups(before, source, other);
      }
      DeleteLeavesOtherGroups(before, source, source);
    }

    /**
      Pan release: past the middle of the button the source is deleted,
      otherwise the card springs back to rest and the list is untouched.
      `committed` reports which happened.
     */
    method OnEnd(source: string) returns (committed: bool)
      requires Valid()
      modifies this
      ensures Valid()
      ensures committed <==> CommitsDeletion(old(Offset(source)))
      ensures committed ==> notifications == WithoutSource(old(notifications), source)
      ensures !committed ==> notifications == old(notifications)
      ensures Offset(source) == 0
      ensures source == Telegram ==> tradingViewTranslateX == old(tradingViewTranslateX)
      ensures source != Telegram ==> telegramTranslateX == old(telegramTranslateX)
    {
      committed := CommitsDeletion(Offset(source));
      if committed {
        DeleteSource(source);
      } else if source == Telegram {
        telegramTranslateX := 0;
      } else {
        tradingViewTranslateX := 0;
      }
    }

    /** The trash button: deletes the source whatever the card's offset. */
    method TapDelete(source: string)
      requires Valid()
      modifies this
      ensures Valid()
      ensures notifications == WithoutSource(old(notifications), source)
      ensures SourceItems(notifications, source) == []
      ensures Offset(source) == 0
      ensures source == Telegram ==> tradingViewTranslateX == old(tradingViewTranslateX)
      ensures source != Telegram ==> telegramTranslateX == old(telegramTranslateX)
    {
      DeleteSource(source);
    }
  }
}
