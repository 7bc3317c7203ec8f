/**
  The relative-age label shown as "Latest: ..." on a source card.
  Times are integer milliseconds since the epoch; the label is computed
  against a "now" that the caller passes in (the widget reads the clock).
 */
module Timestamp {
  import opened Wrappers
  import opened Decimal

  const MillisPerMinute := 60_000
  const MinutesPerHour := 60
  const MinutesPerDay := 1440

  /** Which of the three buckets an age falls into, with the number the label shows. */
  datatype Age = MinutesAgo(minutes: int) | HoursAgo(hours: int) | Dated

  /**
    What the card displays: a relative text, or the locale-formatted date of
    the notification. Locale formatting is not modelled; the date label is
    kept as the timestamp it would format.
   */
  datatype Label = Relative(text: string) | LocaleDate(receivedAt: int)

  /**
    The bucket for an age of `diff` milliseconds: whole minutes (rounded
    down) below one hour, whole hours below one day, a date otherwise.
   */
  function AgeOf(diff: int): (a: Age)
    ensures a.MinutesAgo? <==> diff < 60 * MillisPerMinute
    ensures a.HoursAgo? <==> 60 * MillisPerMinute <= diff < MinutesPerDay * MillisPerMinute
    ensures a.Dated? <==> MinutesPerDay * MillisPerMinute <= diff
    ensures a.MinutesAgo? ==>
      a.minutes * MillisPerMinute <= diff < (a.minutes + 1) * MillisPerMinute
    ensures a.HoursAgo? ==>
      && 1 <= a.hours <= 23
      && a.hours * 60 * MillisPerMinute <= diff < (a.hours + 1) * 60 * MillisPerMinute
  {
    // Dafny's division by a positive constant rounds down, as Math.floor does.
    var minutes := diff / MillisPerMinute;
    if minutes < MinutesPerHour then MinutesAgo(minutes)
    else if minutes < MinutesPerDay then HoursAgo(minutes / MinutesPerHour)
    else Dated
  }

  /** The label for a bucket: "<m>m ago", "<h>h ago", or the notification's date. */
  function Render(a: Age, receivedAt: int): (l: Label)
    ensures l.Relative? <==> !a.Dated?
    ensures a.MinutesAgo? ==> |l.text| > 5 && l.text[|l.text| - 5..] == "m ago"
    ensures a.HoursAgo? ==> |l.text| > 5 && l.text[|l.text| - 5..] == "h ago"
    ensures a.Dated? ==> l.receivedAt == receivedAt
  {
    match a
    case MinutesAgo(m) => Relative(IntToString(m) + "m ago")
    case HoursAgo(h) => Relative(IntToString(h) + "h ago")
    case Dated => LocaleDate(receivedAt)
  }

  /** Reads a label back into its bucket; `None` for a text no bucket renders. */
  function ReadLabel(l: Label): Option<Age> {
    match l
    case LocaleDate(_) => Some(Dated)
    case Relative(t) =>
      if |t| < 5 then None
      else
        var n := ParseInt(t[..|t| - 5]);
        var suffix := t[|t| - 5..];
        if n.None? then None
        else if suffix == "m ago" then Some(MinutesAgo(n.value))
        else if suffix == "h ago" then Some(HoursAgo(n.value))
        else None
  }

  /** Every bucket's label reads back as that bucket. */
  lemma ReadRender(a: Age, receivedAt: int)
    ensures ReadLabel(Render(a, receivedAt)) == Some(a)
  {
    match a
    case MinutesAgo(m) =>
      var t := IntToString(m) + "m ago";
      assert t[..|t| - 5] == IntToString(m);
      assert t[|t| - 5..] == "m ago";
      ParseIntToString(m);
    case HoursAgo(h) =>
      var t := IntToString(h) + "h ago";
      assert t[..|t| - 5] == IntToString(h);
      assert t[|t| - 5..] == "h ago";
      ParseIntToString(h);
    case Dated =>
  }

  /**
    The label for a notification received at `receivedAt`, seen at `now`:
    it reads back as exactly the bucket of the age `now - receivedAt`, and a
    date label carries the notification's own timestamp.
   */
  function FormatTimestamp(receivedAt: int, now: int): (r: Label)
    ensures ReadLabel(r) == Some(AgeOf(now - receivedAt))
    ensures r.LocaleDate? ==> r.receivedAt == receivedAt
  {
    var a := AgeOf(now - receivedAt);
    ReadRender(a, receivedAt);
    Render(a, receivedAt)
  }

  /** Two ages in different buckets, or with different numbers, never share a label. */
  lemma LabelsDistinguishAges(receivedAt: int, now: int, receivedAt': int, now': int)
    requires FormatTimestamp(receivedAt, now) == FormatTimestamp(receivedAt', now')
    ensures AgeOf(now - receivedAt) == AgeOf(now' - receivedAt')
  {
  }

  /** 5 minutes reads "5m ago", 90 minutes "1h ago", two days a date. */
  lemma FormatTimestampExamples(now: int)
    ensures FormatTimestamp(now - 5 * MillisPerMinute, now) == Relative("5m ago")
    ensures FormatTimestamp(now - 90 * MillisPerMinute, now) == Relative("1h ago")
    ensures FormatTimestamp(now - 2 * MinutesPerDay * MillisPerMinute, now)
         == LocaleDate(now - 2 * MinutesPerDay * MillisPerMinute)
  {
    assert AgeOf(5 * MillisPerMinute) == MinutesAgo(5);
    assert AgeOf(90 * MillisPerMinute) == HoursAgo(1);
    assert IntToString(5) == "5" && IntToString(1) == "1";
  }
}
