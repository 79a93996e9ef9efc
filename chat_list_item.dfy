/** The sidebar entry of a chat session
    (app/components/common/sidebar/chat-list-item.tsx): the relative time
    label `formatTimestamp` writes for `updatedAt`, and what its two buttons
    report to the sidebar. Times are integer milliseconds and the current time
    is a parameter. */
module ChatListItem {
  import opened ChatTypes
  import Text

  const MsPerMinute := 60000
  const MsPerHour := 3600000
  const MsPerDay := 86400000

  /** The time label. `toLocaleDateString('es-ES')` is not modelled: the
      label of a date a week old or more is that date itself. */
  datatype Label = Plain(text: string) | LocaleDate(epochMs: int)

  /** Which branch of formatTimestamp a difference falls in, with its count. */
  datatype Bucket = JustNow | MinutesAgo(n: nat) | HoursAgo(n: nat) | Yesterday | DaysAgo(n: nat) | Older

  /** The early returns of formatTimestamp on `diffMs = now - date`. The three
      counts are `Math.floor` of the difference by a minute, an hour and a day;
      with a positive divisor Dafny's `/` on `int` is that floor, for negative
      (future) differences too. */
  function Classify(diffMs: int): Bucket
  {
    var diffMins := diffMs / MsPerMinute;
    var diffHours := diffMs / MsPerHour;
    var diffDays := diffMs / MsPerDay;
    if diffMins < 1 then JustNow
    else if diffMins < 60 then MinutesAgo(diffMins)
    else if diffHours < 24 then HoursAgo(diffHours)
    else if diffDays == 1 then Yesterday
    else if diffDays < 7 then DaysAgo(diffDays)
    else Older
  }

  function Render(b: Bucket, date: Timestamp): Label
  {
    match b
    case JustNow => Plain("Ahora")
    case MinutesAgo(n) => Plain("Hace " + Text.NatToString(n) + " min")
    case HoursAgo(n) => Plain("Hace " + Text.NatToString(n) + " h")
    case Yesterday => Plain("Ayer")
    case DaysAgo(n) => Plain("Hace " + Text.NatToString(n) + " días")
    case Older => LocaleDate(date)
  }

  function FormatTimestamp(now: Timestamp, date: Timestamp): Label
  {
    Render(Classify(now - date), date)
  }

  /** The buckets as ranges of the difference in milliseconds: under a minute
      (future dates included) is "Ahora"; 1 to 59 whole minutes, 1 to 23 whole
      hours, one day, and 2 to 6 days carry their floor counts; a week or more
      falls through to the date. */
  lemma {:induction false} ClassifyRanges(d: int)
    ensures Classify(d) == JustNow <==> d < MsPerMinute
    ensures Classify(d).MinutesAgo? <==> MsPerMinute <= d < MsPerHour
    ensures Classify(d).MinutesAgo? ==> Classify(d).n == d / MsPerMinute && 1 <= Classify(d).n <= 59
    ensures Classify(d).HoursAgo? <==> MsPerHour <= d < MsPerDay
    ensures Classify(d).HoursAgo? ==> Classify(d).n == d / MsPerHour && 1 <= Classify(d).n <= 23
    ensures Classify(d) == Yesterday <==> MsPerDay <= d < 2 * MsPerDay
    ensures Classify(d).DaysAgo? <==> 2 * MsPerDay <= d < 7 * MsPerDay
    ensures Classify(d).DaysAgo? ==> Classify(d).n == d / MsPerDay && 2 <= Classify(d).n <= 6
    ensures Classify(d) == Older <==> d >= 7 * MsPerDay
  {
    FloorBelow(d, MsPerMinute, 1);
    FloorBelow(d, MsPerMinute, 60);
    FloorBelow(d, MsPerHour, 24);
    FloorBelow(d, MsPerDay, 2);
    FloorBelow(d, MsPerDay, 1);
    FloorBelow(d, MsPerDay, 7);
    assert 60 * MsPerMinute == MsPerHour;
    assert 24 * MsPerHour == MsPerDay;
  }

  /** `floor(d / k) < m` exactly when `d < m * k`. */
  lemma FloorBelow(d: int, k: int, m: int)
    requires k > 0
    ensures d / k < m <==> d < m * k
  {
    var q, r := d / k, d % k;
    assert d == k * q + r && 0 <= r < k;
    if q < m {
      MulAtMost(k, q, m - 1);
      assert k * (m - 1) + k == m * k;
    } else {
      MulAtMost(k, m, q);
      assert k * m == m * k;
    }
  }

  /** Multiplying by a non-negative number keeps the order. */
  lemma {:induction false} MulAtMost(k: int, a: int, b: int)
    requires k >= 0 && a <= b
    ensures k * a <= k * b
    decreases b - a
  {
    if a < b {
      MulAtMost(k, a + 1, b);
      assert k * (a + 1) == k * a + k;
    }
  }

  /** Flooring by a positive divisor is monotone. */
  lemma FloorMonotone(d1: int, d2: int, k: int)
    requires k > 0 && d1 <= d2
    ensures d1 / k <= d2 / k
  {
    var q2 := d2 / k;
    FloorBelow(d2, k, q2 + 1);
    FloorBelow(d1, k, q2 + 1);
  }

  /** The order of the buckets, from the most recent. */
  function Rank(b: Bucket): nat
  {
    match b
    case JustNow => 0
    case MinutesAgo(_) => 1
    case HoursAgo(_) => 2
    case Yesterday => 3
    case DaysAgo(_) => 4
    case Older => 5
  }

  /** An older date never gets a more recent label, and within one bucket its
      count never decreases. */
  lemma ClassifyMonotone(d1: int, d2: int)
    requires d1 <= d2
    ensures Rank(Classify(d1)) <= Rank(Classify(d2))
    ensures Rank(Classify(d1)) == Rank(Classify(d2)) && Classify(d1).MinutesAgo? ==> Classify(d1).n <= Classify(d2).n
    ensures Rank(Classify(d1)) == Rank(Classify(d2)) && Classify(d1).HoursAgo? ==> Classify(d1).n <= Classify(d2).n
    ensures Rank(Classify(d1)) == Rank(Classify(d2)) && Classify(d1).DaysAgo? ==> Classify(d1).n <= Classify(d2).n
  {
    ClassifyRanges(d1);
    ClassifyRanges(d2);
    FloorMonotone(d1, d2, MsPerMinute);
    FloorMonotone(d1, d2, MsPerHour);
    FloorMonotone(d1, d2, MsPerDay);
  }

  /** A label in minutes, hours or days shows its count between "Hace " and
      the unit, and the count can be read back from the text. */
  lemma RenderShowsCount(n: nat, date: Timestamp)
    ensures var t := Render(MinutesAgo(n), date).text;
      Text.AllDigits(t[5..|t| - 4]) && Text.ParseNat(t[5..|t| - 4]) == n
    ensures var t := Render(HoursAgo(n), date).text;
      Text.AllDigits(t[5..|t| - 2]) && Text.ParseNat(t[5..|t| - 2]) == n
    ensures var t := Render(DaysAgo(n), date).text;
      Text.AllDigits(t[5..|t| - 5]) && Text.ParseNat(t[5..|t| - 5]) == n
  {
    var digits := Text.NatToString(n);
    var m := Render(MinutesAgo(n), date).text;
    var h := Render(HoursAgo(n), date).text;
    var d := Render(DaysAgo(n), date).text;
    assert m[5..|m| - 4] == digits;
    assert h[5..|h| - 2] == digits;
    assert d[5..|d| - 5] == digits;
    Text.ParseNatToString(n);
  }

  // ---------------------------------------------------------------------------
  // The two buttons

  datatype ClickTarget = ItemButton | DeleteButton

  /** What the sidebar hears: `onClick()` selects; `onDelete(id)` deletes. */
  datatype ItemEvent = SelectSession | DeleteSession(sessionId: string)

  /** A click in either layout (collapsed or not). The delete button exists
      only when the sidebar passes `onDelete`; it reports this session's id and
      stops the click from propagating, so it never selects. */
  function Click(session: ChatSession, target: ClickTarget, hasOnClick: bool, hasOnDelete: bool)
    : (events: seq<ItemEvent>)
    ensures target == DeleteButton ==> SelectSession !in events
    ensures target == DeleteButton && hasOnDelete ==> events == [DeleteSession(session.id)]
    ensures target == ItemButton ==> forall e :: e in events ==> e == SelectSession
    ensures |events| <= 1
  {
    match target
    case ItemButton => if hasOnClick then [SelectSession] else []
    case DeleteButton => if hasOnDelete then [DeleteSession(session.id)] else []
  }
}
