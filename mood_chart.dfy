/**
 * The mood-trend chart: the trailing-window, per-day aggregation of entry
 * moods (with its order-dependent pairwise average), the chart's own state,
 * and the threshold classifier used in its tooltip.
 */
module MoodChart {
  import opened Wrappers
  import opened Types
  import opened JournalContext

  /** Milliseconds in a day. */
  const MsPerDay: int := 86400000

  /** The chart's window when the `days` prop is not given. */
  const DefaultDays: int := 7

  /** The calendar day (days since the epoch) of an instant: the date part of its ISO string. */
  function DayOf(t: int): int
  {
    t / MsPerDay
  }

  /** One point of the chart: a day and the mood value folded for it. */
  datatype ChartPoint = ChartPoint(day: int, value: real)

  /** The effect's filter: dated no earlier than `timeRange` days before `now` and no later than `now`. */
  predicate InWindow(e: Entry, now: int, timeRange: int)
  {
    now - timeRange * MsPerDay <= e.date <= now
  }

  /** `entries.filter(...)`: the entries inside the window, in their list order. */
  function Window(es: seq<Entry>, now: int, timeRange: int): (r: seq<Entry>)
    ensures |r| <= |es|
    ensures forall e :: e in r <==> e in es && InWindow(e, now, timeRange)
  {
    if es == [] then []
    else
      var rest := Window(es[..|es| - 1], now, timeRange);
      var last := es[|es| - 1];
      assert es == es[..|es| - 1] + [last];
      if InWindow(last, now, timeRange) then rest + [last] else rest
  }

  /** Filtering a concatenation filters each part. */
  lemma {:induction false} WindowConcat(a: seq<Entry>, b: seq<Entry>, now: int, timeRange: int)
    ensures Window(a + b, now, timeRange) == Window(a, now, timeRange) + Window(b, now, timeRange)
    decreases |b|
  {
    if b == [] {
      assert a + b == a;
    } else {
      var init := b[..|b| - 1];
      assert (a + b)[..|a + b| - 1] == a + init;
      assert (a + b)[|a + b| - 1] == b[|b| - 1];
      WindowConcat(a, init, now, timeRange);
    }
  }

  /**
   * The filter read from the front: it walks the list in order, keeping each
   * entry inside the window in its place and dropping the others.
   */
  lemma {:induction false} WindowKeepsOrder(es: seq<Entry>, now: int, timeRange: int)
    ensures Window(es, now, timeRange) ==
            if es == [] then []
            else (if InWindow(es[0], now, timeRange) then [es[0]] else []) + Window(es[1..], now, timeRange)
  {
    if es != [] {
      assert es == [es[0]] + es[1..];
      WindowConcat([es[0]], es[1..], now, timeRange);
      assert [es[0]][..0] == [];
    }
  }

  /** One step of the fold: the first mood sets the value, each later one averages with it. */
  function Fold(v: real, mood: Mood): real
  {
    if v != 0.0 then (v + mood as real) / 2.0 else mood as real
  }

  /**
   * The value the loop leaves in the bucket of `day` after visiting `es` in
   * order, starting from the sentinel 0.
   */
  function BucketValue(es: seq<Entry>, day: int): (v: real)
    ensures v == 0.0 || 1.0 <= v <= 5.0
    ensures v == 0.0 <==> forall k :: 0 <= k < |es| ==> DayOf(es[k].date) != day
  {
    if es == [] then 0.0
    else
      var prev := BucketValue(es[..|es| - 1], day);
      var last := es[|es| - 1];
      if DayOf(last.date) == day then Fold(prev, last.mood) else prev
  }

  /**
   * The non-empty buckets among the `count` days starting at `lo`, in
   * ascending day order.
   */
  function Series(w: seq<Entry>, lo: int, count: nat): (r: seq<ChartPoint>)
    ensures |r| <= count
    ensures forall i :: 0 <= i < |r| ==>
      lo <= r[i].day < lo + count && r[i].value == BucketValue(w, r[i].day) && 1.0 <= r[i].value <= 5.0
    ensures forall i, j :: 0 <= i < j < |r| ==> r[i].day < r[j].day
  {
    if count == 0 then []
    else
      var prev := Series(w, lo, count - 1);
      var d := lo + count - 1;
      var v := BucketValue(w, d);
      if v != 0.0 then prev + [ChartPoint(d, v)] else prev
  }

  /** The number of buckets the effect creates: `timeRange + 1`, none for a negative range. */
  function BucketCount(timeRange: int): (n: nat)
    ensures timeRange >= 0 ==> n == timeRange + 1
  {
    if timeRange >= 0 then timeRange + 1 else 0
  }

  /** The chart data the effect computes from a non-empty entry list. */
  function ChartSeries(es: seq<Entry>, now: int, timeRange: int): (r: seq<ChartPoint>)
    ensures |r| <= BucketCount(timeRange)
    ensures forall i, j :: 0 <= i < j < |r| ==> r[i].day < r[j].day
    ensures forall i :: 0 <= i < |r| ==>
      DayOf(now) - timeRange <= r[i].day <= DayOf(now) && 1.0 <= r[i].value <= 5.0
  {
    Series(Window(es, now, timeRange), DayOf(now) - timeRange, BucketCount(timeRange))
  }

  /** A day shows up in the series exactly when it lies in the range and its bucket is non-empty. */
  lemma {:induction false} SeriesMembers(w: seq<Entry>, lo: int, count: nat, d: int)
    ensures ChartPoint(d, BucketValue(w, d)) in Series(w, lo, count) <==>
            lo <= d < lo + count && BucketValue(w, d) != 0.0
  {
    if count > 0 {
      SeriesMembers(w, lo, count - 1, d);
    }
  }

  /** Every entry inside the window falls on one of the buckets' days. */
  lemma WindowDaysInRange(e: Entry, now: int, timeRange: int)
    requires InWindow(e, now, timeRange)
    ensures timeRange >= 0 && DayOf(now) - timeRange <= DayOf(e.date) <= DayOf(now)
  {
    var q := now / MsPerDay;
    assert now == q * MsPerDay + now % MsPerDay;
    assert e.date >= (q - timeRange) * MsPerDay;
  }

  /** Every entry inside the window puts a point for its day on the chart, carrying that day's folded value. */
  lemma EntryDayIsCharted(es: seq<Entry>, now: int, timeRange: int, e: Entry)
    requires e in es && InWindow(e, now, timeRange)
    ensures ChartPoint(DayOf(e.date), BucketValue(Window(es, now, timeRange), DayOf(e.date)))
            in ChartSeries(es, now, timeRange)
  {
    var w := Window(es, now, timeRange);
    assert e in w;
    WindowDaysInRange(e, now, timeRange);
    assert BucketCount(timeRange) == timeRange + 1;
    SeriesHasEntryDay(w, DayOf(now) - timeRange, BucketCount(timeRange), e);
    assert ChartSeries(es, now, timeRange) == Series(w, DayOf(now) - timeRange, BucketCount(timeRange));
  }

  /** An entry whose day is among the buckets puts that day's point in the series. */
  lemma SeriesHasEntryDay(w: seq<Entry>, lo: int, count: nat, e: Entry)
    requires e in w && lo <= DayOf(e.date) < lo + count
    ensures ChartPoint(DayOf(e.date), BucketValue(w, DayOf(e.date))) in Series(w, lo, count)
  {
    BucketOfMember(w, e);
    SeriesMembers(w, lo, count, DayOf(e.date));
  }

  /** The bucket of an entry's own day is not empty. */
  lemma BucketOfMember(w: seq<Entry>, e: Entry)
    requires e in w
    ensures BucketValue(w, DayOf(e.date)) != 0.0
  {
    var k :| 0 <= k < |w| && w[k] == e;
  }

  /** Every point of the chart is the day of some entry inside the window. */
  lemma ChartedDayHasEntry(es: seq<Entry>, now: int, timeRange: int, p: ChartPoint)
    requires p in ChartSeries(es, now, timeRange)
    ensures exists e :: e in es && InWindow(e, now, timeRange) && DayOf(e.date) == p.day
  {
    var w := Window(es, now, timeRange);
    var i :| 0 <= i < |ChartSeries(es, now, timeRange)| && ChartSeries(es, now, timeRange)[i] == p;
    assert BucketValue(w, p.day) != 0.0;
    var k :| 0 <= k < |w| && DayOf(w[k].date) == p.day;
    assert w[k] in w;
  }

  /** When every entry falls on one day inside the range, the series is that single day's point. */
  lemma {:induction false} SeriesOfOneDay(w: seq<Entry>, lo: int, count: nat, d: int)
    requires lo <= d < lo + count && w != []
    requires forall k :: 0 <= k < |w| ==> DayOf(w[k].date) == d
    ensures Series(w, lo, count) == [ChartPoint(d, BucketValue(w, d))]
  {
    if d < lo + count - 1 {
      SeriesOfOneDay(w, lo, count - 1, d);
      assert DayOf(w[0].date) != lo + count - 1;
    } else {
      assert DayOf(w[0].date) == d;
      SeriesOfNothingOnOtherDays(w, lo, count - 1, d);
    }
  }

  /** Days that no entry falls on contribute no point. */
  lemma {:induction false} SeriesOfNothingOnOtherDays(w: seq<Entry>, lo: int, count: nat, d: int)
    requires d >= lo + count
    requires forall k :: 0 <= k < |w| ==> DayOf(w[k].date) == d
    ensures Series(w, lo, count) == []
  {
    if count > 0 {
      SeriesOfNothingOnOtherDays(w, lo, count - 1, d);
    }
  }

  /** No entry inside the window leaves the chart empty. */
  lemma NothingInWindow(es: seq<Entry>, now: int, timeRange: int)
    requires forall e :: e in es ==> !InWindow(e, now, timeRange)
    ensures ChartSeries(es, now, timeRange) == []
  {
    WindowOfNothing(es, now, timeRange);
    SeriesOfNothing(DayOf(now) - timeRange, BucketCount(timeRange));
  }

  /** The filter keeps nothing when no entry is inside the window. */
  lemma {:induction false} WindowOfNothing(es: seq<Entry>, now: int, timeRange: int)
    requires forall e :: e in es ==> !InWindow(e, now, timeRange)
    ensures Window(es, now, timeRange) == []
  {
    if es != [] {
      assert es[|es| - 1] in es;
      assert forall e :: e in es[..|es| - 1] ==> e in es;
      WindowOfNothing(es[..|es| - 1], now, timeRange);
    }
  }

  /** The filter keeps everything, in order, when every entry is inside the window. */
  lemma {:induction false} WindowOfEverything(es: seq<Entry>, now: int, timeRange: int)
    requires forall i :: 0 <= i < |es| ==> InWindow(es[i], now, timeRange)
    ensures Window(es, now, timeRange) == es
  {
    if es != [] {
      var init, last := es[..|es| - 1], es[|es| - 1];
      WindowOfEverything(init, now, timeRange);
      assert es == init + [last];
    }
  }

  /** With no entries every bucket stays empty, so the series is empty. */
  lemma {:induction false} SeriesOfNothing(lo: int, count: nat)
    ensures Series([], lo, count) == []
  {
    if count > 0 {
      SeriesOfNothing(lo, count - 1);
    }
  }

  /** The effect's first loop: one bucket per day from `today` back `timeRange` days, each holding 0. */
  method InitBuckets(today: int, timeRange: int) returns (daysMap: map<int, real>)
    ensures forall d :: d in daysMap <==> today - BucketCount(timeRange) < d <= today
    ensures forall d :: d in daysMap ==> daysMap[d] == 0.0
  {
    daysMap := map[];
    var i := 0;
    while i <= timeRange
      invariant 0 <= i <= BucketCount(timeRange)
      invariant forall d :: d in daysMap <==> today - i < d <= today
      invariant forall d :: d in daysMap ==> daysMap[d] == 0.0
    {
      daysMap := daysMap[today - i := 0.0];
      i := i + 1;
    }
  }

  /** Visiting one more entry folds its mood into its own day's bucket and leaves the others alone. */
  lemma BucketStep(es: seq<Entry>, x: Entry)
    ensures forall d :: BucketValue(es + [x], d) == if DayOf(x.date) == d then Fold(BucketValue(es, d), x.mood) else BucketValue(es, d)
  {
    assert (es + [x])[..|es|] == es;
  }

  /**
   * The effect's `forEach`: fold each entry's mood into the bucket of its day;
   * an entry whose day has no bucket is skipped.
   */
  method FillBuckets(empty: map<int, real>, filtered: seq<Entry>) returns (daysMap: map<int, real>)
    requires forall d :: d in empty ==> empty[d] == 0.0
    ensures daysMap.Keys == empty.Keys
    ensures forall d :: d in daysMap ==> daysMap[d] == BucketValue(filtered, d)
  {
    daysMap := empty;
    var j := 0;
    while j < |filtered|
      invariant 0 <= j <= |filtered|
      invariant daysMap.Keys == empty.Keys
      invariant forall d :: d in daysMap ==> daysMap[d] == BucketValue(filtered[..j], d)
    {
      var entry := filtered[j];
      var dateStr := DayOf(entry.date);
      BucketStep(filtered[..j], entry);
      assert filtered[..j + 1] == filtered[..j] + [entry];
      if dateStr in daysMap {
        if daysMap[dateStr] != 0.0 {
          daysMap := daysMap[dateStr := (daysMap[dateStr] + entry.mood as real) / 2.0];
        } else {
          daysMap := daysMap[dateStr := entry.mood as real];
        }
      }
      j := j + 1;
    }
    assert filtered[..j] == filtered;
  }

  /**
   * The effect's conversion `Object.values(daysMap).filter(v !== 0).sort(by date)`:
   * the buckets are read in ascending day order, which is the order the sort
   * produces since no two buckets share a day.
   */
  method CollectBuckets(daysMap: map<int, real>, w: seq<Entry>, lo: int, count: nat) returns (data: seq<ChartPoint>)
    requires forall d :: lo <= d < lo + count ==> d in daysMap && daysMap[d] == BucketValue(w, d)
    ensures data == Series(w, lo, count)
  {
    data := [];
    var k := 0;
    while k < count
      invariant 0 <= k <= count
      invariant data == Series(w, lo, k)
    {
      var d := lo + k;
      if daysMap[d] != 0.0 {
        data := data + [ChartPoint(d, daysMap[d])];
      }
      k := k + 1;
    }
  }

  /** The effect's body after its early return. */
  method Aggregate(entries: seq<Entry>, now: int, timeRange: int) returns (data: seq<ChartPoint>)
    ensures data == ChartSeries(entries, now, timeRange)
  {
    var filtered := Window(entries, now, timeRange);
    var today := DayOf(now);
    var daysMap := InitBuckets(today, timeRange);
    daysMap := FillBuckets(daysMap, filtered);
    data := CollectBuckets(daysMap, filtered, today - timeRange, BucketCount(timeRange));
  }

  /** The effect as written: an empty entry list leaves the chart data as it was. */
  function EffectAsWritten(chartData: seq<ChartPoint>, es: seq<Entry>, now: int, timeRange: int): (r: seq<ChartPoint>)
    ensures es == [] ==> r == chartData
    ensures es != [] ==> r == ChartSeries(es, now, timeRange)
  {
    if es == [] then chartData else ChartSeries(es, now, timeRange)
  }

  /**
   * The journal holds one entry inside the window and the chart shows it; once
   * that entry is deleted the effect as written keeps the old, non-empty chart,
   * while the series of the now-empty list is empty.
   */
  lemma StaleChartAfterLastDelete(e: Entry, now: int, timeRange: int)
    requires InWindow(e, now, timeRange)
    ensures var before := ChartSeries([e], now, timeRange);
            var after := Remove([e], e.id);
            after == [] && before != [] &&
            EffectAsWritten(before, after, now, timeRange) == before &&
            ChartSeries(after, now, timeRange) == []
  {
    EntryDayIsCharted([e], now, timeRange, e);
    WindowDaysInRange(e, now, timeRange);
    SeriesOfNothing(DayOf(now) - timeRange, BucketCount(timeRange));
  }

  /** The corrected effect: the chart always shows the series of the current entries. */
  function Effect(es: seq<Entry>, now: int, timeRange: int): (r: seq<ChartPoint>)
    ensures es == [] ==> r == []
    ensures r == ChartSeries(es, now, timeRange)
  {
    if es == [] then
      SeriesOfNothing(DayOf(now) - timeRange, BucketCount(timeRange));
      []
    else ChartSeries(es, now, timeRange)
  }

  /** The tooltip's mood label. */
  datatype MoodLabel = VeryBad | Bad | Neutral | Good | VeryGood

  /** The mood level (minus one) a label names. */
  function Rank(l: MoodLabel): int
  {
    match l
    case VeryBad => 0
    case Bad => 1
    case Neutral => 2
    case Good => 3
    case VeryGood => 4
  }

  /** The text shown for a label. */
  function LabelText(l: MoodLabel): string
  {
    match l
    case VeryBad => "Very Bad"
    case Bad => "Bad"
    case Neutral => "Neutral"
    case Good => "Good"
    case VeryGood => "Very Good"
  }

  /**
   * `getEmotionFromValue`: the label whose level is `v` rounded half up,
   * clamped to the five levels.
   */
  function EmotionFromValue(v: real): (l: MoodLabel)
    ensures l != VeryBad ==> v >= Rank(l) as real + 0.5
    ensures l != VeryGood ==> v < Rank(l) as real + 1.5
  {
    if v >= 4.5 then VeryGood
    else if v >= 3.5 then Good
    else if v >= 2.5 then Neutral
    else if v >= 1.5 then Bad
    else VeryBad
  }

  /** A higher value never gets a lower label. */
  lemma EmotionFromValueMonotone(v: real, w: real)
    requires v <= w
    ensures Rank(EmotionFromValue(v)) <= Rank(EmotionFromValue(w))
  {
  }

  /** The five integer moods map to Very Bad, Bad, Neutral, Good, Very Good in order. */
  lemma EmotionFromMood(m: Mood)
    ensures Rank(EmotionFromValue(m as real)) == m - 1
    ensures LabelText(EmotionFromValue(m as real)) == ["Very Bad", "Bad", "Neutral", "Good", "Very Good"][m - 1]
  {
  }

  /**
   * Two entries made today inside the window, with moods 2 and 4: the chart
   * is the single point for today, with value 3.
   */
  lemma ExampleTwoEntries(a: Entry, b: Entry, now: int, timeRange: int)
    requires timeRange >= 0 && InWindow(a, now, timeRange) && InWindow(b, now, timeRange)
    requires DayOf(a.date) == DayOf(now) && DayOf(b.date) == DayOf(now)
    requires a.mood == 2 && b.mood == 4
    ensures ChartSeries([a, b], now, timeRange) == [ChartPoint(DayOf(now), 3.0)]
  {
    WindowOfPair(a, b, now, timeRange);
    PairSeries(a, b, DayOf(now) - timeRange, BucketCount(timeRange), DayOf(now));
  }

  /** Two entries inside the window both pass the filter, in order. */
  lemma WindowOfPair(a: Entry, b: Entry, now: int, timeRange: int)
    requires InWindow(a, now, timeRange) && InWindow(b, now, timeRange)
    ensures Window([a, b], now, timeRange) == [a, b]
  {
    assert [a, b][..1] == [a] && [a][..0] == [];
  }

  /** Moods 2 and 4 on one bucket day give the single point 3 for that day. */
  lemma PairSeries(a: Entry, b: Entry, lo: int, count: nat, d: int)
    requires lo <= d < lo + count
    requires DayOf(a.date) == d && DayOf(b.date) == d && a.mood == 2 && b.mood == 4
    ensures Series([a, b], lo, count) == [ChartPoint(d, 3.0)]
  {
    SeriesOfOneDay([a, b], lo, count, d);
    assert [a, b][..1] == [a] && [a][..0] == [];
  }

  /** Same-day moods 1, 5, 3 in that order give 3; in the order 3, 5, 1 they give 2.5. */
  lemma ExampleFoldIsOrderDependent(day: int)
    ensures BucketValue([Entry("a", day * MsPerDay, "", 1, []), Entry("b", day * MsPerDay, "", 5, []),
                         Entry("c", day * MsPerDay, "", 3, [])], day) == 3.0
    ensures BucketValue([Entry("c", day * MsPerDay, "", 3, []), Entry("b", day * MsPerDay, "", 5, []),
                         Entry("a", day * MsPerDay, "", 1, [])], day) == 2.5
  {
    var a, b, c := Entry("a", day * MsPerDay, "", 1, []), Entry("b", day * MsPerDay, "", 5, []),
                   Entry("c", day * MsPerDay, "", 3, []);
    assert DayOf(day * MsPerDay) == day;
    assert [a, b, c][..2] == [a, b] && [a, b][..1] == [a] && [a][..0] == [];
    assert BucketValue([a], day) == 1.0;
    assert BucketValue([a, b], day) == 3.0;
    assert [c, b, a][..2] == [c, b] && [c, b][..1] == [c] && [c][..0] == [];
    assert BucketValue([c], day) == 3.0;
    assert BucketValue([c, b], day) == 4.0;
  }

  /** The chart component's state: the computed points and the selected range. */
  class MoodChartView {
    var chartData: seq<ChartPoint>
    var timeRange: int

    /** Mount: no points yet; the range is the `days` prop, 7 when absent. */
    constructor (days: Option<int>)
      ensures chartData == []
      ensures timeRange == (if days.Some? then days.value else DefaultDays)
    {
      chartData := [];
      timeRange := if days.Some? then days.value else DefaultDays;
    }

    /** `handleTimeRangeChange`: select another range (the effect then runs again). */
    method HandleTimeRangeChange(newRange: int)
      modifies this
      ensures timeRange == newRange && chartData == old(chartData)
    {
      timeRange := newRange;
    }

    /** The effect as written, run after `entries` or `timeRange` changed. */
    method RefreshAsWritten(entries: seq<Entry>, now: int)
      modifies this
      ensures timeRange == old(timeRange)
      ensures chartData == EffectAsWritten(old(chartData), entries, now, timeRange)
    {
      if |entries| == 0 {
        return;
      }
      chartData := Aggregate(entries, now, timeRange);
    }

    /** The corrected effect: an empty list clears the chart. */
    method Refresh(entries: seq<Entry>, now: int)
      modifies this
      ensures timeRange == old(timeRange)
      ensures chartData == Effect(entries, now, timeRange)
    {
      chartData := Aggregate(entries, now, timeRange);
    }
  }
}
