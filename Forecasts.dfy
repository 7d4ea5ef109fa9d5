/**
 * `processForecastData`: the forecast's metadata, normalised like any
 * snapshot, plus a `days` table that groups the 3-hour intervals by ISO
 * weekday and by `"HH-HH"` time slot.
 *
 * An interval is stored only when its localized day string equals that of
 * the interval just before it. The first interval of the whole sequence,
 * and the first interval of every run of equal day strings, is therefore
 * never stored. `Bucket` states that rule without the loop's `last_day`
 * marker; `GroupIntervals` is the loop itself, proved to agree with it.
 */
module Forecasts {
  import opened Php
  import opened Clock
  import opened Snapshot

  /** An interval's time window, as instants. */
  datatype Window = Window(from: int, to: int, day: int)

  /** `$obj->time->name`. */
  function TimeProp(obj: Fields, name: string): Value {
    Prop(Prop(Obj(obj), "time"), name)
  }

  /** Reads `time->day`, `time->from` and `time->to`, in that order; each
      must be a `DateTime`, since `setTimezone` is called on it. */
  function WindowOf(obj: Fields): (r: Result<Window>)
    ensures r.Success? <==> TimeProp(obj, "day").Time? && TimeProp(obj, "from").Time? && TimeProp(obj, "to").Time?
    ensures r.Success? ==> "time" in obj && obj["time"].Obj?
    ensures r.Success? ==>
      r.value == Window(TimeProp(obj, "from").epoch, TimeProp(obj, "to").epoch, TimeProp(obj, "day").epoch)
    ensures !TimeProp(obj, "day").Time? ==> r == Failure(NotADateTime("time.day"))
    ensures TimeProp(obj, "day").Time? && !TimeProp(obj, "from").Time? ==> r == Failure(NotADateTime("time.from"))
    ensures TimeProp(obj, "day").Time? && TimeProp(obj, "from").Time? && !TimeProp(obj, "to").Time? ==>
      r == Failure(NotADateTime("time.to"))
  {
    var day := TimeProp(obj, "day");
    var from := TimeProp(obj, "from");
    var to := TimeProp(obj, "to");
    if !day.Time? then Failure(NotADateTime("time.day"))
    else if !from.Time? then Failure(NotADateTime("time.from"))
    else if !to.Time? then Failure(NotADateTime("time.to"))
    else Success(Window(from.epoch, to.epoch, day.epoch))
  }

  /** `$temp`: the window's three instants, each as a `{date, timestamp}` pair. */
  function TimeBlock(loc: Localizer, w: Window): Fields {
    map["time" := Obj(map["from" := Stamp(loc, w.from), "to" := Stamp(loc, w.to), "day" := Stamp(loc, w.day)])]
  }

  /** `$day->format('Y-m-d H:i:s')`: the string the same-day test compares. */
  function DayString(loc: Localizer, obj: Fields): string
    requires WindowOf(obj).Success?
  {
    loc(WindowOf(obj).value.day).date
  }

  /** `[$day_key, $time_key]`: where an interval is stored. */
  function SlotOf(loc: Localizer, obj: Fields): (string, string)
    requires WindowOf(obj).Success?
  {
    var w := WindowOf(obj).value;
    (WeekdayKey(loc(w.day).weekday), SlotKey(loc(w.from).hour, loc(w.to).hour))
  }

  /** `array_merge($temp, processData($obj))`: what is stored for an interval. */
  function Entry(loc: Localizer, obj: Fields): Result<Fields>
    requires WindowOf(obj).Success?
  {
    var processed :- ProcessData(loc, obj);
    Success(Merge(TimeBlock(loc, WindowOf(obj).value), processed))
  }

  /** Interval `i` is stored: it has a predecessor and both render the same
      localized day string. */
  predicate SameDayAsPrevious(loc: Localizer, ivs: seq<Fields>, i: int) {
    && 0 < i < |ivs|
    && WindowOf(ivs[i]).Success?
    && WindowOf(ivs[i - 1]).Success?
    && DayString(loc, ivs[i]) == DayString(loc, ivs[i - 1])
  }

  /** `$data['days']`: ISO weekday key, then time-slot key, then the entry. */
  type Days = map<string, map<string, Fields>>

  predicate Stored(days: Days, d: string, t: string) {
    d in days && t in days[d]
  }

  /** `$data['days'][$d][$t] = $e`: creates the weekday's table when absent
      and overwrites an earlier entry in the same slot. */
  function Put(days: Days, d: string, t: string, e: Fields): (r: Days)
    ensures r.Keys == days.Keys + {d}
    ensures Stored(r, d, t) && r[d][t] == e
    ensures forall d', t' :: Stored(r, d', t') <==> Stored(days, d', t') || (d' == d && t' == t)
    ensures forall d', t' :: Stored(days, d', t') && (d' != d || t' != t) ==> Stored(r, d', t') && r[d'][t'] == days[d'][t']
  {
    var slots := if d in days then days[d] else map[];
    days[d := slots[t := e]]
  }

  /** The grouping rule over the first `n` intervals, stated without the
      loop's marker: the first failure in sequence order wins, and a stored
      interval is written over whatever its slot held. */
  function BucketUpTo(loc: Localizer, ivs: seq<Fields>, n: nat): Result<Days>
    requires n <= |ivs|
    decreases n
  {
    if n == 0 then
      Success(map[])
    else
      var days :- BucketUpTo(loc, ivs, n - 1);
      var _ :- WindowOf(ivs[n - 1]);
      if SameDayAsPrevious(loc, ivs, n - 1) then
        var e :- Entry(loc, ivs[n - 1]);
        var (d, t) := SlotOf(loc, ivs[n - 1]);
        Success(Put(days, d, t, e))
      else
        Success(days)
  }

  function Bucket(loc: Localizer, ivs: seq<Fields>): Result<Days> {
    BucketUpTo(loc, ivs, |ivs|)
  }

  /** The `days` field is present only when something was stored. */
  function WithDays(top: Fields, days: Days): Fields {
    if days == map[] then top
    else top["days" := Obj(map d | d in days :: Obj(map t | t in days[d] :: Obj(days[d][t])))]
  }

  /** Lines 127-129: the metadata, without the interval list and the
      iterator position, normalised like a snapshot. */
  function Metadata(loc: Localizer, dataset: Fields): Result<Fields> {
    ProcessData(loc, Except(dataset, {"forecasts", "position"}))
  }

  /** What `processForecastData` returns for a forecast whose properties are
      `dataset` and whose iteration yields `intervals`. */
  function ForecastOutput(loc: Localizer, dataset: Fields, intervals: seq<Fields>): Result<Fields> {
    var top :- Metadata(loc, dataset);
    var days :- Bucket(loc, intervals);
    Success(WithDays(top, days))
  }

  /** Lines 121-174: the metadata first, then the grouping loop, then the
      `days` table attached to the metadata. */
  method ProcessForecastData(loc: Localizer, dataset: Fields, intervals: seq<Fields>) returns (r: Result<Fields>)
    ensures r == ForecastOutput(loc, dataset, intervals)
  {
    var data :- Metadata(loc, dataset);
    var days :- GroupIntervals(loc, intervals);
    r := Success(WithDays(data, days));
  }

  /** What `$last_day` holds before interval `i` is visited: unset before
      the first interval, then the day string of interval `i - 1`. */
  function Marker(loc: Localizer, ivs: seq<Fields>, i: nat): Option<string>
    requires i <= |ivs|
  {
    if i == 0 || WindowOf(ivs[i - 1]).Failure? then None else Some(DayString(loc, ivs[i - 1]))
  }

  /** The loop of lines 131-171. The `last_day` marker holds the day string
      of the interval just processed, whether or not it was stored. */
  method GroupIntervals(loc: Localizer, intervals: seq<Fields>) returns (r: Result<Days>)
    ensures r == Bucket(loc, intervals)
  {
    var days: Days := map[];
    var lastDay: Option<string> := None;
    var i := 0;
    while i < |intervals|
      invariant 0 <= i <= |intervals|
      invariant BucketUpTo(loc, intervals, i) == Success(days)
      invariant lastDay == Marker(loc, intervals, i)
    {
      r, lastDay := VisitInterval(loc, intervals, i, days, lastDay);
      if r.Failure? {
        return;
      }
      days := r.value;
      i := i + 1;
    }
    r := Success(days);
  }

  /** One pass of the loop body (lines 132-170) over interval `i`: read its
      window, and store it when its day string equals the marker. The
      result is the grouping of the first `i + 1` intervals, or the fault
      that ends the whole grouping; the marker moves to interval `i`. */
  method VisitInterval(loc: Localizer, intervals: seq<Fields>, i: nat, days: Days, lastDay: Option<string>)
    returns (r: Result<Days>, marker: Option<string>)
    requires i < |intervals|
    requires BucketUpTo(loc, intervals, i) == Success(days)
    requires lastDay == Marker(loc, intervals, i)
    ensures r.Failure? ==> r == Bucket(loc, intervals)
    ensures r.Success? ==> r == BucketUpTo(loc, intervals, i + 1) && marker == Marker(loc, intervals, i + 1)
  {
    BucketVisits(loc, intervals, i + 1, days, lastDay);
    marker := lastDay;
    var obj := intervals[i];
    var w :- WindowOf(obj);
    var day, from, to := loc(w.day), loc(w.from), loc(w.to);
    var temp := TimeBlock(loc, w);
    var next := days;
    if lastDay == Some(day.date) {
      var processed :- ProcessData(loc, obj);
      var dayKey := WeekdayKey(day.weekday);
      var timeKey := SlotKey(from.hour, to.hour);
      var slots := if dayKey in days then days[dayKey] else map[];
      next := days[dayKey := slots[timeKey := Merge(temp, processed)]];
    }
    marker := Some(day.date);
    r := Success(next);
  }

  /** One visit of the loop, stated against the grouping rule: interval
      `n - 1` is stored exactly when the marker equals its day string; a
      missing window, or missing instants on a stored interval, ends the
      whole grouping with that fault; otherwise the grouping of the first
      `n` intervals is the loop's updated table and the marker moves on. */
  lemma BucketVisits(loc: Localizer, ivs: seq<Fields>, n: nat, days: Days, lastDay: Option<string>)
    requires 0 < n <= |ivs|
    requires BucketUpTo(loc, ivs, n - 1) == Success(days)
    requires lastDay == Marker(loc, ivs, n - 1)
    ensures WindowOf(ivs[n - 1]).Failure? ==> Bucket(loc, ivs) == Failure(WindowOf(ivs[n - 1]).fault)
    ensures WindowOf(ivs[n - 1]).Success? ==>
      var w := WindowOf(ivs[n - 1]).value;
      && Marker(loc, ivs, n) == Some(loc(w.day).date)
      && (SameDayAsPrevious(loc, ivs, n - 1) <==> lastDay == Some(loc(w.day).date))
      && (lastDay != Some(loc(w.day).date) ==> BucketUpTo(loc, ivs, n) == Success(days))
      && (lastDay == Some(loc(w.day).date) && !HasDates(ivs[n - 1]) ==>
            Bucket(loc, ivs) == Failure(MissingDate(ivs[n - 1])))
      && (lastDay == Some(loc(w.day).date) && HasDates(ivs[n - 1]) ==>
            var dayKey := WeekdayKey(loc(w.day).weekday);
            var slots := if dayKey in days then days[dayKey] else map[];
            BucketUpTo(loc, ivs, n) == Success(days[dayKey := slots[SlotKey(loc(w.from).hour, loc(w.to).hour) :=
              Merge(TimeBlock(loc, w), ProcessData(loc, ivs[n - 1]).value)]]))
  {
    BucketNext(loc, ivs, n, days);
    if BucketUpTo(loc, ivs, n).Failure? {
      BucketFailurePersists(loc, ivs, n, |ivs|);
    }
  }

  /** The grouping of the first `n` intervals, given that of the first
      `n - 1`: interval `n - 1` fails, is skipped, or is stored. */
  lemma BucketNext(loc: Localizer, ivs: seq<Fields>, n: nat, days: Days)
    requires 0 < n <= |ivs|
    requires BucketUpTo(loc, ivs, n - 1) == Success(days)
    ensures WindowOf(ivs[n - 1]).Failure? ==> BucketUpTo(loc, ivs, n) == Failure(WindowOf(ivs[n - 1]).fault)
    ensures WindowOf(ivs[n - 1]).Success? && !SameDayAsPrevious(loc, ivs, n - 1) ==> BucketUpTo(loc, ivs, n) == Success(days)
    ensures SameDayAsPrevious(loc, ivs, n - 1) && !HasDates(ivs[n - 1]) ==>
      BucketUpTo(loc, ivs, n) == Failure(ProcessData(loc, ivs[n - 1]).fault)
    ensures SameDayAsPrevious(loc, ivs, n - 1) && HasDates(ivs[n - 1]) ==>
      BucketUpTo(loc, ivs, n) == Success(Put(days, SlotOf(loc, ivs[n - 1]).0, SlotOf(loc, ivs[n - 1]).1,
        Merge(TimeBlock(loc, WindowOf(ivs[n - 1]).value), ProcessData(loc, ivs[n - 1]).value)))
  {
  }

  /** Once a prefix fails, every longer prefix fails with the same fault. */
  lemma {:induction false} BucketFailurePersists(loc: Localizer, ivs: seq<Fields>, m: nat, n: nat)
    requires m <= n <= |ivs|
    requires BucketUpTo(loc, ivs, m).Failure?
    ensures BucketUpTo(loc, ivs, n) == BucketUpTo(loc, ivs, m)
    decreases n
  {
    if m < n {
      BucketFailurePersists(loc, ivs, m, n - 1);
    }
  }

  predicate WindowsReadable(ivs: seq<Fields>, n: nat) {
    forall i :: 0 <= i < n && i < |ivs| ==> WindowOf(ivs[i]).Success?
  }

  predicate RepeatsHaveDates(loc: Localizer, ivs: seq<Fields>, n: nat) {
    forall i :: 0 <= i < n && SameDayAsPrevious(loc, ivs, i) ==> HasDates(ivs[i])
  }

  /** The grouping of the first `n` intervals fails exactly when one of them
      has no readable window, or one that is stored has no readable
      `sun`/`lastUpdate` instants. */
  lemma {:induction false} BucketSucceeds(loc: Localizer, ivs: seq<Fields>, n: nat)
    requires n <= |ivs|
    ensures BucketUpTo(loc, ivs, n).Success? <==> WindowsReadable(ivs, n) && RepeatsHaveDates(loc, ivs, n)
    decreases n
  {
    if n > 0 {
      BucketSucceeds(loc, ivs, n - 1);
      SucceedsStep(loc, ivs, n);
      ConditionsStep(loc, ivs, n);
    }
  }

  /** The first `n` intervals are grouped without failure exactly when the
      first `n - 1` are and interval `n - 1` meets its own condition. */
  lemma SucceedsStep(loc: Localizer, ivs: seq<Fields>, n: nat)
    requires 0 < n <= |ivs|
    ensures BucketUpTo(loc, ivs, n).Success? <==>
      && BucketUpTo(loc, ivs, n - 1).Success?
      && WindowOf(ivs[n - 1]).Success?
      && (SameDayAsPrevious(loc, ivs, n - 1) ==> HasDates(ivs[n - 1]))
  {
    if BucketUpTo(loc, ivs, n - 1).Success? {
      BucketNext(loc, ivs, n, BucketUpTo(loc, ivs, n - 1).value);
    }
  }

  /** Both success conditions over `n` intervals are those over `n - 1`
      plus the condition on interval `n - 1`. */
  lemma ConditionsStep(loc: Localizer, ivs: seq<Fields>, n: nat)
    requires 0 < n <= |ivs|
    ensures WindowsReadable(ivs, n) <==> WindowsReadable(ivs, n - 1) && WindowOf(ivs[n - 1]).Success?
    ensures RepeatsHaveDates(loc, ivs, n) <==>
      RepeatsHaveDates(loc, ivs, n - 1) && (SameDayAsPrevious(loc, ivs, n - 1) ==> HasDates(ivs[n - 1]))
  {
  }

  /** Among the first `n` intervals, `i` is the last stored one in slot `(d, t)`. */
  predicate LastWriter(loc: Localizer, ivs: seq<Fields>, n: nat, i: int, d: string, t: string) {
    && i < n
    && SameDayAsPrevious(loc, ivs, i)
    && SlotOf(loc, ivs[i]) == (d, t)
    && forall j :: i < j < n && SameDayAsPrevious(loc, ivs, j) ==> SlotOf(loc, ivs[j]) != (d, t)
  }

  /** Every stored interval's slot is present in the table. */
  lemma {:induction false} BucketStoresEveryRepeat(loc: Localizer, ivs: seq<Fields>, n: nat, days: Days)
    requires n <= |ivs|
    requires BucketUpTo(loc, ivs, n) == Success(days)
    ensures forall i :: 0 <= i < n && SameDayAsPrevious(loc, ivs, i) ==>
      Stored(days, SlotOf(loc, ivs[i]).0, SlotOf(loc, ivs[i]).1)
    decreases n
  {
    if n > 0 {
      BucketStep(loc, ivs, n);
      var days0 := BucketUpTo(loc, ivs, n - 1).value;
      BucketStoresEveryRepeat(loc, ivs, n - 1, days0);
      forall i | 0 <= i < n && SameDayAsPrevious(loc, ivs, i)
        ensures Stored(days, SlotOf(loc, ivs[i]).0, SlotOf(loc, ivs[i]).1)
      {
        if i < n - 1 {
          assert Stored(days0, SlotOf(loc, ivs[i]).0, SlotOf(loc, ivs[i]).1);
        }
      }
    }
  }

  /** One step of the grouping: interval `n - 1` is either stored over the
      table of the first `n - 1` intervals, or skipped. */
  lemma BucketStep(loc: Localizer, ivs: seq<Fields>, n: nat)
    requires 0 < n <= |ivs|
    requires BucketUpTo(loc, ivs, n).Success?
    ensures BucketUpTo(loc, ivs, n - 1).Success?
    ensures SameDayAsPrevious(loc, ivs, n - 1) ==>
      && Entry(loc, ivs[n - 1]).Success?
      && BucketUpTo(loc, ivs, n).value ==
        Put(BucketUpTo(loc, ivs, n - 1).value, SlotOf(loc, ivs[n - 1]).0, SlotOf(loc, ivs[n - 1]).1, Entry(loc, ivs[n - 1]).value)
    ensures !SameDayAsPrevious(loc, ivs, n - 1) ==> BucketUpTo(loc, ivs, n).value == BucketUpTo(loc, ivs, n - 1).value
  {
  }

  /** A last writer stays the last writer when the next interval does not
      write to its slot. */
  lemma LastWriterExtends(loc: Localizer, ivs: seq<Fields>, n: nat, i: int, d: string, t: string)
    requires 0 < n <= |ivs|
    requires LastWriter(loc, ivs, n - 1, i, d, t)
    requires !(SameDayAsPrevious(loc, ivs, n - 1) && SlotOf(loc, ivs[n - 1]) == (d, t))
    ensures LastWriter(loc, ivs, n, i, d, t)
  {
  }

  /** Every entry of the table is the entry of the last stored interval in
      its slot: later writers overwrite earlier ones. */
  lemma {:induction false} BucketEntriesComeFromLastWriter(loc: Localizer, ivs: seq<Fields>, n: nat, days: Days)
    requires n <= |ivs|
    requires BucketUpTo(loc, ivs, n) == Success(days)
    ensures forall d, t :: Stored(days, d, t) ==>
      exists i :: LastWriter(loc, ivs, n, i, d, t) && Entry(loc, ivs[i]) == Success(days[d][t])
    decreases n
  {
    if n > 0 {
      BucketStep(loc, ivs, n);
      var days0 := BucketUpTo(loc, ivs, n - 1).value;
      BucketEntriesComeFromLastWriter(loc, ivs, n - 1, days0);
      forall d, t | Stored(days, d, t)
        ensures exists i :: LastWriter(loc, ivs, n, i, d, t) && Entry(loc, ivs[i]) == Success(days[d][t])
      {
        if SameDayAsPrevious(loc, ivs, n - 1) && SlotOf(loc, ivs[n - 1]) == (d, t) {
          assert LastWriter(loc, ivs, n, n - 1, d, t);
        } else {
          assert Stored(days0, d, t) && days[d][t] == days0[d][t];
          var i :| LastWriter(loc, ivs, n - 1, i, d, t) && Entry(loc, ivs[i]) == Success(days0[d][t]);
          LastWriterExtends(loc, ivs, n, i, d, t);
        }
      }
    }
  }

  /** The table holds a slot exactly when some stored interval maps to it, and
      what it holds is the last such interval's entry. */
  lemma BucketContents(loc: Localizer, ivs: seq<Fields>, days: Days, d: string, t: string)
    requires Bucket(loc, ivs) == Success(days)
    ensures Stored(days, d, t) <==> exists i :: SameDayAsPrevious(loc, ivs, i) && SlotOf(loc, ivs[i]) == (d, t)
    ensures forall i :: LastWriter(loc, ivs, |ivs|, i, d, t) ==> Entry(loc, ivs[i]) == Success(days[d][t])
  {
    BucketStoresEveryRepeat(loc, ivs, |ivs|, days);
    BucketEntriesComeFromLastWriter(loc, ivs, |ivs|, days);
    forall i | LastWriter(loc, ivs, |ivs|, i, d, t)
      ensures Entry(loc, ivs[i]) == Success(days[d][t])
    {
      assert Stored(days, d, t);
      var k :| LastWriter(loc, ivs, |ivs|, k, d, t) && Entry(loc, ivs[k]) == Success(days[d][t]);
      assert k == i;
    }
  }

  /** Every weekday key of the table is a digit from `1` to `7`, and every
      slot key parses back into two hours. */
  lemma BucketKeyShape(loc: Localizer, ivs: seq<Fields>, days: Days, d: string, t: string)
    requires Bucket(loc, ivs) == Success(days)
    requires Stored(days, d, t)
    ensures |d| == 1 && '1' <= d[0] <= '7'
    ensures ParseSlot(t).Some?
  {
    BucketContents(loc, ivs, days, d, t);
  }

  /** The first interval of the sequence, and the first of every run of equal
      day strings, is never stored: its slot is absent unless a stored
      interval happens to share it. */
  lemma FirstOfRunNotStored(loc: Localizer, ivs: seq<Fields>, days: Days, i: nat)
    requires Bucket(loc, ivs) == Success(days)
    requires i < |ivs| && WindowOf(ivs[i]).Success?
    requires i == 0 || (WindowOf(ivs[i - 1]).Success? && DayString(loc, ivs[i]) != DayString(loc, ivs[i - 1]))
    requires forall j :: SameDayAsPrevious(loc, ivs, j) ==> SlotOf(loc, ivs[j]) != SlotOf(loc, ivs[i])
    ensures !SameDayAsPrevious(loc, ivs, i)
    ensures !Stored(days, SlotOf(loc, ivs[i]).0, SlotOf(loc, ivs[i]).1)
  {
    BucketContents(loc, ivs, days, SlotOf(loc, ivs[i]).0, SlotOf(loc, ivs[i]).1);
  }

  /** When no two consecutive intervals share a day string, nothing is stored. */
  lemma NoRepeatNoDays(loc: Localizer, ivs: seq<Fields>, days: Days)
    requires Bucket(loc, ivs) == Success(days)
    ensures days == map[] <==> forall i :: !SameDayAsPrevious(loc, ivs, i)
  {
    BucketStoresEveryRepeat(loc, ivs, |ivs|, days);
    if days != map[] {
      var d :| d in days;
      BucketEmptyDay(loc, ivs, |ivs|, days, d);
      var t :| t in days[d];
      BucketContents(loc, ivs, days, d, t);
    }
  }

  /** No weekday table is ever empty: a weekday key appears only with a slot. */
  lemma {:induction false} BucketEmptyDay(loc: Localizer, ivs: seq<Fields>, n: nat, days: Days, d: string)
    requires n <= |ivs|
    requires BucketUpTo(loc, ivs, n) == Success(days)
    requires d in days
    ensures days[d] != map[]
    decreases n
  {
    if n > 0 {
      BucketStep(loc, ivs, n);
      var days0 := BucketUpTo(loc, ivs, n - 1).value;
      if d in days0 {
        BucketEmptyDay(loc, ivs, n - 1, days0, d);
        var t :| t in days0[d];
        assert Stored(days0, d, t);
      }
    }
  }

  /** Three intervals, the first two on one day and the third on the next:
      only the second is stored, so `days` has exactly one entry. */
  lemma TwoDaysExample(loc: Localizer, a: Fields, b: Fields, c: Fields)
    requires WindowOf(a).Success? && WindowOf(b).Success? && WindowOf(c).Success?
    requires DayString(loc, a) == DayString(loc, b) != DayString(loc, c)
    requires HasDates(b)
    ensures Bucket(loc, [a, b, c]) == Success(map[SlotOf(loc, b).0 := map[SlotOf(loc, b).1 := Entry(loc, b).value]])
  {
    var ivs := [a, b, c];
    assert BucketUpTo(loc, ivs, 1) == Success(map[]);
    assert SameDayAsPrevious(loc, ivs, 1);
    assert !SameDayAsPrevious(loc, ivs, 2);
  }

  /** A stored entry keeps the interval's own `time` property: the later
      argument of `array_merge` wins, so the `{date, timestamp}` window built
      in `$temp` never reaches the output. */
  lemma StoredTimeIsProviderTime(loc: Localizer, obj: Fields)
    requires WindowOf(obj).Success? && HasDates(obj)
    ensures var e := Entry(loc, obj).value;
      && e.Keys == obj.Keys + {"sun", "lastUpdate"}
      && e["time"] == obj["time"]
      && e["time"] != TimeBlock(loc, WindowOf(obj).value)["time"]
  {
    var stamped := TimeBlock(loc, WindowOf(obj).value)["time"];
    assert Prop(stamped, "day") == Stamp(loc, WindowOf(obj).value.day);
    assert TimeProp(obj, "day").Time?;
  }

  /** The forecast output: metadata errors come first; on success every
      metadata key other than `days`, `forecasts` and `position` is kept as
      `processData` left it, and `days` is present exactly when some interval
      was stored. */
  lemma ForecastOutputShape(loc: Localizer, dataset: Fields, intervals: seq<Fields>)
    ensures Metadata(loc, dataset).Failure? ==> ForecastOutput(loc, dataset, intervals) == Metadata(loc, dataset)
    ensures ForecastOutput(loc, dataset, intervals).Success? ==>
      var out := ForecastOutput(loc, dataset, intervals).value;
      var top := Metadata(loc, dataset).value;
      && "forecasts" !in out && "position" !in out
      && (forall k :: k != "days" ==> (k in out <==> k in top))
      && (forall k :: k in top && k != "days" ==> out[k] == top[k])
      && ("sun" in out && "lastUpdate" in out)
      && (("days" in out && "days" !in top) ==> exists i :: SameDayAsPrevious(loc, intervals, i))
      && ((exists i :: SameDayAsPrevious(loc, intervals, i)) ==> "days" in out && out["days"].Obj?)
  {
    if ForecastOutput(loc, dataset, intervals).Success? {
      var days := Bucket(loc, intervals).value;
      NoRepeatNoDays(loc, intervals, days);
    }
  }
}
