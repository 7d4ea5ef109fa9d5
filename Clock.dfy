/**
 * Rendering instants in the configured timezone. The timezone database and
 * `DateTime::format` are not modelled: a `Localizer` stands for "convert to
 * the application timezone", giving for each instant its wall-clock string
 * (`Y-m-d H:i:s`), its ISO-8601 weekday (`N`) and its hour (`H`).
 * `setTimezone` changes only the zone a `DateTime` is shown in, never its
 * instant, so the epoch seconds are passed through untouched.
 */
module Clock {
  import opened Php

  /** ISO-8601 day of the week: 1 (Monday) through 7 (Sunday). */
  type Weekday = w: int | 1 <= w <= 7 witness 1

  type Hour = h: int | 0 <= h < 24 witness 0

  datatype Local = Local(date: string, weekday: Weekday, hour: Hour)

  /** An instant, in epoch seconds, as seen in the configured timezone. */
  type Localizer = int -> Local

  /** `['date' => $t->format('Y-m-d H:i:s'), 'timestamp' => $t->getTimestamp()]`. */
  function Stamp(loc: Localizer, epoch: int): Value {
    Obj(map["date" := Str(loc(epoch).date), "timestamp" := Num(epoch)])
  }

  /** The timestamp half of a stamp does not depend on the timezone; only
      the date half does. */
  lemma StampTimestampIsZoneFree(loc1: Localizer, loc2: Localizer, epoch: int)
    ensures Prop(Stamp(loc1, epoch), "timestamp") == Prop(Stamp(loc2, epoch), "timestamp") == Num(epoch)
    ensures Prop(Stamp(loc1, epoch), "date") == Str(loc1(epoch).date)
    ensures Stamp(loc1, epoch).fields.Keys == {"date", "timestamp"}
  {
  }

  predicate IsDigit(c: char) {
    '0' <= c <= '9'
  }

  function DigitValue(c: char): int {
    c as int - '0' as int
  }

  function Digit(d: int): (c: char)
    requires 0 <= d <= 9
    ensures IsDigit(c) && DigitValue(c) == d
  {
    ('0' as int + d) as char
  }

  /** `$t->format('H')`: the hour as two decimal digits, zero-padded. */
  function TwoDigits(h: Hour): (r: string)
    ensures |r| == 2 && IsDigit(r[0]) && IsDigit(r[1])
    ensures DigitValue(r[0]) * 10 + DigitValue(r[1]) == h
  {
    [Digit(h / 10), Digit(h % 10)]
  }

  /** `$t->format('N')`: the ISO weekday as a one-character string. */
  function WeekdayKey(w: Weekday): (r: string)
    ensures |r| == 1 && '1' <= r[0] <= '7'
    ensures DigitValue(r[0]) == w
  {
    [Digit(w)]
  }

  /** `$from->format('H') . '-' . $to->format('H')`, e.g. `"06-09"`. */
  function SlotKey(from: Hour, to: Hour): (k: string)
    ensures |k| == 5 && k[2] == '-'
    ensures ParseSlot(k) == Some((from, to))
  {
    TwoDigits(from) + "-" + TwoDigits(to)
  }

  /** Reads a time-slot key back into its two hours. */
  function ParseSlot(k: string): Option<(Hour, Hour)> {
    if |k| == 5 && k[2] == '-' && IsDigit(k[0]) && IsDigit(k[1]) && IsDigit(k[3]) && IsDigit(k[4]) then
      var from := DigitValue(k[0]) * 10 + DigitValue(k[1]);
      var to := DigitValue(k[3]) * 10 + DigitValue(k[4]);
      if from < 24 && to < 24 then Some((from, to)) else None
    else
      None
  }

  /** Distinct hour pairs give distinct slot keys, so one day's slots never
      collide unless their hours coincide. */
  lemma SlotKeyInjective(f1: Hour, t1: Hour, f2: Hour, t2: Hour)
    ensures SlotKey(f1, t1) == SlotKey(f2, t2) <==> f1 == f2 && t1 == t2
  {
    if SlotKey(f1, t1) == SlotKey(f2, t2) {
      assert ParseSlot(SlotKey(f1, t1)) == ParseSlot(SlotKey(f2, t2));
    }
  }

  lemma WeekdayKeyInjective(w1: Weekday, w2: Weekday)
    ensures WeekdayKey(w1) == WeekdayKey(w2) <==> w1 == w2
  {
    if WeekdayKey(w1) == WeekdayKey(w2) {
      assert WeekdayKey(w1)[0] == WeekdayKey(w2)[0];
    }
  }
}
