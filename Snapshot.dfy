/**
 * `processData`: a weather snapshot's properties, with `sun.rise`,
 * `sun.set` and `lastUpdate` replaced by `{date, timestamp}` pairs in the
 * configured timezone. Used on a current-weather result, on the forecast's
 * metadata, and on every stored forecast interval.
 */
module Snapshot {
  import opened Php
  import opened Clock

  /** `$obj->sun->rise`, `$obj->sun->set` and `$obj->lastUpdate`. */
  function Rise(obj: Fields): Value {
    Prop(Prop(Obj(obj), "sun"), "rise")
  }

  function Set(obj: Fields): Value {
    Prop(Prop(Obj(obj), "sun"), "set")
  }

  function Updated(obj: Fields): Value {
    Prop(Obj(obj), "lastUpdate")
  }

  /** The three instants `processData` converts are all `DateTime`s. */
  predicate HasDates(obj: Fields) {
    Rise(obj).Time? && Set(obj).Time? && Updated(obj).Time?
  }

  /** The first of the three reads, in evaluation order, that is not a `DateTime`. */
  function MissingDate(obj: Fields): Fault
    requires !HasDates(obj)
  {
    if !Rise(obj).Time? then NotADateTime("sun.rise")
    else if !Set(obj).Time? then NotADateTime("sun.set")
    else NotADateTime("lastUpdate")
  }

  /** `processData($obj)`: `array_merge((array) $obj, ['sun' => …, 'lastUpdate' => …])`. */
  function ProcessData(loc: Localizer, obj: Fields): (r: Result<Fields>)
    ensures r.Failure? <==> !HasDates(obj)
    ensures r.Failure? ==> r.fault == MissingDate(obj)
    ensures r.Success? ==> r.value.Keys == obj.Keys + {"sun", "lastUpdate"}
    ensures r.Success? ==> forall k :: k in obj && k != "sun" && k != "lastUpdate" ==> r.value[k] == obj[k]
  {
    if !HasDates(obj) then
      Failure(MissingDate(obj))
    else
      var processed := map[
        "sun" := Obj(map["rise" := Stamp(loc, Rise(obj).epoch), "set" := Stamp(loc, Set(obj).epoch)]),
        "lastUpdate" := Stamp(loc, Updated(obj).epoch)];
      Success(Merge(obj, processed))
  }

  /** `sun` holds exactly `rise` and `set`, each converted instant is a
      `{date, timestamp}` pair, and it keeps its epoch seconds, whatever the
      timezone. */
  lemma ProcessDataKeepsInstants(loc: Localizer, obj: Fields)
    requires HasDates(obj)
    ensures var out := Obj(ProcessData(loc, obj).value);
      && Prop(out, "sun").Obj?
      && Prop(out, "sun").fields.Keys == {"rise", "set"}
      && Prop(Prop(Prop(out, "sun"), "rise"), "timestamp") == Num(Rise(obj).epoch)
      && Prop(Prop(Prop(out, "sun"), "set"), "timestamp") == Num(Set(obj).epoch)
      && Prop(Prop(out, "lastUpdate"), "timestamp") == Num(Updated(obj).epoch)
      && Prop(Prop(out, "sun"), "rise") == Stamp(loc, Rise(obj).epoch)
      && Prop(Prop(out, "sun"), "set") == Stamp(loc, Set(obj).epoch)
      && Prop(out, "lastUpdate") == Stamp(loc, Updated(obj).epoch)
  {
    var out := Obj(ProcessData(loc, obj).value);
    assert Prop(out, "sun") == Obj(map["rise" := Stamp(loc, Rise(obj).epoch), "set" := Stamp(loc, Set(obj).epoch)]);
    assert Prop(out, "lastUpdate") == Stamp(loc, Updated(obj).epoch);
  }

  /** Each converted instant's `date` is its wall-clock string in the
      configured timezone. */
  lemma ProcessDataLocalDates(loc: Localizer, obj: Fields)
    requires HasDates(obj)
    ensures var out := Obj(ProcessData(loc, obj).value);
      && Prop(Prop(Prop(out, "sun"), "rise"), "date") == Str(loc(Rise(obj).epoch).date)
      && Prop(Prop(Prop(out, "sun"), "set"), "date") == Str(loc(Set(obj).epoch).date)
      && Prop(Prop(out, "lastUpdate"), "date") == Str(loc(Updated(obj).epoch).date)
  {
    var out := Obj(ProcessData(loc, obj).value);
    assert Prop(out, "sun") == Obj(map["rise" := Stamp(loc, Rise(obj).epoch), "set" := Stamp(loc, Set(obj).epoch)]);
    assert Prop(out, "lastUpdate") == Stamp(loc, Updated(obj).epoch);
  }

  /** Two timezones give results that differ at most in the `date` strings:
      same outcome, same keys, and the same value at every key that is not
      converted. */
  lemma ProcessDataZoneIndependent(loc1: Localizer, loc2: Localizer, obj: Fields)
    ensures ProcessData(loc1, obj).Success? == ProcessData(loc2, obj).Success?
    ensures ProcessData(loc1, obj).Failure? ==> ProcessData(loc1, obj) == ProcessData(loc2, obj)
    ensures ProcessData(loc1, obj).Success? ==>
      var r1, r2 := ProcessData(loc1, obj).value, ProcessData(loc2, obj).value;
      && r1.Keys == r2.Keys
      && forall k :: k in r1 && k != "sun" && k != "lastUpdate" ==> r1[k] == r2[k]
  {
  }
}
