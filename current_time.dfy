/**
 * src/hooks/useCurrentTime.ts: the refresh gate of the clock hooks. Each tick produces one fresh
 * reading per listed zone (getCurrentTimeForTimezone, passed in as `readings`); a new value is
 * published only when something a card displays has changed, otherwise the previous value is
 * kept and nothing re-renders.
 */
module CurrentTime {
  import opened Types

  /** Two readings show the same thing: same time, date and zone abbreviation (the timestamp and
    * the day phase are not compared). */
  predicate SameDisplay(a: TimeData, b: TimeData) {
    a.time == b.time && a.date == b.date && a.timezone == b.timezone
  }

  /** The `updateTime` state updater of useCurrentTime: the fresh reading when the display
    * changes, otherwise the previous reading itself. Either way the card shows the fresh text. */
  function UpdateTime(prev: TimeData, next: TimeData): (r: TimeData)
    ensures SameDisplay(r, next)
    ensures r == prev || r == next
    ensures r == prev <==> SameDisplay(prev, next) || prev == next
  {
    if prev.time != next.time || prev.date != next.date || prev.timezone != next.timezone then next else prev
  }

  /** A tick that only moves the timestamp or the day phase keeps the previous reading. */
  lemma UpdateTimeIgnoresTimestamp(prev: TimeData, timestamp: int, timeOfDay: TimeOfDay)
    ensures UpdateTime(prev, prev.(timestamp := timestamp, timeOfDay := timeOfDay)) == prev
  {
  }

  /** Applying the same reading twice changes nothing the second time. */
  lemma UpdateTimeIdempotent(prev: TimeData, next: TimeData)
    ensures UpdateTime(UpdateTime(prev, next), next) == UpdateTime(prev, next)
  {
  }

  /** The zones listed, as a set. */
  function Listed(timezones: seq<string>): set<string> {
    set i | 0 <= i < |timezones| :: timezones[i]
  }

  /** `timezones[i]` is not listed again later: its reading is the one a Map keeps. */
  predicate LastOccurrence(timezones: seq<string>, i: int)
    requires 0 <= i < |timezones|
  {
    forall j :: i < j < |timezones| ==> timezones[j] != timezones[i]
  }

  /** The map a `forEach` of `map.set(timezone, reading)` builds from an empty Map: its keys are
    * the listed zones (a zone listed twice is one key). */
  function FreshMap(timezones: seq<string>, readings: seq<TimeData>): (m: map<string, TimeData>)
    requires |readings| == |timezones|
    ensures m.Keys == Listed(timezones)
  {
    if timezones == [] then map[]
    else
      var n := |timezones| - 1;
      var prefix := FreshMap(timezones[..n], readings[..n]);
      assert Listed(timezones) == Listed(timezones[..n]) + {timezones[n]} by {
        assert forall i :: 0 <= i < n ==> timezones[..n][i] == timezones[i];
      }
      prefix[timezones[n] := readings[n]]
  }

  /** A zone keeps the reading of its last entry. */
  lemma {:induction false} FreshMapLast(timezones: seq<string>, readings: seq<TimeData>, i: int)
    requires |readings| == |timezones| && 0 <= i < |timezones| && LastOccurrence(timezones, i)
    ensures timezones[i] in FreshMap(timezones, readings)
    ensures FreshMap(timezones, readings)[timezones[i]] == readings[i]
  {
    var n := |timezones| - 1;
    if i < n {
      assert LastOccurrence(timezones[..n], i) by {
        assert forall j :: i < j < n ==> timezones[..n][j] == timezones[j];
      }
      FreshMapLast(timezones[..n], readings[..n], i);
      assert timezones[..n][i] == timezones[i] && readings[..n][i] == readings[i];
      assert timezones[n] != timezones[i];
      assert FreshMap(timezones, readings) == FreshMap(timezones[..n], readings[..n])[timezones[n] := readings[n]];
    } else {
      assert FreshMap(timezones, readings) == FreshMap(timezones[..n], readings[..n])[timezones[n] := readings[n]];
    }
  }

  /** Every value of the map is the reading of an entry for its zone. */
  lemma {:induction false} FreshMapValues(timezones: seq<string>, readings: seq<TimeData>, k: string)
    requires |readings| == |timezones| && k in FreshMap(timezones, readings)
    ensures exists i :: 0 <= i < |timezones| && timezones[i] == k && FreshMap(timezones, readings)[k] == readings[i]
  {
    var n := |timezones| - 1;
    if timezones[n] == k {
      assert timezones[n] == k && FreshMap(timezones, readings)[k] == readings[n];
    } else {
      FreshMapValues(timezones[..n], readings[..n], k);
      var i :| 0 <= i < n && timezones[..n][i] == k && FreshMap(timezones[..n], readings[..n])[k] == readings[..n][i];
      assert timezones[i] == k && FreshMap(timezones, readings)[k] == readings[i];
    }
  }

  /** The initial map of useMultipleCurrentTimes, and the map rebuilt when the zone list changes. */
  method BuildMap(timezones: seq<string>, readings: seq<TimeData>) returns (m: map<string, TimeData>)
    requires |readings| == |timezones|
    ensures m == FreshMap(timezones, readings)
  {
    m := map[];
    var i := 0;
    while i < |timezones|
      invariant 0 <= i <= |timezones|
      invariant m == FreshMap(timezones[..i], readings[..i])
    {
      assert timezones[..i + 1][..i] == timezones[..i] && readings[..i + 1][..i] == readings[..i];
      m := m[timezones[i] := readings[i]];
      i := i + 1;
    }
    assert timezones[..i] == timezones && readings[..i] == readings;
  }

  /** Entry `i` of the tick counts as a change: its zone is missing from the previous map or
    * shows something else there. */
  predicate ChangedAt(prevMap: map<string, TimeData>, timezones: seq<string>, readings: seq<TimeData>, i: int)
    requires |readings| == |timezones| && 0 <= i < |timezones|
  {
    timezones[i] !in prevMap || !SameDisplay(prevMap[timezones[i]], readings[i])
  }

  predicate AnyChange(prevMap: map<string, TimeData>, timezones: seq<string>, readings: seq<TimeData>)
    requires |readings| == |timezones|
  {
    exists i :: 0 <= i < |timezones| && ChangedAt(prevMap, timezones, readings, i)
  }

  /** updateAllTimes: builds the fresh map and a `hasChanges` flag in one pass; the fresh map is
    * published only when the flag is set, otherwise the previous map is kept as it is, keys of
    * zones no longer listed included. */
  method UpdateAllTimes(prevMap: map<string, TimeData>, timezones: seq<string>, readings: seq<TimeData>)
    returns (result: map<string, TimeData>, hasChanges: bool)
    requires |readings| == |timezones|
    ensures hasChanges <==> AnyChange(prevMap, timezones, readings)
    ensures hasChanges ==> result == FreshMap(timezones, readings)
    ensures !hasChanges ==> result == prevMap
  {
    var newMap := map[];
    hasChanges := false;
    var i := 0;
    while i < |timezones|
      invariant 0 <= i <= |timezones|
      invariant newMap == FreshMap(timezones[..i], readings[..i])
      invariant hasChanges <==> exists j :: 0 <= j < i && ChangedAt(prevMap, timezones, readings, j)
    {
      if timezones[i] !in prevMap || !SameDisplay(prevMap[timezones[i]], readings[i]) {
        hasChanges := true;
        assert ChangedAt(prevMap, timezones, readings, i);
      } else {
        assert !ChangedAt(prevMap, timezones, readings, i);
      }
      assert timezones[..i + 1][..i] == timezones[..i] && readings[..i + 1][..i] == readings[..i];
      newMap := newMap[timezones[i] := readings[i]];
      i := i + 1;
    }
    assert timezones[..i] == timezones && readings[..i] == readings;
    result := if hasChanges then newMap else prevMap;
  }

  /** A tick whose readings show what the previous map built from them shows, over a list without
    * repeated zones, publishes nothing. */
  lemma NoChangeOnSameDisplay(timezones: seq<string>, previous: seq<TimeData>, readings: seq<TimeData>)
    requires |previous| == |timezones| && |readings| == |timezones|
    requires forall i, j :: 0 <= i < j < |timezones| ==> timezones[i] != timezones[j]
    requires forall i :: 0 <= i < |timezones| ==> SameDisplay(previous[i], readings[i])
    ensures !AnyChange(FreshMap(timezones, previous), timezones, readings)
  {
    var prevMap := FreshMap(timezones, previous);
    forall i | 0 <= i < |timezones|
      ensures !ChangedAt(prevMap, timezones, readings, i)
    {
      FreshMapLast(timezones, previous, i);
    }
  }

  /** A zone listed twice whose two readings show different text counts as a change even when the
    * previous map holds the later reading: the earlier entry is compared against it. */
  lemma RepeatedZoneComparesEachEntry(timezones: seq<string>, readings: seq<TimeData>, i: int, j: int)
    requires |readings| == |timezones|
    requires 0 <= i < j < |timezones| && timezones[i] == timezones[j] && LastOccurrence(timezones, j)
    requires !SameDisplay(readings[i], readings[j])
    ensures AnyChange(FreshMap(timezones, readings), timezones, readings)
  {
    FreshMapLast(timezones, readings, j);
    assert ChangedAt(FreshMap(timezones, readings), timezones, readings, i);
  }

  /** The state of useMultipleCurrentTimes. `published` counts the new map objects handed to
    * React, each of which re-renders the grid. */
  class MultipleCurrentTimes {
    var timeDataMap: map<string, TimeData>
    var published: nat

    /** The lazy initial state: one fresh reading per listed zone. */
    constructor (timezones: seq<string>, readings: seq<TimeData>)
      requires |readings| == |timezones|
      ensures timeDataMap == FreshMap(timezones, readings) && published == 0
    {
      var m := BuildMap(timezones, readings);
      timeDataMap := m;
      published := 0;
    }

    /** The effect run when the zone list changes: a rebuilt map is always published. */
    method Rebuild(timezones: seq<string>, readings: seq<TimeData>)
      requires |readings| == |timezones|
      modifies this
      ensures timeDataMap == FreshMap(timezones, readings) && published == old(published) + 1
    {
      var m := BuildMap(timezones, readings);
      timeDataMap := m;
      published := published + 1;
    }

    /** One interval tick: the change gate decides whether a new map is published. */
    method Tick(timezones: seq<string>, readings: seq<TimeData>)
      requires |readings| == |timezones|
      modifies this
      ensures AnyChange(old(timeDataMap), timezones, readings) ==>
                timeDataMap == FreshMap(timezones, readings) && published == old(published) + 1
      ensures !AnyChange(old(timeDataMap), timezones, readings) ==>
                timeDataMap == old(timeDataMap) && published == old(published)
    {
      var result, hasChanges := UpdateAllTimes(timeDataMap, timezones, readings);
      timeDataMap := result;
      if hasChanges {
        published := published + 1;
      }
    }
  }
}
