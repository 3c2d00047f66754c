/** The daily-data hook (`useDailyData`): today's summary (sleep, meditation,
    exercises, water, steps) and the sensor's status, updated record by record.
    The random draws of the sensor refresh are parameters and its delay is left
    out. The overall progress percentages are not part of this model. */
module DailyData {
  import opened Wrappers
  import opened Text

  datatype DailySummary = DailySummary(
    sleep: string,
    meditation: string,
    exercises: int,
    water: int,
    steps: int)

  datatype SensorStatus = SensorStatus(
    isConnected: bool,
    lastSync: string,
    batteryLevel: Option<int>)

  const InitialSummary := DailySummary("7h 30m", "15 min", 3, 6, 6234)
  const InitialSensor := SensorStatus(true, "há 2 min", Some(85))

  function Min(a: int, b: int): int { if a <= b then a else b }
  function Max(a: int, b: int): int { if a >= b then a else b }

  // ---------------------------------------------------------------------------
  // the record updates

  /** `addWater`: one more glass, never above ten. */
  function WithWater(s: DailySummary): (r: DailySummary)
    ensures r == s.(water := r.water)
    ensures s.water < 10 ==> r.water == s.water + 1
    ensures s.water >= 10 ==> r.water == 10
  {
    s.(water := Min(s.water + 1, 10))
  }

  /** The minutes read from the meditation text, `parseInt(text.replace(' min', ''))`;
      None stands for NaN. */
  function MeditationMinutes(meditation: string): Option<int> {
    ParseInt(ReplaceFirst(meditation, " min", ""))
  }

  /** The meditation text after adding `minutes`: the new total written back as
      "<total> min"; an unreadable text gives "NaN min". */
  function AddedMeditation(meditation: string, minutes: int): string {
    var current := MeditationMinutes(meditation);
    (if current.Some? then IntToString(current.value + minutes) else "NaN") + " min"
  }

  /** `addMeditation(minutes)`: only the meditation text changes. */
  function WithMeditation(s: DailySummary, minutes: int): (r: DailySummary)
    ensures r == s.(meditation := r.meditation)
    ensures MeditationMinutes(s.meditation).None? ==> r.meditation == "NaN min"
  {
    s.(meditation := AddedMeditation(s.meditation, minutes))
  }

  /** A meditation text written as "<n> min" is read back as n. */
  lemma MeditationMinutesOfText(n: int)
    ensures MeditationMinutes(IntToString(n) + " min") == Some(n)
  {
    var a := IntToString(n);
    assert forall i :: 0 <= i < |a| ==> a[i] != ' ' by {
      if n >= 0 {
        assert AllDigits(a);
      } else {
        assert a[0] == '-' && AllDigits(a[1..]);
        forall i | 1 <= i < |a| ensures a[i] != ' ' {
          assert a[1..][i - 1] == a[i];
        }
      }
    }
    IndexOfAfter(a, " min", []);
    assert a + " min" == a + " min" + [];
    assert (a + " min")[..|a|] == a;
    assert ReplaceFirst(a + " min", " min", "") == a;
    ParseIntOfIntToString(n);
  }

  /** Adding m minutes to "<n> min" gives "<n+m> min" and changes nothing else. */
  lemma MeditationAdds(s: DailySummary, n: int, m: int)
    requires s.meditation == IntToString(n) + " min"
    ensures WithMeditation(s, m) == s.(meditation := IntToString(n + m) + " min")
  {
    AddedToText(n, m);
  }

  lemma AddedToText(n: int, m: int)
    ensures AddedMeditation(IntToString(n) + " min", m) == IntToString(n + m) + " min"
  {
    MeditationMinutesOfText(n);
  }

  /** The summary after a sensor refresh: `stepsDraw` more steps, and one more glass
      when the coin comes up, capped at eight. */
  function RefreshedSummary(s: DailySummary, stepsDraw: int, coin: bool): (r: DailySummary)
    requires 0 <= stepsDraw < 100
    ensures r == s.(steps := r.steps, water := r.water)
    ensures s.steps <= r.steps < s.steps + 100
    ensures r.water <= 8
    ensures r.water == Min(s.water + (if coin then 1 else 0), 8)
  {
    s.(steps := s.steps + stepsDraw, water := Min(s.water + (if coin then 1 else 0), 8))
  }

  /** `(batteryLevel || 85)`: a missing or zero level counts as 85. */
  function BatteryOrDefault(b: Option<int>): int {
    if b.Some? && b.value != 0 then b.value else 85
  }

  /** The sensor status after a refresh: synced now, and one point of battery less,
      never below twenty. */
  function RefreshedSensor(t: SensorStatus): (r: SensorStatus)
    ensures r.isConnected == t.isConnected && r.lastSync == "agora mesmo"
    ensures r.batteryLevel.Some? && r.batteryLevel.value >= 20
    ensures BatteryOrDefault(t.batteryLevel) > 20 ==>
      r.batteryLevel.value == BatteryOrDefault(t.batteryLevel) - 1
    ensures BatteryOrDefault(t.batteryLevel) <= 20 ==> r.batteryLevel.value == 20
  {
    t.(lastSync := "agora mesmo", batteryLevel := Some(Max(BatteryOrDefault(t.batteryLevel) - 1, 20)))
  }

  /** Water bounds: glasses added by hand stop at ten, and a refresh brings nine or
      ten glasses down to eight. */
  lemma WaterCaps(s: DailySummary, stepsDraw: int, coin: bool)
    requires 0 <= stepsDraw < 100
    requires s.water <= 10
    ensures WithWater(s).water <= 10
    ensures s.water == 10 ==> WithWater(s) == s
    ensures 8 <= s.water ==> RefreshedSummary(s, stepsDraw, coin).water == 8
  {
  }

  /** The battery starts at 85 and after k refreshes reads max(85 - k, 20). */
  lemma {:induction false} BatteryAfterRefreshes(t: SensorStatus, k: nat)
    requires t.batteryLevel == Some(85)
    ensures Refreshes(t, k).batteryLevel == Some(Max(85 - k, 20))
  {
    if k > 0 {
      BatteryAfterRefreshes(t, k - 1);
    }
  }

  function Refreshes(t: SensorStatus, k: nat): SensorStatus {
    if k == 0 then t else RefreshedSensor(Refreshes(t, k - 1))
  }

  // ---------------------------------------------------------------------------
  // the hook's state

  class DailyDataHook {
    var summary: DailySummary
    var sensor: SensorStatus
    var isRefreshing: bool

    constructor ()
      ensures summary == InitialSummary && sensor == InitialSensor && !isRefreshing
    {
      summary := InitialSummary;
      sensor := InitialSensor;
      isRefreshing := false;
    }

    /** `refreshSensorData`, with `stepsDraw` = floor(random * 100) and `coin` =
        random > 0.5. */
    method RefreshSensorData(stepsDraw: int, coin: bool)
      requires 0 <= stepsDraw < 100
      modifies this
      ensures summary == RefreshedSummary(old(summary), stepsDraw, coin)
      ensures sensor == RefreshedSensor(old(sensor))
      ensures !isRefreshing
    {
      isRefreshing := true;
      summary := summary.(steps := summary.steps + stepsDraw,
                          water := Min(summary.water + (if coin then 1 else 0), 8));
      sensor := sensor.(lastSync := "agora mesmo",
                        batteryLevel := Some(Max(BatteryOrDefault(sensor.batteryLevel) - 1, 20)));
      isRefreshing := false;
    }

    /** `addExercise`: exactly one more exercise, nothing else changes. */
    method AddExercise()
      modifies this
      ensures summary == old(summary).(exercises := old(summary).exercises + 1)
      ensures sensor == old(sensor) && isRefreshing == old(isRefreshing)
    {
      summary := summary.(exercises := summary.exercises + 1);
    }

    method AddMeditation(minutes: int)
      modifies this
      ensures summary == WithMeditation(old(summary), minutes)
      ensures sensor == old(sensor) && isRefreshing == old(isRefreshing)
    {
      var current := ParseInt(ReplaceFirst(summary.meditation, " min", ""));
      var text := if current.Some? then IntToString(current.value + minutes) else "NaN";
      summary := summary.(meditation := text + " min");
    }

    method AddWater()
      modifies this
      ensures summary == WithWater(old(summary))
      ensures sensor == old(sensor) && isRefreshing == old(isRefreshing)
    {
      summary := summary.(water := Min(summary.water + 1, 10));
    }
  }

  /** Adding water up to the cap of ten and then refreshing leaves eight glasses. */
  method WaterThenRefresh(coin: bool) returns (afterAdds: int, afterRefresh: int)
    ensures afterAdds == 10 && afterRefresh == 8
  {
    var hook := new DailyDataHook();
    hook.AddWater();
    hook.AddWater();
    hook.AddWater();
    hook.AddWater();
    hook.AddWater();
    afterAdds := hook.summary.water;
    hook.RefreshSensorData(0, coin);
    afterRefresh := hook.summary.water;
  }
}
