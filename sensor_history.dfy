/**
 * The per-sensor chart history that components/lvgl_main/lvgl_main.c and
 * components/lvgl_ui/lvgl_ui.c each keep in the same form: six rows of 60
 * points (sensor_history), a write position per row (sensor_history_pos)
 * and a flag set once the row has wrapped (sensor_history_full).  A point
 * is the reading times the sensor's chart scale, rounded by lroundf.
 */
module SensorHistory {

  import opened Seqs
  import SensorManager

  const SensorCount := 6
  const HistoryPoints := 60

  /** The readings in card order: pH, EC, temperature, humidity, light, CO2. */
  function Readings(d: SensorManager.SensorData): (r: seq<real>)
    ensures |r| == SensorCount
  {
    [d.ph, d.ec, d.temperature, d.humidity, d.lux, d.co2]
  }

  /** get_sensor_value_by_index: the card's reading, 0 for any other index. */
  function SensorValue(d: SensorManager.SensorData, index: int): (v: real)
    ensures 0 <= index < SensorCount ==> v == Readings(d)[index]
    ensures !(0 <= index < SensorCount) ==> v == 0.0
  {
    if index == 0 then d.ph
    else if index == 1 then d.ec
    else if index == 2 then d.temperature
    else if index == 3 then d.humidity
    else if index == 4 then d.lux
    else if index == 5 then d.co2
    else 0.0
  }

  /** SENSOR_META[i].chart_scale: pH and EC to hundredths, temperature and humidity to tenths. */
  function ChartScale(i: nat): real
    requires i < SensorCount
  {
    if i <= 1 then 100.0 else if i <= 3 then 10.0 else 1.0
  }

  /** lroundf: to the nearest integer, halves away from zero. */
  function RoundHalfAway(r: real): (n: int)
    ensures r >= 0.0 ==> r - 0.5 < n as real <= r + 0.5
    ensures r < 0.0 ==> r - 0.5 <= n as real < r + 0.5
    ensures r.Floor as real == r ==> n == r.Floor
  {
    if r >= 0.0 then (r + 0.5).Floor else -((-r + 0.5).Floor)
  }

  /** The history point stored for a reading of sensor i. */
  function Scaled(i: nat, value: real): int
    requires i < SensorCount
  {
    RoundHalfAway(value * ChartScale(i))
  }

  class History {
    const rows: array2<int>
    const pos: array<nat>
    const full: array<bool>

    predicate Valid()
      reads this, pos
    {
      && rows.Length0 == SensorCount && rows.Length1 == HistoryPoints
      && pos.Length == SensorCount && full.Length == SensorCount
      && (forall i :: 0 <= i < SensorCount ==> pos[i] < HistoryPoints)
    }

    /** Row i of sensor_history, slot by slot. */
    function Row(i: nat): (r: seq<int>)
      requires i < rows.Length0 && rows.Length1 == HistoryPoints
      reads this, rows
      ensures |r| == HistoryPoints
    {
      seq(HistoryPoints, (j: int) requires 0 <= j < HistoryPoints reads rows => rows[i, j])
    }

    /** The points recorded for sensor i, oldest first: the last 60 once the row has wrapped. */
    function Series(i: nat): (r: seq<int>)
      requires Valid() && i < SensorCount
      reads this, rows, pos, full
      ensures |r| <= HistoryPoints
    {
      RingView(Row(i), pos[i], if full[i] then HistoryPoints else pos[i], HistoryPoints)
    }

    constructor()
      ensures Valid() && fresh(rows) && fresh(pos) && fresh(full)
      ensures forall i :: 0 <= i < SensorCount ==> Series(i) == []
    {
      rows := new int[SensorCount, HistoryPoints];
      pos := new nat[SensorCount](_ => 0);
      full := new bool[SensorCount](_ => false);
    }

    /** record_sensor_value: store the scaled reading at the write position and advance it round the row. */
    method Record(index: nat, value: real)
      requires Valid() && index < SensorCount
      modifies rows, pos, full
      ensures Valid()
      ensures Series(index) == PushBounded(old(Series(index)), Scaled(index, value), HistoryPoints)
      ensures forall j :: 0 <= j < SensorCount && j != index ==> Series(j) == old(Series(j))
    {
      ghost var others := seq(SensorCount, (j: int) requires 0 <= j < SensorCount reads this, rows => Row(j));
      ghost var before := Row(index);
      var p := pos[index];
      var count := if full[index] then HistoryPoints else p;
      RingPush(before, p, count, HistoryPoints, Scaled(index, value));
      rows[index, p] := Scaled(index, value);
      assert Row(index) == before[p := Scaled(index, value)];
      pos[index] := (p + 1) % HistoryPoints;
      if pos[index] == 0 {
        full[index] := true;
      }
      forall j | 0 <= j < SensorCount && j != index
        ensures Row(j) == others[j]
      {
        assert Row(j) == others[j];
      }
    }

    /** The loop of update_sensor_display: every card's reading goes into its row. */
    method RecordAll(d: SensorManager.SensorData)
      requires Valid()
      modifies rows, pos, full
      ensures Valid()
      ensures forall i :: 0 <= i < SensorCount ==>
        Series(i) == PushBounded(old(Series(i)), Scaled(i, SensorValue(d, i)), HistoryPoints)
    {
      ghost var before := seq(SensorCount, (j: int) requires 0 <= j < SensorCount && Valid() reads this, rows, pos, full => Series(j));
      var i := 0;
      while i < SensorCount
        invariant 0 <= i <= SensorCount && Valid()
        invariant forall j :: 0 <= j < i ==> Series(j) == PushBounded(before[j], Scaled(j, SensorValue(d, j)), HistoryPoints)
        invariant forall j :: i <= j < SensorCount ==> Series(j) == before[j]
      {
        Record(i, SensorValue(d, i));
        i := i + 1;
      }
    }
  }
}
