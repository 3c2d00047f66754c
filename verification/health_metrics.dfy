/** The health-metrics hook (`useHealthMetrics`): four simulated sensor metrics,
    the colour and text per status, the overall summary, and the refresh that
    redraws heart rate and stress. The random draws are parameters: the heart-rate
    draw is a real in [0, 1), the stress draw is already rounded to tenths (the
    source rounds `random * 10` to one decimal place). */
module HealthMetrics {
  import opened Wrappers
  import opened Text

  datatype Metric = Metric(title: string, value: string, unit: string, status: string)

  const HeartRateTitle := "Batimentos Cardíacos"
  const StressTitle := "Nível de Estresse"

  const InitialMetrics: seq<Metric> := [
    Metric(HeartRateTitle, "72", "bpm", "normal"),
    Metric(StressTitle, "3.2", "/10", "warning"),
    Metric("Qualidade do Sono", "8.5", "/10", "normal"),
    Metric("Atividade Física", "6,234", "passos", "normal")
  ]

  /** `getStatusColor`: total over strings, grey for anything unknown. */
  function StatusColor(status: string): (c: string)
    ensures status == "normal" ==> c == "#4CAF50"
    ensures status == "warning" ==> c == "#FF9800"
    ensures status == "critical" ==> c == "#F44336"
    ensures status !in {"normal", "warning", "critical"} ==> c == "#757575"
  {
    if status == "normal" then "#4CAF50"
    else if status == "warning" then "#FF9800"
    else if status == "critical" then "#F44336"
    else "#757575"
  }

  /** `getStatusText` */
  function StatusText(status: string): (t: string)
    ensures status == "normal" ==> t == "Normal"
    ensures status == "warning" ==> t == "Atenção"
    ensures status == "critical" ==> t == "Crítico"
    ensures status !in {"normal", "warning", "critical"} ==> t == "Desconhecido"
  {
    if status == "normal" then "Normal"
    else if status == "warning" then "Atenção"
    else if status == "critical" then "Crítico"
    else "Desconhecido"
  }

  /** The three known statuses are told apart by both colour and text. */
  lemma StatusesDistinguished(a: string, b: string)
    requires a in {"normal", "warning", "critical"} && b in {"normal", "warning", "critical"}
    requires a != b
    ensures StatusColor(a) != StatusColor(b) && StatusText(a) != StatusText(b)
    ensures StatusColor(a) != StatusColor("unknown") && StatusText(a) != StatusText("unknown")
  {
  }

  // ---------------------------------------------------------------------------
  // refresh

  /** `Math.floor(random * (85 - 65) + 65)` */
  function HeartRate(draw: real): (bpm: int)
    requires 0.0 <= draw < 1.0
    ensures 65 <= bpm <= 84
  {
    (draw * 20.0 + 65.0).Floor
  }

  /** A stress reading in tenths shown with one decimal place. */
  function TenthsText(tenths: nat): string
  {
    NatToString(tenths / 10) + "." + [DigitChar(tenths % 10)]
  }

  /** The status of a stress reading: above 7 is critical, above 4 a warning. */
  function StressStatus(tenths: nat): (s: string)
    ensures s == "critical" <==> (tenths as real) / 10.0 > 7.0
    ensures s == "warning" <==> 4.0 < (tenths as real) / 10.0 <= 7.0
    ensures s == "normal" <==> (tenths as real) / 10.0 <= 4.0
  {
    if tenths > 70 then "critical" else if tenths > 40 then "warning" else "normal"
  }

  /** One metric after a refresh: heart rate gets a new value, stress a new value and
      status, everything else is returned as it was. */
  function RefreshMetric(m: Metric, heartDraw: real, stressTenths: nat): (r: Metric)
    requires 0.0 <= heartDraw < 1.0
    ensures r.title == m.title && r.unit == m.unit
    ensures m.title == HeartRateTitle ==>
      r.value == IntToString(HeartRate(heartDraw)) && r.status == m.status
    ensures m.title == StressTitle ==>
      r.value == TenthsText(stressTenths) && r.status == StressStatus(stressTenths)
    ensures m.title != HeartRateTitle && m.title != StressTitle ==> r == m
  {
    if m.title == HeartRateTitle then m.(value := IntToString(HeartRate(heartDraw)))
    else if m.title == StressTitle then m.(value := TenthsText(stressTenths), status := StressStatus(stressTenths))
    else m
  }

  /** `prev.map(...)`: the refreshed list, in the same order. */
  function Refreshed(ms: seq<Metric>, heartDraw: real, stressTenths: nat): (r: seq<Metric>)
    requires 0.0 <= heartDraw < 1.0
    ensures |r| == |ms|
    ensures forall i :: 0 <= i < |ms| ==> r[i] == RefreshMetric(ms[i], heartDraw, stressTenths)
  {
    seq(|ms|, i requires 0 <= i < |ms| => RefreshMetric(ms[i], heartDraw, stressTenths))
  }

  /** After a refresh the heart-rate reading reads back as a whole number of beats
      between 65 and 84, and the stress status agrees with the shown reading. */
  lemma RefreshedReadings(ms: seq<Metric>, heartDraw: real, stressTenths: nat, i: nat)
    requires 0.0 <= heartDraw < 1.0 && i < |ms|
    ensures var r := Refreshed(ms, heartDraw, stressTenths)[i];
      (ms[i].title == HeartRateTitle ==>
         exists bpm :: 65 <= bpm <= 84 && ParseInt(r.value) == Some(bpm))
      && (ms[i].title == StressTitle ==> r.status in {"normal", "warning", "critical"})
      && (ms[i].title != HeartRateTitle && ms[i].title != StressTitle ==> r == ms[i])
  {
    var bpm := HeartRate(heartDraw);
    ParseIntOfIntToString(bpm);
  }

  // ---------------------------------------------------------------------------
  // summary

  /** `metrics.filter(m => m.status === status).length` */
  function CountStatus(ms: seq<Metric>, status: string): (n: nat)
    ensures n <= |ms|
  {
    if ms == [] then 0
    else CountStatus(ms[..|ms| - 1], status) + (if ms[|ms| - 1].status == status then 1 else 0)
  }

  /** A status is counted at least once exactly when some metric has it. */
  lemma {:induction false} CountPositiveIffPresent(ms: seq<Metric>, status: string)
    ensures CountStatus(ms, status) > 0 <==> exists i :: 0 <= i < |ms| && ms[i].status == status
  {
    if ms != [] {
      var init := ms[..|ms| - 1];
      CountPositiveIffPresent(init, status);
      if exists i :: 0 <= i < |init| && init[i].status == status {
        var i :| 0 <= i < |init| && init[i].status == status;
        assert ms[i].status == status;
      }
      if exists i :: 0 <= i < |ms| && ms[i].status == status {
        var i :| 0 <= i < |ms| && ms[i].status == status;
        if i < |init| {
          assert init[i].status == status;
        }
      }
    }
  }

  datatype Summary = Summary(status: string, message: string)

  /** `getHealthSummary`: the worst status present, with how many metrics have it. */
  function HealthSummary(ms: seq<Metric>): (s: Summary)
    ensures CountStatus(ms, "critical") > 0 ==>
      s == Summary("critical", NatToString(CountStatus(ms, "critical")) + " métrica(s) em estado crítico")
    ensures CountStatus(ms, "critical") == 0 && CountStatus(ms, "warning") > 0 ==>
      s == Summary("warning", NatToString(CountStatus(ms, "warning")) + " métrica(s) precisam de atenção")
    ensures CountStatus(ms, "critical") == 0 && CountStatus(ms, "warning") == 0 ==>
      s == Summary("normal", "Todas as métricas estão normais")
  {
    var critical := CountStatus(ms, "critical");
    var warning := CountStatus(ms, "warning");
    if critical > 0 then Summary("critical", NatToString(critical) + " métrica(s) em estado crítico")
    else if warning > 0 then Summary("warning", NatToString(warning) + " métrica(s) precisam de atenção")
    else Summary("normal", "Todas as métricas estão normais")
  }

  /** The summary is critical exactly when a metric is critical, a warning exactly
      when none is critical and one is a warning, and normal otherwise. */
  lemma SummaryIsWorstStatus(ms: seq<Metric>)
    ensures HealthSummary(ms).status == "critical" <==>
      exists i :: 0 <= i < |ms| && ms[i].status == "critical"
    ensures HealthSummary(ms).status == "warning" <==>
      (forall i :: 0 <= i < |ms| ==> ms[i].status != "critical")
      && exists i :: 0 <= i < |ms| && ms[i].status == "warning"
    ensures HealthSummary(ms).status == "normal" <==>
      forall i :: 0 <= i < |ms| ==> ms[i].status !in {"critical", "warning"}
  {
    CountPositiveIffPresent(ms, "critical");
    CountPositiveIffPresent(ms, "warning");
  }

  /** The starting metrics hold one warning (stress at 3.2 is marked so). */
  lemma InitialSummary()
    ensures HealthSummary(InitialMetrics) == Summary("warning", "1 métrica(s) precisam de atenção")
  {
    InitialCounts();
    OneWarningText();
  }

  lemma OneWarningText()
    ensures NatToString(1) + " métrica(s) precisam de atenção" == "1 métrica(s) precisam de atenção"
  {
    assert NatToString(1) == "1";
  }

  lemma InitialCounts()
    ensures CountStatus(InitialMetrics, "warning") == 1
    ensures CountStatus(InitialMetrics, "critical") == 0
  {
    var a, b, c, d := InitialMetrics[0], InitialMetrics[1], InitialMetrics[2], InitialMetrics[3];
    assert InitialMetrics == [a, b, c, d];
    var warning, critical := "warning", "critical";
    CountOfFour(a, b, c, d, warning);
    CountOfFour(a, b, c, d, critical);
  }

  /** Counting over four metrics, one by one. */
  lemma CountOfFour(a: Metric, b: Metric, c: Metric, d: Metric, status: string)
    ensures CountStatus([a, b, c, d], status) ==
      (if a.status == status then 1 else 0) + (if b.status == status then 1 else 0)
      + (if c.status == status then 1 else 0) + (if d.status == status then 1 else 0)
  {
    assert [a, b, c, d][..3] == [a, b, c];
    assert [a, b, c][..2] == [a, b];
    assert [a, b][..1] == [a];
    assert [a][..0] == [];
    assert CountStatus([a], status) == (if a.status == status then 1 else 0);
    assert CountStatus([a, b], status) == CountStatus([a], status) + (if b.status == status then 1 else 0);
    assert CountStatus([a, b, c], status) == CountStatus([a, b], status) + (if c.status == status then 1 else 0);
  }

  class HealthMetricsHook {
    var metrics: seq<Metric>
    var isLoading: bool

    constructor ()
      ensures metrics == InitialMetrics && !isLoading
    {
      metrics := InitialMetrics;
      isLoading := false;
    }

    /** `healthSummary` */
    function Summary(): (s: Summary)
      reads this
      ensures s == HealthSummary(metrics)
    {
      HealthSummary(metrics)
    }

    /** `refreshMetrics`, with the delay left out and the draws passed in. */
    method RefreshMetrics(heartDraw: real, stressTenths: nat)
      requires 0.0 <= heartDraw < 1.0 && stressTenths <= 100
      modifies this
      ensures metrics == Refreshed(old(metrics), heartDraw, stressTenths)
      ensures !isLoading
    {
      isLoading := true;
      metrics := Refreshed(metrics, heartDraw, stressTenths);
      isLoading := false;
    }
  }
}
