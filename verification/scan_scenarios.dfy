/**
 * The telemetry scanner applied to an example payload: `find`
 * hands back the raw text after the `:`, so a quoted value keeps its quotes
 * and the last field keeps the closing brace.
 */
module ScanScenarios {
  import opened CppString
  import opened FieldScan

  /** `{"cpu":42,"gpu":"n/a"}`, written in pieces so that the verifier can index into it. */
  const SAMPLE_TELEMETRY: string := "{\"cpu\":4" + "2,\"gpu\":" + "\"n/a\"}"

  lemma SampleTelemetryCpu()
    ensures StatField(SAMPLE_TELEMETRY, "cpu") == "42"
  {
    NoMatchInRange(SAMPLE_TELEMETRY, Quoted("cpu"), 0, 1, 0);
    NoMatchInRange(SAMPLE_TELEMETRY, ":", 1, 6, 0);
    NoMatchInRange(SAMPLE_TELEMETRY, ",", 6, 9, 0);
    assert SAMPLE_TELEMETRY[1..6] == Quoted("cpu");
    assert SAMPLE_TELEMETRY[6..7] == ":";
    assert SAMPLE_TELEMETRY[9..10] == ",";
    StatFieldPresent(SAMPLE_TELEMETRY, "cpu", 1, 6, 9);
  }

  lemma SampleTelemetryGpu()
    ensures StatField(SAMPLE_TELEMETRY, "gpu") == "\"n/a\"}"
  {
    NoMatchInRange(SAMPLE_TELEMETRY, Quoted("gpu"), 0, 10, 1);
    NoMatchInRange(SAMPLE_TELEMETRY, ":", 10, 15, 0);
    NoMatchAfter(SAMPLE_TELEMETRY, ",", 15, 0);
    assert SAMPLE_TELEMETRY[10..15] == Quoted("gpu");
    assert SAMPLE_TELEMETRY[15..16] == ":";
    StatFieldPresent(SAMPLE_TELEMETRY, "gpu", 10, 15, 22);
  }

  lemma SampleTelemetryTemperatures()
    ensures StatField(SAMPLE_TELEMETRY, "temp_cpu") == "n/a"
    ensures StatField(SAMPLE_TELEMETRY, "temp_gpu") == "n/a"
  {
    NoMatchAfter(SAMPLE_TELEMETRY, Quoted("temp_cpu"), 0, 1);
    StatFieldKeyAbsent(SAMPLE_TELEMETRY, "temp_cpu");
    NoMatchAfter(SAMPLE_TELEMETRY, Quoted("temp_gpu"), 0, 1);
    StatFieldKeyAbsent(SAMPLE_TELEMETRY, "temp_gpu");
  }

  /** `cpu` is `42`, `gpu` keeps its quotes and the closing brace, the temperatures are `n/a`. */
  lemma SampleTelemetry()
    ensures FetchStats(SAMPLE_TELEMETRY) == Telemetry("42", "\"n/a\"}", "n/a", "n/a")
  {
    SampleTelemetryCpu();
    SampleTelemetryGpu();
    SampleTelemetryTemperatures();
  }
}
