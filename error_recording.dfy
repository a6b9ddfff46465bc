/** The test-only bridge from a metric's validation errors to the counter metric under
    which the native layer counts them. */
module ErrorRecording {
  import opened Lifetimes

  /** The kinds of validation error the native layer counts per metric. */
  datatype ErrorType = InvalidValue | InvalidLabel

  /** The string form of each error type; it must match the native layer's own spelling. */
  const GleanErrorNames: map<ErrorType, string> :=
    map[InvalidValue := "invalid_value", InvalidLabel := "invalid_label"]

  /** Every error type has a name, so looking one up never fails. */
  lemma ErrorNamesTotal()
    ensures forall e: ErrorType :: e in GleanErrorNames
    ensures GleanErrorNames[InvalidValue] == "invalid_value"
    ensures GleanErrorNames[InvalidLabel] == "invalid_label"
  {
    forall e: ErrorType ensures e in GleanErrorNames {
      match e
      case InvalidValue =>
      case InvalidLabel =>
    }
  }

  /** Distinct error types have distinct names. */
  lemma ErrorNamesInjective()
    ensures forall a, b :: a in GleanErrorNames && b in GleanErrorNames && a != b ==>
              GleanErrorNames[a] != GleanErrorNames[b]
  {
  }

  /** A counter metric as `CounterMetricType`'s constructor receives it. */
  datatype CounterMetricType = CounterMetricType(
    disabled: bool,
    category: string,
    lifetime: Lifetime,
    name: string,
    sendInPings: seq<string>)

  /** A test read of a counter: the counter, and the ping its value is read from. */
  datatype CounterRead = CounterRead(metric: CounterMetricType, pingName: string)

  /** `testGetNumRecordedErrors(identifier, errorType, pingName)`: the counter it reads.
      The counter is enabled, lives in category `glean.error` for one ping, is sent in
      exactly the queried ping and is named after the error type and the metric. */
  function ErrorCounterRead(identifier: string, errorType: ErrorType, pingName: string): (read: CounterRead)
    ensures read.metric.disabled == false
    ensures read.metric.category == "glean.error"
    ensures read.metric.lifetime == Ping
    ensures errorType in GleanErrorNames && read.metric.name == GleanErrorNames[errorType] + "/" + identifier
    ensures read.metric.sendInPings == [pingName] && read.pingName == pingName
  {
    ErrorNamesTotal();
    var errorName := GleanErrorNames[errorType];
    var errorMetric := CounterMetricType(
      disabled := false,
      category := "glean.error",
      lifetime := Ping,
      name := errorName + "/" + identifier,
      sendInPings := [pingName]);
    CounterRead(errorMetric, pingName)
  }

  /** Different (error type, metric) pairs read different counters: the counter name
      determines both the error type and the metric identifier. */
  lemma {:induction false} ErrorCounterNamesDistinct(
    identifierA: string, errorA: ErrorType, identifierB: string, errorB: ErrorType, pingName: string)
    requires ErrorCounterRead(identifierA, errorA, pingName).metric.name
          == ErrorCounterRead(identifierB, errorB, pingName).metric.name
    ensures errorA == errorB && identifierA == identifierB
  {
    ErrorNamesTotal();
    var nameA := ErrorCounterRead(identifierA, errorA, pingName).metric.name;
    var nameB := ErrorCounterRead(identifierB, errorB, pingName).metric.name;
    var prefixA := GleanErrorNames[errorA] + "/";
    var prefixB := GleanErrorNames[errorB] + "/";
    assert nameA == prefixA + identifierA && nameB == prefixB + identifierB;
    assert |prefixA| == 14 && |prefixB| == 14;
    // The two names part at index 8: 'v' in "invalid_value", 'l' in "invalid_label".
    assert nameA[8] == prefixA[8] && nameB[8] == prefixB[8];
    assert GleanErrorNames[errorA][8] == GleanErrorNames[errorB][8];
    assert identifierA == nameA[14..] == nameB[14..] == identifierB;
  }
}
