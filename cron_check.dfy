/**
 * `CronCheck`: WP-Cron liveness from the heartbeat timestamp that the
 * scheduler's hook records. The clock, the stored heartbeat, the filtered
 * threshold and the `DISABLE_WP_CRON` constant are inputs.
 */
module CronCheck {
  import opened Wrappers
  import opened Php
  import opened PhpStrings
  import opened Results

  const TypeName: string := "wordpress_cron"
  const LastCronOption: string := "vigilant_healthchecks_last_cron_run"
  const MinuteInSeconds: int := 60
  /** The threshold before the `vigilant_healthchecks_cron_threshold` filter: five minutes. */
  const DefaultThreshold: int := 5 * MinuteInSeconds

  const DisabledMessage: string := "WP-Cron is disabled via DISABLE_WP_CRON."
  const NotRunMessage: string := "Cron monitor has not run yet."
  const OnTimeMessage: string := "WP-Cron has run within the expected timeframe."

  function StaleMessage(elapsed: int): string {
    "WP-Cron has not run for " + IntToDecimal(elapsed) + " seconds."
  }

  /** `(int) get_option(VIGILANT_HEALTH_LAST_CRON_OPTION, 0)`. */
  function LastRun(options: map<string, Value>): (r: int)
    ensures LastCronOption !in options ==> r == 0
    ensures LastCronOption in options && options[LastCronOption].Int? ==> r == options[LastCronOption].i
    ensures LastCronOption in options && options[LastCronOption].Str? ==> r == StrToInt(options[LastCronOption].s)
  {
    IntCast(if LastCronOption in options then options[LastCronOption] else Int(0))
  }

  /** `isDisabled()`: `DISABLE_WP_CRON` is defined (`constant` is its value) and truthy. */
  predicate IsDisabled(constant: Option<Value>)
    ensures constant.None? ==> !IsDisabled(constant)
    ensures constant.Some? && constant.value.Bool? ==> (IsDisabled(constant) <==> constant.value.b)
    ensures constant.Some? && constant.value.Str? ==>
      (IsDisabled(constant) <==> constant.value.s != "" && constant.value.s != "0")
  {
    constant.Some? && Truthy(constant.value)
  }

  /** `available()`: the check can run unless WP-Cron is disabled. */
  predicate Available(constant: Option<Value>)
    ensures !Available(constant) ==>
      forall lastRun, threshold, now :: Run(constant, lastRun, threshold, now).message == DisabledMessage
  {
    !IsDisabled(constant)
  }

  function IntField(name: string, v: Option<int>): seq<Field> {
    if v.Some? then [Field(name, IntDatum(v.value))] else []
  }

  function AsDatum(v: Option<int>): Option<Datum> {
    if v.Some? then Some(IntDatum(v.value)) else None
  }

  /**
   * `buildResult`: the data map holds exactly the fields whose value is not
   * null, in the order last_run, threshold_seconds, elapsed_seconds, and is
   * null when none is.
   */
  function BuildResult(status: Status, message: string, lastRun: Option<int>, threshold: Option<int>,
                       elapsed: Option<int>): (r: ResultData)
    ensures r.typeName == TypeName && r.key == None && r.status == status && r.message == message
    ensures r.data.None? <==> lastRun.None? && threshold.None? && elapsed.None?
    ensures r.data.Some? ==>
      && FieldValue(r.data.value, "last_run") == AsDatum(lastRun)
      && FieldValue(r.data.value, "threshold_seconds") == AsDatum(threshold)
      && FieldValue(r.data.value, "elapsed_seconds") == AsDatum(elapsed)
      && |r.data.value| == |IntField("last_run", lastRun)| + |IntField("threshold_seconds", threshold)|
                           + |IntField("elapsed_seconds", elapsed)|
  {
    DataFields(lastRun, threshold, elapsed);
    ResultData(TypeName, None, status, message, NullIfEmpty(Data(lastRun, threshold, elapsed)))
  }

  /** The data map before `?: null`. */
  function Data(lastRun: Option<int>, threshold: Option<int>, elapsed: Option<int>): seq<Field> {
    IntField("last_run", lastRun) + IntField("threshold_seconds", threshold) + IntField("elapsed_seconds", elapsed)
  }

  /** Each of the three names finds its own value in the data map. */
  lemma DataFields(lastRun: Option<int>, threshold: Option<int>, elapsed: Option<int>)
    ensures FieldValue(Data(lastRun, threshold, elapsed), "last_run") == AsDatum(lastRun)
    ensures FieldValue(Data(lastRun, threshold, elapsed), "threshold_seconds") == AsDatum(threshold)
    ensures FieldValue(Data(lastRun, threshold, elapsed), "elapsed_seconds") == AsDatum(elapsed)
  {
    var first := IntField("last_run", lastRun);
    var second := IntField("threshold_seconds", threshold);
    var third := IntField("elapsed_seconds", elapsed);
    FieldValueAppend(first + second, third, "last_run");
    FieldValueAppend(first, second, "last_run");
    FieldValueAppend(first + second, third, "threshold_seconds");
    FieldValueAppend(first, second, "threshold_seconds");
    FieldValueAppend(first + second, third, "elapsed_seconds");
    FieldValueAppend(first, second, "elapsed_seconds");
  }

  /**
   * `run()`, with the heartbeat option already read and cast (`LastRun`)
   * and the filtered threshold already cast to int. Disabled cron is a
   * Warning without data; a heartbeat of 0 is a Warning that the monitor
   * has not run yet; otherwise the check is Healthy exactly when
   * `now - lastRun` is within the threshold (so a heartbeat in the future
   * counts as on time), and a stale heartbeat is a Warning that names the
   * elapsed seconds. The check never reports Unhealthy.
   */
  function Run(constant: Option<Value>, lastRun: int, threshold: int, now: int): (r: ResultData)
    ensures r.typeName == TypeName && r.key == None
    ensures r.status != Unhealthy
    ensures r.status == Healthy <==> !IsDisabled(constant) && lastRun != 0 && now - lastRun <= threshold
    ensures IsDisabled(constant) ==> r.message == DisabledMessage && r.data == None
    ensures !IsDisabled(constant) && lastRun == 0 ==>
      r.message == NotRunMessage
      && r.data == Some([Field("last_run", IntDatum(0)), Field("threshold_seconds", IntDatum(threshold))])
    ensures !IsDisabled(constant) && lastRun != 0 ==>
      r.data.Some?
      && FieldValue(r.data.value, "last_run") == Some(IntDatum(lastRun))
      && FieldValue(r.data.value, "threshold_seconds") == Some(IntDatum(threshold))
      && FieldValue(r.data.value, "elapsed_seconds") == Some(IntDatum(now - lastRun))
    ensures !IsDisabled(constant) && lastRun != 0 && now - lastRun <= threshold ==>
      r.message == OnTimeMessage
    ensures !IsDisabled(constant) && lastRun != 0 && now - lastRun > threshold ==>
      r.message == StaleMessage(now - lastRun)
  {
    if IsDisabled(constant) then
      BuildResult(Warning, DisabledMessage, None, None, None)
    else if lastRun == 0 then
      assert IntField("last_run", Some(lastRun)) + IntField("threshold_seconds", Some(threshold))
             + IntField("elapsed_seconds", None)
          == [Field("last_run", IntDatum(0)), Field("threshold_seconds", IntDatum(threshold))];
      BuildResult(Warning, NotRunMessage, Some(lastRun), Some(threshold), None)
    else
      var diff := now - lastRun;
      var isHealthy := diff <= threshold;
      var message := if isHealthy then OnTimeMessage else StaleMessage(diff);
      BuildResult(if isHealthy then Healthy else Warning, message, Some(lastRun), Some(threshold), Some(diff))
  }

  /** `DISABLE_WP_CRON` set to a truthy value turns the check off and makes it a Warning. */
  lemma DisabledCronIsWarning(constant: Value, options: map<string, Value>, threshold: int, now: int)
    requires Truthy(constant)
    ensures !Available(Some(constant))
    ensures Run(Some(constant), LastRun(options), threshold, now).status == Warning
  {
  }

  /** Without a stored heartbeat the monitor has not run yet. */
  lemma MissingHeartbeatIsNotRun(options: map<string, Value>, threshold: int, now: int)
    requires LastCronOption !in options
    ensures Run(None, LastRun(options), threshold, now).message == NotRunMessage
  {
  }

  /** A heartbeat 100 seconds old is within the default five minutes. */
  lemma RecentHeartbeatIsHealthy(now: int)
    requires now != 100
    ensures Run(None, now - 100, DefaultThreshold, now).status == Healthy
  {
  }

  /** A heartbeat 400 seconds old is a Warning that reports 400 elapsed seconds. */
  lemma StaleHeartbeatReportsElapsed(now: int)
    requires now != 400
    ensures Run(None, now - 400, DefaultThreshold, now).status == Warning
    ensures Run(None, now - 400, DefaultThreshold, now).message == "WP-Cron has not run for 400 seconds."
  {
    assert NatToDecimal(400) == "400" by {
      assert NatToDecimal(4) == "4";
      assert NatToDecimal(40) == "40";
    }
  }
}
