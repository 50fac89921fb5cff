/**
 * `SiteHealthCheck`: runs WordPress Site Health's direct tests and reports
 * Unhealthy when any of them returns a critical result. The Site Health
 * instance, the callable functions and the `site_status_test_result` filter
 * are inputs.
 */
module SiteHealthCheck {
  import opened Wrappers
  import opened Php
  import opened PhpStrings
  import opened Results

  const TypeName: string := "wordpress_site_health"
  const UnavailableMessage: string := "WP_Site_Health class is unavailable."
  const NoIssuesMessage: string := "WordPress Site Health reports no critical issues."
  const TestMethodPrefix: string := "get_test_"

  function IssuesMessage(count: nat): string {
    "WordPress Site Health reports " + IntToDecimal(count) + " critical issue(s)."
  }

  /**
   * A `WP_Site_Health` instance: what `get_tests()` returns, and the value
   * each of its public methods returns, keyed by the method's name in lower
   * case (PHP method names are case-insensitive).
   */
  datatype SiteHealth = SiteHealth(tests: Value, methods: map<string, Value>)

  /**
   * The surroundings of the check: whether `WP_Site_Health` is loaded or its
   * file exists, the instance `new WP_Site_Health()` gives, the value each
   * global function returns, keyed by the function's name in lower case, and
   * the `site_status_test_result` filter.
   */
  datatype Host = Host(classLoadable: bool, created: SiteHealth, functions: map<string, Value>, filter: Value -> Value)

  /** What `executeTest` comes to for one test entry. */
  datatype TestOutcome = Skipped | Returned(result: Value) | Raised

  /** `$tests['direct'] ?? []`, as `foreach` visits it: the values, in order. */
  function DirectTests(tests: Value): (r: seq<Value>)
    ensures var direct := Elements(Coalesce(Index(tests, "direct"), Arr([])));
      |r| == |direct| && forall i :: 0 <= i < |r| ==> r[i] == direct[i].val
    ensures Index(tests, "direct").None? ==> r == []
  {
    var direct := Elements(Coalesce(Index(tests, "direct"), Arr([])));
    seq(|direct|, i requires 0 <= i < |direct| => direct[i].val)
  }

  /** The method a string test names: `sprintf('get_test_%s', $test['test'])`, as PHP looks it up. */
  function TestMethod(name: string): string {
    ToLowerAscii(TestMethodPrefix + name)
  }

  /**
   * What calling the test's callback returns, or None when it is not
   * callable: a string `name` first resolves to the method
   * `get_test_<name>`, then to a global function `name`; a closure is called.
   */
  function CallbackResult(sh: SiteHealth, functions: map<string, Value>, test: Value): (r: Option<Value>)
    ensures test.Str? && TestMethod(test.s) in sh.methods ==> r == Some(sh.methods[TestMethod(test.s)])
    ensures test.Str? && TestMethod(test.s) !in sh.methods ==>
      r == if ToLowerAscii(test.s) in functions then Some(functions[ToLowerAscii(test.s)]) else None
    ensures test.Closure? ==> r == Some(test.result)
    ensures !test.Str? && !test.Closure? ==> r == None
  {
    if test.Str? && TestMethod(test.s) in sh.methods then Some(sh.methods[TestMethod(test.s)])
    else if test.Str? && ToLowerAscii(test.s) in functions then Some(functions[ToLowerAscii(test.s)])
    else if test.Closure? then Some(test.result)
    else None
  }

  /** A `get_test_<name>` method wins over any global function, whatever the functions are. */
  lemma MethodShadowsFunction(sh: SiteHealth, functions: map<string, Value>, others: map<string, Value>, name: string)
    requires TestMethod(name) in sh.methods
    ensures CallbackResult(sh, functions, Str(name)) == CallbackResult(sh, others, Str(name))
            == Some(sh.methods[TestMethod(name)])
  {
  }

  /** Test names that differ only in the case of their letters resolve to the same callback. */
  lemma {:induction false} TestNameCaseIsIgnored(sh: SiteHealth, functions: map<string, Value>, a: string, b: string)
    requires ToLowerAscii(a) == ToLowerAscii(b)
    ensures CallbackResult(sh, functions, Str(a)) == CallbackResult(sh, functions, Str(b))
  {
    ToLowerAsciiAppend(TestMethodPrefix, a);
    ToLowerAsciiAppend(TestMethodPrefix, b);
  }

  /**
   * `executeTest`: a non-array entry violates the `array $test` parameter, an
   * entry without `test` and an uncallable test are skipped, and a filtered
   * result that is neither an array nor null violates the `?array` return type.
   */
  function ExecuteTest(sh: SiteHealth, host: Host, entry: Value): (r: TestOutcome)
    ensures r.Skipped? <==>
      entry.Arr? && (!Isset(Index(entry, "test")) || CallbackResult(sh, host.functions, Index(entry, "test").value).None?)
    ensures r.Raised? <==>
      !entry.Arr?
      || (Isset(Index(entry, "test"))
          && var called := CallbackResult(sh, host.functions, Index(entry, "test").value);
             called.Some? && !host.filter(called.value).Arr? && !host.filter(called.value).Null?)
    ensures r.Returned? ==>
      r.result == host.filter(CallbackResult(sh, host.functions, Index(entry, "test").value).value)
      && (r.result.Arr? || r.result.Null?)
  {
    if !entry.Arr? then Raised
    else if !Isset(Index(entry, "test")) then Skipped
    else
      var called := CallbackResult(sh, host.functions, Index(entry, "test").value);
      if called.None? then Skipped
      else
        var filtered := host.filter(called.value);
        if filtered.Arr? || filtered.Null? then Returned(filtered) else Raised
  }

  /** `is_array($result) && ($result['status'] ?? null) === 'critical'`. */
  predicate IsCritical(result: Value)
    ensures IsCritical(result) ==> result.Arr? && Index(result, "status") == Some(Str("critical"))
  {
    result.Arr? && Coalesce(Index(result, "status"), Null) == Str("critical")
  }

  /** The test entry runs and its (filtered) result is critical. */
  predicate ReturnsCritical(sh: SiteHealth, host: Host, entry: Value) {
    ExecuteTest(sh, host, entry).Returned? && IsCritical(ExecuteTest(sh, host, entry).result)
  }

  /**
   * The issues a run of tests is meant to gather: the critical results, in
   * test order (a reference definition that walks the tests from the front).
   */
  function CriticalResults(sh: SiteHealth, host: Host, tests: seq<Value>): seq<Value> {
    if tests == [] then []
    else
      (if ReturnsCritical(sh, host, tests[0]) then [ExecuteTest(sh, host, tests[0]).result] else [])
      + CriticalResults(sh, host, tests[1..])
  }

  lemma {:induction false} CriticalResultsAppend(sh: SiteHealth, host: Host, a: seq<Value>, b: seq<Value>)
    ensures CriticalResults(sh, host, a + b) == CriticalResults(sh, host, a) + CriticalResults(sh, host, b)
  {
    if a == [] {
      assert a + b == b;
    } else {
      assert (a + b)[0] == a[0];
      assert (a + b)[1..] == a[1..] + b;
      CriticalResultsAppend(sh, host, a[1..], b);
    }
  }

  /** No critical result is gathered exactly when no test returns a critical result. */
  lemma {:induction false} NoCriticalResults(sh: SiteHealth, host: Host, tests: seq<Value>)
    ensures CriticalResults(sh, host, tests) == [] <==> forall i :: 0 <= i < |tests| ==> !ReturnsCritical(sh, host, tests[i])
  {
    if tests != [] {
      NoCriticalResults(sh, host, tests[1..]);
      assert forall i :: 1 <= i < |tests| ==> tests[i] == tests[1..][i - 1];
    }
  }

  /** Every critical result of a test is among the gathered issues. */
  lemma {:induction false} CriticalResultIsGathered(sh: SiteHealth, host: Host, tests: seq<Value>, j: nat)
    requires j < |tests| && ReturnsCritical(sh, host, tests[j])
    ensures ExecuteTest(sh, host, tests[j]).result in CriticalResults(sh, host, tests)
  {
    if j > 0 {
      assert tests[j] == tests[1..][j - 1];
      CriticalResultIsGathered(sh, host, tests[1..], j - 1);
    }
  }

  /**
   * The critical results of a run of tests, in order, or None when one of
   * them raises (the `TypeError` leaves the loop).
   */
  function CriticalIssues(sh: SiteHealth, host: Host, tests: seq<Value>): (r: Option<seq<Value>>)
    ensures r.Some? <==> forall i :: 0 <= i < |tests| ==> !ExecuteTest(sh, host, tests[i]).Raised?
    ensures r.Some? ==> r.value == CriticalResults(sh, host, tests)
    ensures r.Some? ==> |r.value| <= |tests| && forall k :: 0 <= k < |r.value| ==> IsCritical(r.value[k])
  {
    if tests == [] then Some([])
    else
      var earlier := CriticalIssues(sh, host, tests[..|tests| - 1]);
      var outcome := ExecuteTest(sh, host, tests[|tests| - 1]);
      assert tests == tests[..|tests| - 1] + [tests[|tests| - 1]];
      CriticalResultsAppend(sh, host, tests[..|tests| - 1], [tests[|tests| - 1]]);
      assert CriticalResults(sh, host, [tests[|tests| - 1]])
          == if ReturnsCritical(sh, host, tests[|tests| - 1]) then [outcome.result] else [];
      if earlier.None? || outcome.Raised? then None
      else if outcome.Returned? && IsCritical(outcome.result) then Some(earlier.value + [outcome.result])
      else earlier
  }

  /** A test that is skipped or returns a non-critical result adds no issue. */
  lemma {:induction false} NonCriticalTestsAddNothing(sh: SiteHealth, host: Host, tests: seq<Value>)
    requires forall i :: 0 <= i < |tests| ==>
      ExecuteTest(sh, host, tests[i]).Skipped?
      || (ExecuteTest(sh, host, tests[i]).Returned? && !IsCritical(ExecuteTest(sh, host, tests[i]).result))
    ensures CriticalIssues(sh, host, tests) == Some([])
  {
    if tests != [] {
      NonCriticalTestsAddNothing(sh, host, tests[..|tests| - 1]);
    }
  }

  /** Without a `direct` key there are no tests and so no issues. */
  lemma MissingDirectMeansNoIssues(sh: SiteHealth, host: Host)
    requires Index(sh.tests, "direct").None?
    ensures CriticalIssues(sh, host, DirectTests(sh.tests)) == Some([])
  {
  }

  /** `collectCriticalIssues`. */
  method CollectCriticalIssues(sh: SiteHealth, host: Host) returns (issues: Option<seq<Value>>)
    ensures issues == CriticalIssues(sh, host, DirectTests(sh.tests))
  {
    var tests := DirectTests(sh.tests);
    var found: seq<Value> := [];
    for i := 0 to |tests|
      invariant CriticalIssues(sh, host, tests[..i]) == Some(found)
    {
      ghost var extended := tests[..i + 1];
      assert extended[..i] == tests[..i] && extended[i] == tests[i];
      var outcome := ExecuteTest(sh, host, tests[i]);
      assert CriticalIssues(sh, host, extended)
          == if outcome.Raised? then None
             else if outcome.Returned? && IsCritical(outcome.result) then Some(found + [outcome.result])
             else Some(found);
      if outcome.Raised? {
        return None;
      }
      if outcome.Returned? && IsCritical(outcome.result) {
        found := found + [outcome.result];
      }
    }
    assert tests[..|tests|] == tests;
    return Some(found);
  }

  /**
   * The element of `$details` for a critical issue: `label`, else
   * `description`, else `test`, else "Unknown test"; None when that value is
   * not a string, which violates the closure's `string` return type.
   */
  function Detail(issue: Value): (r: Option<string>)
    ensures Isset(Index(issue, "label")) ==>
      r == if Index(issue, "label").value.Str? then Some(Index(issue, "label").value.s) else None
    ensures !Isset(Index(issue, "label")) && Isset(Index(issue, "description")) ==>
      r == if Index(issue, "description").value.Str? then Some(Index(issue, "description").value.s) else None
    ensures !Isset(Index(issue, "label")) && !Isset(Index(issue, "description")) && Isset(Index(issue, "test")) ==>
      r == if Index(issue, "test").value.Str? then Some(Index(issue, "test").value.s) else None
    ensures !Isset(Index(issue, "label")) && !Isset(Index(issue, "description")) && !Isset(Index(issue, "test")) ==>
      r == Some("Unknown test")
  {
    var v := Coalesce(Index(issue, "label"), Coalesce(Index(issue, "description"),
                                                      Coalesce(Index(issue, "test"), Str("Unknown test"))));
    if v.Str? then Some(v.s) else None
  }

  /** The details of every issue are strings, so building `$details` does not raise. */
  predicate DetailsAreStrings(issues: seq<Value>) {
    forall k :: 0 <= k < |issues| ==> Detail(issues[k]).Some?
  }

  /**
   * The `array_map` that builds `$details`: the detail of every issue, or
   * None when one of them is not a string and the closure raises.
   */
  method BuildDetails(issues: seq<Value>) returns (details: Option<seq<string>>)
    ensures details.Some? <==> DetailsAreStrings(issues)
    ensures details.Some? ==>
      |details.value| == |issues| && forall k :: 0 <= k < |issues| ==> Detail(issues[k]) == Some(details.value[k])
  {
    var built: seq<string> := [];
    for k := 0 to |issues|
      invariant |built| == k
      invariant forall j :: 0 <= j < k ==> Detail(issues[j]) == Some(built[j])
    {
      var detail := Detail(issues[k]);
      if detail.None? {
        return None;
      }
      built := built + [detail.value];
    }
    return Some(built);
  }

  /**
   * The outcome of `run()` once Site Health is resolved: Healthy exactly when
   * no direct test returns a critical result, otherwise Unhealthy with the
   * count. A raised `TypeError` is not a `RuntimeException` and leaves `run()`.
   */
  function Outcome(sh: SiteHealth, host: Host): (r: CheckRun)
    ensures r.Completed? ==> r.result.typeName == TypeName && r.result.key == None && r.result.data == None
    ensures r.Completed? ==> r.result.status != Warning
    ensures r.Threw? ==> r.exception == TypeErrorThrown
    ensures var tests := DirectTests(sh.tests);
      r.Completed? ==> (r.result.status == Healthy <==> forall i :: 0 <= i < |tests| ==> !ReturnsCritical(sh, host, tests[i]))
    ensures var issues := CriticalIssues(sh, host, DirectTests(sh.tests));
      && (r.Completed? <==> issues.Some? && (|issues.value| == 0 || DetailsAreStrings(issues.value)))
      && (r.Completed? ==>
            (r.result.status == Healthy <==> |issues.value| == 0)
            && r.result.message == if |issues.value| == 0 then NoIssuesMessage else IssuesMessage(|issues.value|))
  {
    var issues := CriticalIssues(sh, host, DirectTests(sh.tests));
    NoCriticalResults(sh, host, DirectTests(sh.tests));
    if issues.None? then Threw(TypeErrorThrown)
    else
      var count := |issues.value|;
      if count == 0 then Completed(ResultData(TypeName, None, Healthy, NoIssuesMessage, None))
      else if !DetailsAreStrings(issues.value) then Threw(TypeErrorThrown)
      else Completed(ResultData(TypeName, None, Unhealthy, IssuesMessage(count), None))
  }

  /**
   * One critical direct test, resolved through its `get_test_` method (under
   * its lower-case name), makes the check Unhealthy.
   */
  lemma OneCriticalTestIsUnhealthy(name: string, critical: Value, host: Host)
    requires critical == Arr([Entry("status", Str("critical")), Entry("label", Str(name))])
    requires host.filter(critical) == critical
    ensures var sh := SiteHealth(Arr([Entry("direct", Arr([Entry("0", Arr([Entry("test", Str(name))]))]))]),
                                 map[TestMethod(name) := critical]);
      Outcome(sh, host) == Completed(ResultData(TypeName, None, Unhealthy, IssuesMessage(1), None))
  {
    var sh := SiteHealth(Arr([Entry("direct", Arr([Entry("0", Arr([Entry("test", Str(name))]))]))]),
                         map[TestMethod(name) := critical]);
    var tests := DirectTests(sh.tests);
    assert tests == [Arr([Entry("test", Str(name))])];
    assert tests[..0] == [];
    assert CriticalIssues(sh, host, tests[..0]) == Some([]);
    assert Index(critical, "status") == Some(Str("critical"));
    assert IsCritical(critical);
    assert ExecuteTest(sh, host, tests[0]) == Returned(critical);
    var none: seq<Value> := [];
    assert none + [critical] == [critical];
    assert tests[|tests| - 1] == tests[0];
    assert CriticalIssues(sh, host, tests) == Some([critical]);
  }

  class SiteHealthCheck {
    /** The constructor's `?\WP_Site_Health $siteHealth`, memoised once created. */
    var siteHealth: Option<SiteHealth>

    constructor(injected: Option<SiteHealth>)
      ensures siteHealth == injected
    {
      siteHealth := injected;
    }

    /**
     * `resolveSiteHealth`: an instance already held is reused; otherwise a
     * new one is created and kept, unless the class cannot be loaded.
     */
    method ResolveSiteHealth(host: Host) returns (r: Result<SiteHealth>)
      modifies this
      ensures old(siteHealth).Some? ==> r == Success(old(siteHealth).value) && siteHealth == old(siteHealth)
      ensures old(siteHealth).None? && !host.classLoadable ==>
        r == Failure(UnavailableMessage) && siteHealth == None
      ensures old(siteHealth).None? && host.classLoadable ==>
        r == Success(host.created) && siteHealth == Some(host.created)
    {
      if siteHealth.Some? {
        return Success(siteHealth.value);
      }
      if !host.classLoadable {
        return Failure(UnavailableMessage);
      }
      siteHealth := Some(host.created);
      return Success(host.created);
    }

    /** `available()`: Site Health can be resolved (which memoises it). */
    method Available(host: Host) returns (b: bool)
      modifies this
      ensures b <==> old(siteHealth).Some? || host.classLoadable
      ensures siteHealth == if old(siteHealth).Some? then old(siteHealth) else if b then Some(host.created) else None
    {
      var resolved := ResolveSiteHealth(host);
      b := resolved.Success?;
    }

    /**
     * `run()`: a failure to resolve Site Health is Unhealthy with the
     * exception's message; otherwise the outcome of the direct tests.
     */
    method Run(host: Host) returns (r: CheckRun)
      modifies this
      ensures old(siteHealth).None? && !host.classLoadable ==>
        r == Completed(ResultData(TypeName, None, Unhealthy, UnavailableMessage, None))
      ensures old(siteHealth).Some? ==> r == Outcome(old(siteHealth).value, host)
      ensures old(siteHealth).None? && host.classLoadable ==> r == Outcome(host.created, host)
      ensures r.Completed? ==> r.result.status != Warning
      ensures siteHealth == if old(siteHealth).Some? then old(siteHealth) else if host.classLoadable then Some(host.created) else None
    {
      var resolved := ResolveSiteHealth(host);
      if resolved.Failure? {
        return Completed(ResultData(TypeName, None, Unhealthy, resolved.error, None));
      }
      var sh := resolved.value;
      var issues := CollectCriticalIssues(sh, host);
      if issues.None? {
        return Threw(TypeErrorThrown);
      }
      var count := |issues.value|;
      if count == 0 {
        return Completed(ResultData(TypeName, None, Healthy, NoIssuesMessage, None));
      }
      var details := BuildDetails(issues.value);
      if details.None? {
        return Threw(TypeErrorThrown);
      }
      return Completed(ResultData(TypeName, None, Unhealthy, IssuesMessage(count), None));
    }
  }
}
