/**
 * `PluginUpdatesCheck`: counts the plugins that the `update_plugins` site
 * transient lists as having an update. The transient is an input, read
 * after the optional forced refresh.
 */
module PluginUpdatesCheck {
  import opened Wrappers
  import opened Php
  import opened PhpStrings
  import opened Results

  const TypeName: string := "wordpress_plugin_updates"
  const UnavailableMessage: string := "Plugin update functions are unavailable."
  const UpToDateMessage: string := "All plugins are up to date."

  function UpdatesMessage(count: nat): string {
    IntToDecimal(count) + " plugin update(s) available."
  }

  /** One element of `collectOutdatedPlugins`' result. */
  datatype OutdatedPlugin = OutdatedPlugin(plugin: string, currentVersion: Option<string>, newVersion: Option<string>)

  /** `is_string($v) ? $v : null`. */
  function StringOrNull(v: Value): Option<string> {
    if v.Str? then Some(v.s) else None
  }

  /**
   * The record for the response entry `pluginFile => info`: the slug when
   * it is a string, else the key; `Version`, else `version`, kept only when
   * a string; `new_version` kept only when a string.
   */
  function Describe(pluginFile: string, info: Value): OutdatedPlugin {
    var pluginName := Coalesce(Prop(info, "slug"), Str(pluginFile));
    var current := Coalesce(Prop(info, "Version"), Coalesce(Prop(info, "version"), Null));
    var newVersion := Coalesce(Prop(info, "new_version"), Null);
    OutdatedPlugin(if pluginName.Str? then pluginName.s else pluginFile, StringOrNull(current), StringOrNull(newVersion))
  }

  /**
   * The records the loop produces for a run of response entries: one per
   * object entry, in order. PHP's `is_object` is also true of a closure,
   * which a transient read from storage cannot hold; only `Obj` counts here.
   */
  function Collected(entries: seq<Entry>): seq<OutdatedPlugin> {
    if entries == [] then []
    else
      var last := entries[|entries| - 1];
      Collected(entries[..|entries| - 1]) + (if last.val.Obj? then [Describe(last.key, last.val)] else [])
  }

  /** `! is_object($updates) || empty($updates->response) || ! is_array($updates->response)`. */
  predicate NothingToCollect(updates: Value) {
    !updates.Obj? || Empty(Prop(updates, "response")) || !Prop(updates, "response").value.Arr?
  }

  /** What `collectOutdatedPlugins($updates)` returns. */
  function Outdated(updates: Value): (r: seq<OutdatedPlugin>)
    ensures NothingToCollect(updates) ==> r == []
    ensures !NothingToCollect(updates) ==> |r| == ObjectCount(Prop(updates, "response").value.entries)
  {
    if NothingToCollect(updates) then []
    else
      CollectedCountsObjects(Prop(updates, "response").value.entries);
      Collected(Prop(updates, "response").value.entries)
  }

  /** How many entries are objects. */
  function ObjectCount(entries: seq<Entry>): nat {
    if entries == [] then 0
    else ObjectCount(entries[..|entries| - 1]) + (if entries[|entries| - 1].val.Obj? then 1 else 0)
  }

  lemma {:induction false} CollectedAppend(a: seq<Entry>, b: seq<Entry>)
    ensures Collected(a + b) == Collected(a) + Collected(b)
    ensures ObjectCount(a + b) == ObjectCount(a) + ObjectCount(b)
    decreases |b|
  {
    if b == [] {
      assert a + b == a;
    } else {
      assert (a + b)[..|a + b| - 1] == a + b[..|b| - 1];
      CollectedAppend(a, b[..|b| - 1]);
    }
  }

  /** Exactly one record per object entry. */
  lemma {:induction false} CollectedCountsObjects(entries: seq<Entry>)
    ensures |Collected(entries)| == ObjectCount(entries)
  {
    if entries != [] {
      CollectedCountsObjects(entries[..|entries| - 1]);
    }
  }

  /**
   * The object entry at position `i` yields the record at the position that
   * counts the object entries before it: records keep the iteration order.
   */
  lemma CollectedInOrder(entries: seq<Entry>, i: nat)
    requires i < |entries| && entries[i].val.Obj?
    ensures ObjectCount(entries[..i]) < |Collected(entries)|
    ensures Collected(entries)[ObjectCount(entries[..i])] == Describe(entries[i].key, entries[i].val)
  {
    assert entries == entries[..i] + ([entries[i]] + entries[i + 1..]);
    CollectedAppend(entries[..i], [entries[i]] + entries[i + 1..]);
    CollectedAppend([entries[i]], entries[i + 1..]);
    CollectedCountsObjects(entries[..i]);
    assert Collected([entries[i]]) == [Describe(entries[i].key, entries[i].val)] by {
      assert [entries[i]][..0] == [];
    }
  }

  /** Response entries that are not objects are skipped. */
  lemma {:induction false} NonObjectsAreSkipped(entries: seq<Entry>)
    requires forall i :: 0 <= i < |entries| ==> !entries[i].val.Obj?
    ensures Collected(entries) == []
  {
    if entries != [] {
      NonObjectsAreSkipped(entries[..|entries| - 1]);
    }
  }

  /** `collectOutdatedPlugins`. */
  method CollectOutdatedPlugins(updates: Value) returns (outdated: seq<OutdatedPlugin>)
    ensures outdated == Outdated(updates)
    ensures NothingToCollect(updates) ==> outdated == []
  {
    outdated := [];
    if NothingToCollect(updates) {
      return;
    }
    var response := Prop(updates, "response").value.entries;
    for i := 0 to |response|
      invariant outdated == Collected(response[..i])
    {
      assert response[..i + 1][..i] == response[..i];
      var info := response[i].val;
      if !info.Obj? {
        continue;
      }
      outdated := outdated + [Describe(response[i].key, info)];
    }
    assert response[..|response|] == response;
  }

  /** The status and message for `count` outdated plugins. */
  function ResultFor(count: nat): (r: ResultData)
    ensures r.typeName == TypeName && r.key == None && r.data == None
    ensures r.status != Unhealthy
    ensures r.status == Healthy <==> count == 0
    ensures r.message == if count == 0 then UpToDateMessage else UpdatesMessage(count)
  {
    if count == 0 then ResultData(TypeName, None, Healthy, UpToDateMessage, None)
    else ResultData(TypeName, None, Warning, UpdatesMessage(count), None)
  }

  /** Distinct counts give distinct messages, so the count can be read back from a Warning. */
  lemma UpdatesMessageIdentifiesCount(m: nat, n: nat)
    requires UpdatesMessage(m) == UpdatesMessage(n)
    ensures m == n
  {
    var suffix := " plugin update(s) available.";
    assert IntToDecimal(m) == UpdatesMessage(m)[..|UpdatesMessage(m)| - |suffix|];
    assert IntToDecimal(n) == UpdatesMessage(n)[..|UpdatesMessage(n)| - |suffix|];
    IntToDecimalRoundTrip(m);
    IntToDecimalRoundTrip(n);
  }

  /** `available()`: `functionsLoaded` is whether `get_plugins` and `wp_update_plugins` exist after loading their files. */
  predicate Available(functionsLoaded: bool) {
    functionsLoaded
  }

  /** `run()`: the missing-functions exception is not caught. */
  method Run(functionsLoaded: bool, updates: Value) returns (r: CheckRun)
    ensures !Available(functionsLoaded) ==> r == Threw(UnavailableMessage)
    ensures functionsLoaded ==> r == Completed(ResultFor(|Outdated(updates)|))
    ensures r.Completed? ==>
      (r.result.status == Healthy <==>
         (NothingToCollect(updates) || ObjectCount(Prop(updates, "response").value.entries) == 0))
  {
    if !functionsLoaded {
      return Threw(UnavailableMessage);
    }
    var outdated := CollectOutdatedPlugins(updates);
    if !NothingToCollect(updates) {
      CollectedCountsObjects(Prop(updates, "response").value.entries);
    }
    r := Completed(ResultFor(|outdated|));
  }
}
