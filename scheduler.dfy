/**
 * `Scheduler`: the once-a-minute WP-Cron heartbeat and the registration of
 * the probes whose toggles are on. The WP-Cron event list and the options
 * table are the state it writes; the clock is an input.
 */
module Scheduler {
  import opened Wrappers
  import opened Php
  import opened Registry
  import opened Options
  import CronCheck
  import Results

  const CronHook: string := "vigilant_healthchecks_cron_monitor"
  const MinutelySchedule: string := "vigilant_healthchecks_minutely"
  const MinuteInterval: int := 60

  /** An entry of the `cron_schedules` filter's map. */
  datatype Schedule = Schedule(interval: int, display: string)

  /** `registerSchedule`: adds the one-minute recurrence and keeps every other schedule. */
  function RegisterSchedule(schedules: map<string, Schedule>): (r: map<string, Schedule>)
    ensures MinutelySchedule in r && r[MinutelySchedule] == Schedule(MinuteInterval, "Every minute")
    ensures r.Keys == schedules.Keys + {MinutelySchedule}
    ensures forall name :: name in schedules && name != MinutelySchedule ==> r[name] == schedules[name]
  {
    schedules[MinutelySchedule := Schedule(MinuteInterval, "Every minute")]
  }

  /** Filtering the schedules twice gives the same map as once. */
  lemma RegisterScheduleIdempotent(schedules: map<string, Schedule>)
    ensures RegisterSchedule(RegisterSchedule(schedules)) == RegisterSchedule(schedules)
  {
  }

  /** A scheduled WP-Cron event. */
  datatype CronEvent = CronEvent(timestamp: int, recurrence: string, hook: string)

  /** `wp_next_scheduled($hook)`: the time of the first event for the hook, if any. */
  function NextScheduled(events: seq<CronEvent>, hook: string): (r: Option<int>)
    ensures r.None? <==> forall i :: 0 <= i < |events| ==> events[i].hook != hook
  {
    if events == [] then None
    else if events[0].hook == hook then Some(events[0].timestamp)
    else NextScheduled(events[1..], hook)
  }

  /** An event added after the others is found only when the others have none for its hook. */
  lemma {:induction false} NextScheduledAppend(events: seq<CronEvent>, event: CronEvent)
    ensures NextScheduled(events + [event], event.hook)
         == if NextScheduled(events, event.hook).Some? then NextScheduled(events, event.hook) else Some(event.timestamp)
  {
    if events == [] {
      assert events + [event] == [event];
    } else {
      assert (events + [event])[1..] == events[1..] + [event];
      NextScheduledAppend(events[1..], event);
    }
  }

  /** `! wp_next_scheduled(...)`: nothing is scheduled (a time of 0 is falsy too). */
  predicate NeedsScheduling(events: seq<CronEvent>) {
    var next := NextScheduled(events, CronHook);
    next.None? || next.value == 0
  }

  /** The event list after `scheduleEvent()` at time `now`. */
  function AfterScheduleEvent(events: seq<CronEvent>, now: int): seq<CronEvent> {
    if NeedsScheduling(events) then events + [CronEvent(now, MinutelySchedule, CronHook)] else events
  }

  /**
   * Scheduling again at any later time changes nothing once the heartbeat is
   * scheduled. (A first heartbeat event at time 0 reads as unscheduled, and
   * every call would then add one more.)
   */
  lemma ScheduleEventIdempotent(events: seq<CronEvent>, now: int, later: int)
    requires now != 0 && NextScheduled(events, CronHook) != Some(0)
    ensures AfterScheduleEvent(AfterScheduleEvent(events, now), later) == AfterScheduleEvent(events, now)
  {
    NextScheduledAppend(events, CronEvent(now, MinutelySchedule, CronHook));
  }

  /** How many events the list holds for the heartbeat hook. */
  function HookCount(events: seq<CronEvent>): nat {
    if events == [] then 0
    else HookCount(events[..|events| - 1]) + (if events[|events| - 1].hook == CronHook then 1 else 0)
  }

  lemma {:induction false} NoHookEventsCountZero(events: seq<CronEvent>)
    requires NextScheduled(events, CronHook).None?
    ensures HookCount(events) == 0
  {
    if events != [] {
      NoHookEventsCountZero(events[..|events| - 1]);
    }
  }

  /** From a list without the heartbeat, repeated scheduling leaves exactly one heartbeat event. */
  lemma RepeatedSchedulingLeavesOneEvent(events: seq<CronEvent>, now: int, later: int)
    requires NextScheduled(events, CronHook).None? && now != 0
    ensures HookCount(AfterScheduleEvent(AfterScheduleEvent(events, now), later)) == 1
  {
    ScheduleEventIdempotent(events, now, later);
    NoHookEventsCountZero(events);
    var added := events + [CronEvent(now, MinutelySchedule, CronHook)];
    assert added[..|added| - 1] == events;
  }

  /** The event list without the events of `hook`, in order. */
  function WithoutHook(events: seq<CronEvent>, hook: string): (r: seq<CronEvent>)
    ensures forall i :: 0 <= i < |r| ==> r[i].hook != hook && r[i] in events
    ensures forall e :: e in events && e.hook != hook ==> e in r
  {
    if events == [] then []
    else (if events[0].hook == hook then [] else [events[0]]) + WithoutHook(events[1..], hook)
  }

  /**
   * The site state the scheduler writes: the WP-Cron events and the options
   * table.
   */
  class Site {
    var events: seq<CronEvent>
    var options: map<string, Value>

    constructor(events: seq<CronEvent>, options: map<string, Value>)
      ensures this.events == events && this.options == options
    {
      this.events := events;
      this.options := options;
    }

    /** `scheduleEvent()` (and `activate()`): add the heartbeat only when none is scheduled. */
    method ScheduleEvent(now: int)
      modifies this`events
      ensures events == AfterScheduleEvent(old(events), now)
      ensures !NeedsScheduling(old(events)) ==> events == old(events)
      ensures NeedsScheduling(old(events)) ==> events == old(events) + [CronEvent(now, MinutelySchedule, CronHook)]
    {
      if NeedsScheduling(events) {
        events := events + [CronEvent(now, MinutelySchedule, CronHook)];
      }
    }

    /** `deactivate()`: `wp_clear_scheduled_hook` removes every heartbeat event. */
    method Deactivate()
      modifies this`events
      ensures events == WithoutHook(old(events), CronHook)
      ensures NextScheduled(events, CronHook).None?
    {
      events := WithoutHook(events, CronHook);
    }

    /** `recordCronRun()`: the heartbeat stores the current time under the last-run option. */
    method RecordCronRun(now: int)
      modifies this`options
      ensures options == old(options)[CronCheck.LastCronOption := Int(now)]
      ensures CronCheck.LastRun(options) == now
    {
      options := options[CronCheck.LastCronOption := Int(now)];
    }
  }

  /**
   * The heartbeat is what the cron check reads: right after it ran at a
   * non-zero time, the check is Healthy for any non-negative threshold and
   * stays so while no more than the threshold has passed.
   */
  lemma HeartbeatKeepsCronCheckHealthy(options: map<string, Value>, ranAt: int, threshold: int, now: int)
    requires ranAt != 0 && ranAt <= now <= ranAt + threshold
    ensures CronCheck.Run(None, CronCheck.LastRun(options[CronCheck.LastCronOption := Int(ranAt)]), threshold, now).status
         == Results.Healthy
  {
  }

  /** The probes a toggle map registers: each enabled key the catalogue knows, in toggle order. */
  function Selected<K>(toggles: seq<Toggle>, ds: seq<Descriptor<K>>): seq<K> {
    if toggles == [] then []
    else
      var last := toggles[|toggles| - 1];
      var kind := ClassFor(ds, last.key);
      Selected(toggles[..|toggles| - 1], ds) + (if last.enabled && kind.Some? then [kind.value] else [])
  }

  /** `ClassFor` finds a descriptor with the key and the class it returns. */
  lemma {:induction false} ClassForFound<K>(ds: seq<Descriptor<K>>, key: string)
    ensures ClassFor(ds, key).Some? <==> key in DescriptorKeys(ds)
  {
    if ds != [] {
      assert DescriptorKeys(ds) == [ds[0].key] + DescriptorKeys(ds[1..]);
      ClassForFound(ds[1..], key);
    }
  }

  /** A probe is registered exactly when some enabled toggle's key maps to it in the catalogue. */
  lemma {:induction false} SelectedMembership<K>(toggles: seq<Toggle>, ds: seq<Descriptor<K>>, kind: K)
    ensures kind in Selected(toggles, ds) <==>
      exists i :: 0 <= i < |toggles| && toggles[i].enabled && ClassFor(ds, toggles[i].key) == Some(kind)
  {
    if toggles != [] {
      var init := toggles[..|toggles| - 1];
      SelectedMembership(init, ds, kind);
      if kind in Selected(toggles, ds) {
        if kind in Selected(init, ds) {
          var i :| 0 <= i < |init| && init[i].enabled && ClassFor(ds, init[i].key) == Some(kind);
          assert toggles[i] == init[i];
        } else {
          assert toggles[|toggles| - 1].enabled;
        }
      } else {
        forall i | 0 <= i < |toggles| && toggles[i].enabled
          ensures ClassFor(ds, toggles[i].key) != Some(kind)
        {
          if i < |init| {
            assert toggles[i] == init[i];
          }
        }
      }
    }
  }

  /** The classes of a catalogue, in order. */
  function Kinds<K>(ds: seq<Descriptor<K>>): seq<K> {
    seq(|ds|, i requires 0 <= i < |ds| => ds[i].kind)
  }

  ghost predicate DistinctDescriptorKeys<K>(ds: seq<Descriptor<K>>) {
    forall i, j :: 0 <= i < j < |ds| ==> ds[i].key != ds[j].key
  }

  /** In a catalogue without repeated keys, each key maps to its own class. */
  lemma {:induction false} ClassForDistinct<K>(ds: seq<Descriptor<K>>, i: nat)
    requires DistinctDescriptorKeys(ds) && i < |ds|
    ensures ClassFor(ds, ds[i].key) == Some(ds[i].kind)
  {
    if i > 0 {
      ClassForDistinct(ds[1..], i - 1);
    }
  }

  /** The all-on default toggles register the whole catalogue, in catalogue order. */
  lemma {:induction false} DefaultsSelectAll<K>(ds: seq<Descriptor<K>>, k: nat)
    requires DistinctDescriptorKeys(ds) && k <= |ds|
    ensures Selected(DefaultToggles(ds)[..k], ds) == Kinds(ds)[..k]
  {
    if k > 0 {
      var toggles := DefaultToggles(ds)[..k];
      assert toggles[..k - 1] == DefaultToggles(ds)[..k - 1];
      DefaultsSelectAll(ds, k - 1);
      ClassForDistinct(ds, k - 1);
      assert Kinds(ds)[..k] == Kinds(ds)[..k - 1] + [ds[k - 1].kind];
    }
  }

  /** With nothing stored, all six checks are registered, in catalogue order. */
  lemma NothingStoredRegistersAllChecks()
    ensures Selected(Normalized(Null, DefaultCheckToggles()), AvailableChecks)
         == [Database, SiteHealth, CoreVersion, Redis, PluginUpdates, Cron]
  {
    assert Normalized(Null, DefaultCheckToggles()) == DefaultCheckToggles()[..|AvailableChecks|];
    DefaultsSelectAll(AvailableChecks, |AvailableChecks|);
    assert Kinds(AvailableChecks)[..|AvailableChecks|] == [Database, SiteHealth, CoreVersion, Redis, PluginUpdates, Cron];
  }

  /** With nothing stored, all four metrics are registered, in catalogue order. */
  lemma NothingStoredRegistersAllMetrics()
    ensures Selected(Normalized(Null, DefaultMetricToggles()), AvailableMetrics)
         == [MemoryUsage, DiskUsage, CpuLoad, DatabaseSize]
  {
    assert Normalized(Null, DefaultMetricToggles()) == DefaultMetricToggles()[..|AvailableMetrics|];
    DefaultsSelectAll(AvailableMetrics, |AvailableMetrics|);
    assert Kinds(AvailableMetrics)[..|AvailableMetrics|] == [MemoryUsage, DiskUsage, CpuLoad, DatabaseSize];
  }

  /** The first loop of `registerChecksAndMetrics`: each enabled catalogue check, in toggle order. */
  method RegisterChecks(registry: HealthCheckRegistry, toggles: seq<Toggle>)
    modifies registry
    ensures registry.checks == old(registry.checks) + Selected(toggles, AvailableChecks)
    ensures registry.metrics == old(registry.metrics)
  {
    for i := 0 to |toggles|
      invariant registry.checks == old(registry.checks) + Selected(toggles[..i], AvailableChecks)
      invariant registry.metrics == old(registry.metrics)
    {
      assert toggles[..i + 1][..i] == toggles[..i];
      var kind := ClassFor(AvailableChecks, toggles[i].key);
      if !toggles[i].enabled || kind.None? {
        continue;
      }
      registry.RegisterCheck(kind.value);
    }
    assert toggles[..|toggles|] == toggles;
  }

  /** The second loop of `registerChecksAndMetrics`: each enabled catalogue metric, in toggle order. */
  method RegisterMetrics(registry: HealthCheckRegistry, toggles: seq<Toggle>)
    modifies registry
    ensures registry.checks == old(registry.checks)
    ensures registry.metrics == old(registry.metrics) + Selected(toggles, AvailableMetrics)
  {
    for i := 0 to |toggles|
      invariant registry.checks == old(registry.checks)
      invariant registry.metrics == old(registry.metrics) + Selected(toggles[..i], AvailableMetrics)
    {
      assert toggles[..i + 1][..i] == toggles[..i];
      var kind := ClassFor(AvailableMetrics, toggles[i].key);
      if !toggles[i].enabled || kind.None? {
        continue;
      }
      registry.RegisterMetric(kind.value);
    }
    assert toggles[..|toggles|] == toggles;
  }

  /**
   * `registerChecksAndMetrics($registry)`: every enabled catalogue check is
   * appended, in toggle order, then every enabled catalogue metric.
   */
  method RegisterChecksAndMetrics(registry: HealthCheckRegistry, storedChecks: Value, storedMetrics: Value)
    modifies registry
    ensures registry.checks == old(registry.checks) + Selected(Normalized(storedChecks, DefaultCheckToggles()), AvailableChecks)
    ensures registry.metrics == old(registry.metrics) + Selected(Normalized(storedMetrics, DefaultMetricToggles()), AvailableMetrics)
  {
    var checks := EnabledChecks(storedChecks);
    RegisterChecks(registry, checks);
    var metrics := EnabledMetrics(storedMetrics);
    RegisterMetrics(registry, metrics);
  }
}
