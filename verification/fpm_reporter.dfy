/** `FpmReporter::writeSeriesData` without the monitoring client: the
    batches of time series it hands to `createTimeSeries`, one batch per
    metric group, in the order of `METRIC_TYPES`. */
module FpmReporter {
  import opened Wrappers
  import opened CharClasses
  import opened StatusKey
  import opened FpmStatus

  /** The keys of `METRIC_TYPES`. */
  datatype Group = Processes | Queues | Requests

  /** `METRIC_TYPES` in declaration order, which is the order of the loop. */
  const MetricGroups: seq<Group> := [Processes, Queues, Requests]

  /** The key of a group in `METRIC_TYPES`. */
  function GroupName(g: Group): string {
    match g
    case Processes => "processes"
    case Queues => "queues"
    case Requests => "requests"
  }

  const MetricTypePrefix: string := "custom.googleapis.com/php_fpm/"

  /** The metric type `METRIC_TYPES` maps a group to: the common prefix
      followed by the group's own key. */
  function MetricType(g: Group): (r: string)
    ensures r == MetricTypePrefix + GroupName(g)
  {
    match g
    case Processes => "custom.googleapis.com/php_fpm/processes"
    case Queues => "custom.googleapis.com/php_fpm/queues"
    case Requests => "custom.googleapis.com/php_fpm/requests"
  }

  /** Every group of the loop has its own metric type, so no two batches
      write to the same metric. */
  lemma MetricTypesDistinct(g: Group, h: Group)
    ensures MetricType(g) == MetricType(h) <==> g == h
  {
    if g != h {
      var i := |MetricTypePrefix|;
      assert MetricType(g)[i] != MetricType(h)[i];
    }
  }

  /** The metric kind `createMetricDescriptor` declares for each group. */
  datatype MetricKind = Gauge | Cumulative

  function Kind(g: Group): MetricKind {
    match g
    case Processes => Gauge
    case Queues => Gauge
    case Requests => Cumulative
  }

  /** The `$values` table of a group: the `value_type` label of each series
      and the status field whose value it reports, in the table's order. */
  function Fields(g: Group): seq<(string, string)> {
    match g
    case Processes => [
      ("idle", "idle_processes"),
      ("active", "active_processes"),
      ("total", "total_processes"),
      ("max", "max_active_processes")]
    case Queues => [
      ("listen", "listen_queue"),
      ("max", "max_listen_queue"),
      ("len", "listen_queue_len")]
    case Requests => [
      ("connections", "accepted_conn"),
      ("slow", "slow_requests")]
  }

  /** The labels of a group are distinct (they are the keys of a PHP
      array), and every field read has the shape of a parsed key: two or
      more word characters. */
  lemma FieldsWellFormed(g: Group)
    ensures forall i, j :: 0 <= i < j < |Fields(g)| ==> Fields(g)[i].0 != Fields(g)[j].0
    ensures forall i :: 0 <= i < |Fields(g)| ==> IsStatusKey(Fields(g)[i].1)
  {
    forall i | 0 <= i < |Fields(g)| ensures IsStatusKey(Fields(g)[i].1) {
      FieldIsStatusKey(Fields(g)[i].1);
    }
  }

  lemma FieldIsStatusKey(f: string)
    requires f in {"idle_processes", "active_processes", "total_processes", "max_active_processes",
                   "listen_queue", "max_listen_queue", "listen_queue_len",
                   "accepted_conn", "slow_requests"}
    ensures IsStatusKey(f)
  {
    if f == "idle_processes" { IdleProcessesIsStatusKey(); }
    else if f == "active_processes" { ActiveProcessesIsStatusKey(); }
    else if f == "total_processes" { TotalProcessesIsStatusKey(); }
    else if f == "max_active_processes" { MaxActiveProcessesIsStatusKey(); }
    else if f == "listen_queue" { ListenQueueIsStatusKey(); }
    else if f == "max_listen_queue" { MaxListenQueueIsStatusKey(); }
    else if f == "listen_queue_len" { ListenQueueLenIsStatusKey(); }
    else if f == "accepted_conn" { AcceptedConnIsStatusKey(); }
    else { SlowRequestsIsStatusKey(); }
  }

  lemma IdleProcessesIsStatusKey() ensures IsStatusKey("idle_processes") {}
  lemma ActiveProcessesIsStatusKey() ensures IsStatusKey("active_processes") {}
  lemma TotalProcessesIsStatusKey() ensures IsStatusKey("total_processes") {}
  lemma MaxActiveProcessesIsStatusKey() ensures IsStatusKey("max_active_processes") {}
  lemma ListenQueueIsStatusKey() ensures IsStatusKey("listen_queue") {}
  lemma MaxListenQueueIsStatusKey() ensures IsStatusKey("max_listen_queue") {}
  lemma ListenQueueLenIsStatusKey() ensures IsStatusKey("listen_queue_len") {}
  lemma AcceptedConnIsStatusKey() ensures IsStatusKey("accepted_conn") {}
  lemma SlowRequestsIsStatusKey() ensures IsStatusKey("slow_requests") {}

  /** The interval of a point: an end time, and a start time only where
      one was set. */
  datatype Interval = Interval(startTime: Option<int>, endTime: int)

  /** One `TimeSeries`: the metric type and its `value_type` label, the
      single point's raw value (`null` for a field that was not parsed)
      and interval, and the `global` resource labelled with the project. */
  datatype TimeSeries = TimeSeries(
    metricType: string,
    valueType: string,
    value: Option<string>,
    interval: Interval,
    resourceType: string,
    projectId: string)

  /** The series of one `createTimeSeries` call. */
  datatype Batch = Batch(group: Group, series: seq<TimeSeries>)

  /** The interval of a group's points. The end time is `now`; only the
      requests group, whose counters are cumulative, gets the start time,
      which `strtotime` derives from the `start_time` field. */
  function GroupInterval(g: Group, status: Status, now: int, strtotime: Option<string> -> int): (r: Interval)
    ensures r.endTime == now
    ensures r.startTime.Some? <==> Kind(g) == Cumulative
    ensures r.startTime.Some? ==> r.startTime.value == strtotime(status.Get("start_time"))
  {
    if g == Requests then Interval(Some(strtotime(status.Get("start_time"))), now)
    else Interval(None, now)
  }

  /** The inner `foreach`: one series per entry of the table, in order. */
  function GroupSeries(g: Group, fields: seq<(string, string)>, projectId: string, status: Status, interval: Interval): (r: seq<TimeSeries>)
    ensures |r| == |fields|
    ensures forall i :: 0 <= i < |r| ==>
              && r[i].metricType == MetricType(g)
              && r[i].valueType == fields[i].0
              && r[i].value == status.Get(fields[i].1)
              && r[i].interval == interval
              && r[i].resourceType == "global"
              && r[i].projectId == projectId
  {
    if |fields| == 0 then []
    else
      [TimeSeries(MetricType(g), fields[0].0, status.Get(fields[0].1), interval, "global", projectId)]
        + GroupSeries(g, fields[1..], projectId, status, interval)
  }

  /** One turn of the outer loop: the group's batch, or nothing when the
      queues group is skipped because `listen_queue` was not parsed. */
  function GroupBatch(g: Group, projectId: string, status: Status, now: int, strtotime: Option<string> -> int): (r: Option<Batch>)
    ensures r.None? <==> g == Queues && !status.IsSet("listen_queue")
    ensures r.Some? ==> r.value.group == g && |r.value.series| == |Fields(g)|
  {
    if g == Queues && !status.IsSet("listen_queue") then None
    else
      var interval := GroupInterval(g, status, now, strtotime);
      Some(Batch(g, GroupSeries(g, Fields(g), projectId, status, interval)))
  }

  /** The outer loop over a sequence of groups. */
  function PlanGroups(groups: seq<Group>, projectId: string, status: Status, now: int, strtotime: Option<string> -> int): (r: seq<Batch>)
    ensures |r| <= |groups|
  {
    if |groups| == 0 then []
    else
      var head := GroupBatch(groups[0], projectId, status, now, strtotime);
      (if head.Some? then [head.value] else [])
        + PlanGroups(groups[1..], projectId, status, now, strtotime)
  }

  /** What `writeSeriesData` sends for a parsed status: one batch per
      group of `METRIC_TYPES` that is not skipped. The clock is read once,
      as `now`; `strtotime` is the date parser. */
  function WriteSeriesData(projectId: string, status: Status, now: int, strtotime: Option<string> -> int): seq<Batch> {
    PlanGroups(MetricGroups, projectId, status, now, strtotime)
  }

  function BatchGroups(batches: seq<Batch>): (r: seq<Group>)
    ensures |r| == |batches|
    ensures forall i :: 0 <= i < |r| ==> r[i] == batches[i].group
  {
    if |batches| == 0 then [] else [batches[0].group] + BatchGroups(batches[1..])
  }

  lemma BatchGroupsCons(b: Batch, rest: seq<Batch>)
    ensures BatchGroups([b] + rest) == [b.group] + BatchGroups(rest)
  {
    assert ([b] + rest)[1..] == rest;
  }

  /** The groups of `groups` the loop does not skip, in order. */
  function Emitted(groups: seq<Group>, status: Status): (r: seq<Group>)
    ensures |r| <= |groups|
  {
    if |groups| == 0 then []
    else if groups[0] == Queues && !status.IsSet("listen_queue") then Emitted(groups[1..], status)
    else [groups[0]] + Emitted(groups[1..], status)
  }

  /** The batches of the outer loop are those of the groups not skipped,
      in the order of the groups, each the group's own batch. */
  lemma PlanGroupsEmitted(groups: seq<Group>, projectId: string, status: Status, now: int, strtotime: Option<string> -> int)
    ensures BatchGroups(PlanGroups(groups, projectId, status, now, strtotime)) == Emitted(groups, status)
    ensures forall b :: b in PlanGroups(groups, projectId, status, now, strtotime) ==>
              b.group in groups && GroupBatch(b.group, projectId, status, now, strtotime) == Some(b)
  {
    PlanGroupsOrder(groups, projectId, status, now, strtotime);
    PlanGroupsOwnBatches(groups, projectId, status, now, strtotime);
  }

  lemma {:induction false} PlanGroupsOrder(groups: seq<Group>, projectId: string, status: Status, now: int, strtotime: Option<string> -> int)
    ensures BatchGroups(PlanGroups(groups, projectId, status, now, strtotime)) == Emitted(groups, status)
  {
    if |groups| > 0 {
      var rest := PlanGroups(groups[1..], projectId, status, now, strtotime);
      PlanGroupsOrder(groups[1..], projectId, status, now, strtotime);
      var head := GroupBatch(groups[0], projectId, status, now, strtotime);
      if head.Some? {
        BatchGroupsCons(head.value, rest);
      } else {
        assert [] + rest == rest;
      }
    }
  }

  lemma {:induction false} PlanGroupsOwnBatches(groups: seq<Group>, projectId: string, status: Status, now: int, strtotime: Option<string> -> int)
    ensures forall b :: b in PlanGroups(groups, projectId, status, now, strtotime) ==>
              b.group in groups && GroupBatch(b.group, projectId, status, now, strtotime) == Some(b)
  {
    if |groups| > 0 {
      var rest := PlanGroups(groups[1..], projectId, status, now, strtotime);
      PlanGroupsOwnBatches(groups[1..], projectId, status, now, strtotime);
      var head := GroupBatch(groups[0], projectId, status, now, strtotime);
      forall b | b in PlanGroups(groups, projectId, status, now, strtotime)
        ensures b.group in groups && GroupBatch(b.group, projectId, status, now, strtotime) == Some(b)
      {
        if b !in rest {
          assert head.Some? && b == head.value;
        } else {
          assert b.group in groups[1..];
        }
      }
    }
  }

  /** The groups sent, in order: processes, queues and requests when
      `listen_queue` was parsed, whatever its value, and processes and
      requests otherwise. */
  lemma EmittedGroups(projectId: string, status: Status, now: int, strtotime: Option<string> -> int)
    ensures BatchGroups(WriteSeriesData(projectId, status, now, strtotime)) ==
              if status.IsSet("listen_queue") then [Processes, Queues, Requests] else [Processes, Requests]
  {
    PlanGroupsEmitted(MetricGroups, projectId, status, now, strtotime);
    EmittedMetricGroups(status);
  }

  lemma EmittedMetricGroups(status: Status)
    ensures Emitted(MetricGroups, status) ==
              if status.IsSet("listen_queue") then [Processes, Queues, Requests] else [Processes, Requests]
  {
    var gs := MetricGroups;
    assert gs[1..] == [Queues, Requests];
    assert gs[1..][1..] == [Requests];
    assert gs[1..][1..][1..] == [];
    assert Emitted([Requests], status) == [Requests];
  }

  /** Every series sent carries its group's metric type, the label of its
      table entry and that entry's field value (`null` when the field was
      not parsed), the `global` resource of the project, and an interval
      that ends at `now` and starts, at `strtotime` of the start time,
      exactly for the cumulative group. */
  lemma SeriesSent(projectId: string, status: Status, now: int, strtotime: Option<string> -> int)
    ensures forall b, i :: b in WriteSeriesData(projectId, status, now, strtotime) && 0 <= i < |b.series| ==>
              && i < |Fields(b.group)|
              && b.series[i].metricType == MetricType(b.group)
              && b.series[i].valueType == Fields(b.group)[i].0
              && b.series[i].value == status.Get(Fields(b.group)[i].1)
              && b.series[i].resourceType == "global"
              && b.series[i].projectId == projectId
              && b.series[i].interval.endTime == now
              && (b.series[i].interval.startTime.Some? <==> Kind(b.group) == Cumulative)
              && (b.series[i].interval.startTime.Some? ==>
                    b.series[i].interval.startTime.value == strtotime(status.Get("start_time")))
  {
    PlanGroupsEmitted(MetricGroups, projectId, status, now, strtotime);
  }

  /** Nine series go out when `listen_queue` was parsed, six otherwise. */
  lemma SeriesCount(projectId: string, status: Status, now: int, strtotime: Option<string> -> int)
    ensures SeriesTotal(WriteSeriesData(projectId, status, now, strtotime)) ==
              if status.IsSet("listen_queue") then 9 else 6
  {
    PlanSeriesTotal(MetricGroups, projectId, status, now, strtotime);
    EmittedMetricGroups(status);
    var three: seq<Group> := [Processes, Queues, Requests];
    var two: seq<Group> := [Processes, Requests];
    assert three[1..] == [Queues, Requests] && three[1..][1..] == [Requests];
    assert two[1..] == [Requests];
    assert FieldCount([Requests]) == 2;
  }

  /** The number of series across a sequence of batches. */
  function SeriesTotal(batches: seq<Batch>): nat {
    if |batches| == 0 then 0 else |batches[0].series| + SeriesTotal(batches[1..])
  }

  /** The number of table entries across a sequence of groups. */
  function FieldCount(groups: seq<Group>): nat {
    if |groups| == 0 then 0 else |Fields(groups[0])| + FieldCount(groups[1..])
  }

  /** The outer loop sends one series per table entry of each group it
      does not skip. */
  lemma {:induction false} PlanSeriesTotal(groups: seq<Group>, projectId: string, status: Status, now: int, strtotime: Option<string> -> int)
    ensures SeriesTotal(PlanGroups(groups, projectId, status, now, strtotime)) == FieldCount(Emitted(groups, status))
  {
    if |groups| > 0 {
      PlanSeriesTotal(groups[1..], projectId, status, now, strtotime);
      var rest := PlanGroups(groups[1..], projectId, status, now, strtotime);
      var head := GroupBatch(groups[0], projectId, status, now, strtotime);
      if head.Some? {
        assert ([head.value] + rest)[1..] == rest;
        assert ([groups[0]] + Emitted(groups[1..], status))[1..] == Emitted(groups[1..], status);
      } else {
        assert [] + rest == rest;
      }
    }
  }

  /** The processes group has no presence check: with nothing parsed it
      still sends its four series, each without a value, and the requests
      group its two. */
  lemma NothingParsed(projectId: string, statusUrl: string, now: int, strtotime: Option<string> -> int)
    ensures var r := WriteSeriesData(projectId, NewStatus(statusUrl), now, strtotime);
            && BatchGroups(r) == [Processes, Requests]
            && |r[0].series| == 4 && |r[1].series| == 2
            && forall b, i :: b in r && 0 <= i < |b.series| ==> b.series[i].value == None
  {
    var status := NewStatus(statusUrl);
    EmittedGroups(projectId, status, now, strtotime);
    SeriesSent(projectId, status, now, strtotime);
    PlanGroupsEmitted(MetricGroups, projectId, status, now, strtotime);
    var r := WriteSeriesData(projectId, status, now, strtotime);
    assert r[0] in r && r[1] in r;
    assert |r[0].series| == |Fields(Processes)|;
    assert |r[1].series| == |Fields(Requests)|;
  }

  /** The queues gate is key presence, not truthiness: a `listen_queue`
      of `0` still sends the queues batch, reporting that `0`. */
  lemma ZeroListenQueueSent(projectId: string, status: Status, now: int, strtotime: Option<string> -> int)
    requires status.Get("listen_queue") == Some("0")
    ensures var r := WriteSeriesData(projectId, status, now, strtotime);
            && |r| == 3 && r[1].group == Queues && |r[1].series| == 3
            && r[1].series[0].valueType == "listen" && r[1].series[0].value == Some("0")
  {
    EmittedGroups(projectId, status, now, strtotime);
    SeriesSent(projectId, status, now, strtotime);
    var r := WriteSeriesData(projectId, status, now, strtotime);
    assert r[1] in r;
    PlanGroupsEmitted(MetricGroups, projectId, status, now, strtotime);
    assert |r[1].series| == |Fields(Queues)|;
  }
}
