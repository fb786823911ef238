/** What `writeSeriesData` sends for the example report of `parse`. */
module SampleSeries {
  import opened Wrappers
  import opened FpmStatus
  import opened Sample
  import opened FpmReporter

  /** The raw values of a batch's series, in order. */
  function Values(b: Batch): seq<Option<string>> {
    seq(|b.series|, i requires 0 <= i < |b.series| => b.series[i].value)
  }

  /** The example pool reports all three groups: processes idle 6, active
      1, total 7 and max 13; queues 0, 0 and 0; requests 37211 accepted
      connections and 0 slow ones, counted from the parsed start time. */
  lemma SampleSeriesSent(projectId: string, statusUrl: string, now: int, strtotime: Option<string> -> int)
    ensures var r := WriteSeriesData(projectId, NewStatus(statusUrl).Parsed(SampleReport), now, strtotime);
            && BatchGroups(r) == [Processes, Queues, Requests]
            && Values(r[0]) == [Some("6"), Some("1"), Some("7"), Some("13")]
            && Values(r[1]) == [Some("0"), Some("0"), Some("0")]
            && Values(r[2]) == [Some("37211"), Some("0")]
            && r[2].series[0].interval.startTime == Some(strtotime(Some("23/Jun/2019:12:13:50 +0200")))
  {
    var status := NewStatus(statusUrl).Parsed(SampleReport);
    SampleStatusLookups(statusUrl);
    var r := WriteSeriesData(projectId, status, now, strtotime);
    EmittedGroups(projectId, status, now, strtotime);
    BatchValues(projectId, status, now, strtotime, 0, Processes);
    BatchValues(projectId, status, now, strtotime, 1, Queues);
    BatchValues(projectId, status, now, strtotime, 2, Requests);
    SampleFieldValues(status);
    SeriesSent(projectId, status, now, strtotime);
    assert r[2] in r;
  }

  lemma SampleFieldValues(status: Status)
    requires status.Get("idle_processes") == Some("6")
    requires status.Get("active_processes") == Some("1")
    requires status.Get("total_processes") == Some("7")
    requires status.Get("max_active_processes") == Some("13")
    requires status.Get("listen_queue") == Some("0")
    requires status.Get("max_listen_queue") == Some("0")
    requires status.Get("listen_queue_len") == Some("0")
    requires status.Get("accepted_conn") == Some("37211")
    requires status.Get("slow_requests") == Some("0")
    ensures FieldValues(status, Fields(Processes)) == [Some("6"), Some("1"), Some("7"), Some("13")]
    ensures FieldValues(status, Fields(Queues)) == [Some("0"), Some("0"), Some("0")]
    ensures FieldValues(status, Fields(Requests)) == [Some("37211"), Some("0")]
  {
  }

  /** The example report parsed into a fresh status. */
  lemma SampleStatusLookups(statusUrl: string)
    ensures var status := NewStatus(statusUrl).Parsed(SampleReport);
            && status.Get("idle_processes") == Some("6")
            && status.Get("active_processes") == Some("1")
            && status.Get("total_processes") == Some("7")
            && status.Get("max_active_processes") == Some("13")
            && status.IsSet("listen_queue") && status.Get("listen_queue") == Some("0")
            && status.Get("max_listen_queue") == Some("0")
            && status.Get("listen_queue_len") == Some("0")
            && status.Get("accepted_conn") == Some("37211")
            && status.Get("slow_requests") == Some("0")
            && status.Get("start_time") == Some("23/Jun/2019:12:13:50 +0200")
  {
    SampleReportParses();
    SampleLookups(NewStatus(statusUrl).Parsed(SampleReport));
  }

  /** The values of the `k`-th batch sent are those of its group's fields. */
  lemma BatchValues(projectId: string, status: Status, now: int, strtotime: Option<string> -> int, k: nat, g: Group)
    requires var r := WriteSeriesData(projectId, status, now, strtotime); k < |r| && r[k].group == g
    ensures var r := WriteSeriesData(projectId, status, now, strtotime);
            Values(r[k]) == FieldValues(status, Fields(g))
  {
    var r := WriteSeriesData(projectId, status, now, strtotime);
    SeriesSent(projectId, status, now, strtotime);
    PlanGroupsEmitted(MetricGroups, projectId, status, now, strtotime);
    assert r[k] in r;
  }

  /** The values of a table's fields, in the table's order. */
  function FieldValues(status: Status, fields: seq<(string, string)>): seq<Option<string>> {
    seq(|fields|, i requires 0 <= i < |fields| => status.Get(fields[i].1))
  }

  /** The fields the reporter reads, looked up in the example's entries. */
  lemma SampleLookups(status: Status)
    requires status.data == SampleEntries
    ensures status.Get("idle_processes") == Some("6")
    ensures status.Get("active_processes") == Some("1")
    ensures status.Get("total_processes") == Some("7")
    ensures status.Get("max_active_processes") == Some("13")
    ensures status.IsSet("listen_queue") && status.Get("listen_queue") == Some("0")
    ensures status.Get("max_listen_queue") == Some("0")
    ensures status.Get("listen_queue_len") == Some("0")
    ensures status.Get("accepted_conn") == Some("37211")
    ensures status.Get("slow_requests") == Some("0")
    ensures status.Get("start_time") == Some("23/Jun/2019:12:13:50 +0200")
  {
  }
}
