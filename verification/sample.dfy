/** The example report in the doc comment of `parse` (main.php), and
    what the parser makes of it. */
module Sample {
  import opened Wrappers
  import opened CharClasses
  import opened TextLines
  import opened StatusKey
  import opened LinePattern
  import opened FpmStatus

  /** The lines of the example report of a dynamic pool. */

  const PoolLine := "pool:                 www"
  const ProcessManagerLine := "process manager:      dynamic"
  const StartTimeLine := "start time:           23/Jun/2019:12:13:50 +0200"
  const StartSinceLine := "start since:          577793"
  const AcceptedConnLine := "accepted conn:        37211"
  const ListenQueueLine := "listen queue:         0"
  const MaxListenQueueLine := "max listen queue:     0"
  const ListenQueueLenLine := "listen queue len:     0"
  const IdleProcessesLine := "idle processes:       6"
  const ActiveProcessesLine := "active processes:     1"
  const TotalProcessesLine := "total processes:      7"
  const MaxActiveProcessesLine := "max active processes: 13"
  const MaxChildrenReachedLine := "max children reached: 0"
  const SlowRequestsLine := "slow requests:        0"

  const SampleLines: seq<string> := [
    PoolLine,
    ProcessManagerLine,
    StartTimeLine,
    StartSinceLine,
    AcceptedConnLine,
    ListenQueueLine,
    MaxListenQueueLine,
    ListenQueueLenLine,
    IdleProcessesLine,
    ActiveProcessesLine,
    TotalProcessesLine,
    MaxActiveProcessesLine,
    MaxChildrenReachedLine,
    SlowRequestsLine
  ]

  /** The report as the status page serves it, one line per field. */
  const SampleReport: string := Join(SampleLines)

  /** The fourteen entries the example yields. */
  const SampleEntries: map<string, string> := map[
    "pool" := "www",
    "process_manager" := "dynamic",
    "start_time" := "23/Jun/2019:12:13:50 +0200",
    "start_since" := "577793",
    "accepted_conn" := "37211",
    "listen_queue" := "0",
    "max_listen_queue" := "0",
    "listen_queue_len" := "0",
    "idle_processes" := "6",
    "active_processes" := "1",
    "total_processes" := "7",
    "max_active_processes" := "13",
    "max_children_reached" := "0",
    "slow_requests" := "0"
  ]

  /** Parsing the example report gives exactly its fourteen entries; among
      them `process_manager` is `dynamic`, and the start time keeps the
      colons after the first one. */
  lemma SampleReportParses()
    ensures Parse(SampleReport) == SampleEntries
    ensures Parse(SampleReport)["process_manager"] == "dynamic"
    ensures Parse(SampleReport)["start_time"] == "23/Jun/2019:12:13:50 +0200"
  {
    SampleReportLines();
    SampleLinesParse();
    SampleEntriesLookups();
  }

  lemma SampleEntriesLookups()
    ensures "process_manager" in SampleEntries && SampleEntries["process_manager"] == "dynamic"
    ensures "start_time" in SampleEntries && SampleEntries["start_time"] == "23/Jun/2019:12:13:50 +0200"
  {
  }

  /** The report splits back into its lines. */
  lemma SampleReportLines()
    ensures Lines(SampleReport) == SampleLines
  {
    forall i | 0 <= i < |SampleLines| ensures Unbroken(SampleLines[i]) {
      if i == 0 {
        assert SampleLines[0] == PoolLine;
        PoolEntry();
      } else if i == 1 {
        assert SampleLines[1] == ProcessManagerLine;
        ProcessManagerEntry();
      } else if i == 2 {
        assert SampleLines[2] == StartTimeLine;
        StartTimeEntry();
      } else if i == 3 {
        assert SampleLines[3] == StartSinceLine;
        StartSinceEntry();
      } else if i == 4 {
        assert SampleLines[4] == AcceptedConnLine;
        AcceptedConnEntry();
      } else if i == 5 {
        assert SampleLines[5] == ListenQueueLine;
        ListenQueueEntry();
      } else if i == 6 {
        assert SampleLines[6] == MaxListenQueueLine;
        MaxListenQueueEntry();
      } else if i == 7 {
        assert SampleLines[7] == ListenQueueLenLine;
        ListenQueueLenEntry();
      } else if i == 8 {
        assert SampleLines[8] == IdleProcessesLine;
        IdleProcessesEntry();
      } else if i == 9 {
        assert SampleLines[9] == ActiveProcessesLine;
        ActiveProcessesEntry();
      } else if i == 10 {
        assert SampleLines[10] == TotalProcessesLine;
        TotalProcessesEntry();
      } else if i == 11 {
        assert SampleLines[11] == MaxActiveProcessesLine;
        MaxActiveProcessesEntry();
      } else if i == 12 {
        assert SampleLines[12] == MaxChildrenReachedLine;
        MaxChildrenReachedEntry();
      } else {
        assert SampleLines[13] == SlowRequestsLine;
        SlowRequestsEntry();
      }
    }
    JoinKeepsCharacters(SampleLines, '\r');
    ExplodeJoin(SampleLines);
  }

  /** The parse loop over the lines of the report, one turn per line. */
  lemma SampleLinesParse()
    ensures ParseLines(SampleLines, map[]) == SampleEntries
  {
    var m0: map<string, string> := map[];
    assert SampleLines[0..] == SampleLines;
    var m1 := m0["pool" := "www"];
    PoolStep(m0);
    var m2 := m1["process_manager" := "dynamic"];
    ProcessManagerStep(m1);
    var m3 := m2["start_time" := "23/Jun/2019:12:13:50 +0200"];
    StartTimeStep(m2);
    var m4 := m3["start_since" := "577793"];
    StartSinceStep(m3);
    var m5 := m4["accepted_conn" := "37211"];
    AcceptedConnStep(m4);
    var m6 := m5["listen_queue" := "0"];
    ListenQueueStep(m5);
    var m7 := m6["max_listen_queue" := "0"];
    MaxListenQueueStep(m6);
    var m8 := m7["listen_queue_len" := "0"];
    ListenQueueLenStep(m7);
    var m9 := m8["idle_processes" := "6"];
    IdleProcessesStep(m8);
    var m10 := m9["active_processes" := "1"];
    ActiveProcessesStep(m9);
    var m11 := m10["total_processes" := "7"];
    TotalProcessesStep(m10);
    var m12 := m11["max_active_processes" := "13"];
    MaxActiveProcessesStep(m11);
    var m13 := m12["max_children_reached" := "0"];
    MaxChildrenReachedStep(m12);
    var m14 := m13["slow_requests" := "0"];
    SlowRequestsStep(m13);
    assert SampleLines[14..] == [];
    SampleEntriesInOrder();
  }

  /** The fourteen stores, in the order of the lines, build the expected map. */
  lemma SampleEntriesInOrder()
    ensures map[]["pool" := "www"]["process_manager" := "dynamic"]["start_time" := "23/Jun/2019:12:13:50 +0200"]["start_since" := "577793"]["accepted_conn" := "37211"]["listen_queue" := "0"]["max_listen_queue" := "0"]["listen_queue_len" := "0"]["idle_processes" := "6"]["active_processes" := "1"]["total_processes" := "7"]["max_active_processes" := "13"]["max_children_reached" := "0"]["slow_requests" := "0"] == SampleEntries
  {
  }

  lemma PoolStep(m: map<string, string>)
    ensures ParseLines(SampleLines[0..], m) == ParseLines(SampleLines[1..], m["pool" := "www"])
  {
    assert SampleLines[0] == PoolLine;
    PoolEntry();
    ParseStep(SampleLines, 0, m, "pool", "www");
  }

  lemma ProcessManagerStep(m: map<string, string>)
    ensures ParseLines(SampleLines[1..], m) == ParseLines(SampleLines[2..], m["process_manager" := "dynamic"])
  {
    assert SampleLines[1] == ProcessManagerLine;
    ProcessManagerEntry();
    ParseStep(SampleLines, 1, m, "process_manager", "dynamic");
  }

  lemma StartTimeStep(m: map<string, string>)
    ensures ParseLines(SampleLines[2..], m) == ParseLines(SampleLines[3..], m["start_time" := "23/Jun/2019:12:13:50 +0200"])
  {
    assert SampleLines[2] == StartTimeLine;
    StartTimeEntry();
    ParseStep(SampleLines, 2, m, "start_time", "23/Jun/2019:12:13:50 +0200");
  }

  lemma StartSinceStep(m: map<string, string>)
    ensures ParseLines(SampleLines[3..], m) == ParseLines(SampleLines[4..], m["start_since" := "577793"])
  {
    assert SampleLines[3] == StartSinceLine;
    StartSinceEntry();
    ParseStep(SampleLines, 3, m, "start_since", "577793");
  }

  lemma AcceptedConnStep(m: map<string, string>)
    ensures ParseLines(SampleLines[4..], m) == ParseLines(SampleLines[5..], m["accepted_conn" := "37211"])
  {
    assert SampleLines[4] == AcceptedConnLine;
    AcceptedConnEntry();
    ParseStep(SampleLines, 4, m, "accepted_conn", "37211");
  }

  lemma ListenQueueStep(m: map<string, string>)
    ensures ParseLines(SampleLines[5..], m) == ParseLines(SampleLines[6..], m["listen_queue" := "0"])
  {
    assert SampleLines[5] == ListenQueueLine;
    ListenQueueEntry();
    ParseStep(SampleLines, 5, m, "listen_queue", "0");
  }

  lemma MaxListenQueueStep(m: map<string, string>)
    ensures ParseLines(SampleLines[6..], m) == ParseLines(SampleLines[7..], m["max_listen_queue" := "0"])
  {
    assert SampleLines[6] == MaxListenQueueLine;
    MaxListenQueueEntry();
    ParseStep(SampleLines, 6, m, "max_listen_queue", "0");
  }

  lemma ListenQueueLenStep(m: map<string, string>)
    ensures ParseLines(SampleLines[7..], m) == ParseLines(SampleLines[8..], m["listen_queue_len" := "0"])
  {
    assert SampleLines[7] == ListenQueueLenLine;
    ListenQueueLenEntry();
    ParseStep(SampleLines, 7, m, "listen_queue_len", "0");
  }

  lemma IdleProcessesStep(m: map<string, string>)
    ensures ParseLines(SampleLines[8..], m) == ParseLines(SampleLines[9..], m["idle_processes" := "6"])
  {
    assert SampleLines[8] == IdleProcessesLine;
    IdleProcessesEntry();
    ParseStep(SampleLines, 8, m, "idle_processes", "6");
  }

  lemma ActiveProcessesStep(m: map<string, string>)
    ensures ParseLines(SampleLines[9..], m) == ParseLines(SampleLines[10..], m["active_processes" := "1"])
  {
    assert SampleLines[9] == ActiveProcessesLine;
    ActiveProcessesEntry();
    ParseStep(SampleLines, 9, m, "active_processes", "1");
  }

  lemma TotalProcessesStep(m: map<string, string>)
    ensures ParseLines(SampleLines[10..], m) == ParseLines(SampleLines[11..], m["total_processes" := "7"])
  {
    assert SampleLines[10] == TotalProcessesLine;
    TotalProcessesEntry();
    ParseStep(SampleLines, 10, m, "total_processes", "7");
  }

  lemma MaxActiveProcessesStep(m: map<string, string>)
    ensures ParseLines(SampleLines[11..], m) == ParseLines(SampleLines[12..], m["max_active_processes" := "13"])
  {
    assert SampleLines[11] == MaxActiveProcessesLine;
    MaxActiveProcessesEntry();
    ParseStep(SampleLines, 11, m, "max_active_processes", "13");
  }

  lemma MaxChildrenReachedStep(m: map<string, string>)
    ensures ParseLines(SampleLines[12..], m) == ParseLines(SampleLines[13..], m["max_children_reached" := "0"])
  {
    assert SampleLines[12] == MaxChildrenReachedLine;
    MaxChildrenReachedEntry();
    ParseStep(SampleLines, 12, m, "max_children_reached", "0");
  }

  lemma SlowRequestsStep(m: map<string, string>)
    ensures ParseLines(SampleLines[13..], m) == ParseLines(SampleLines[14..], m["slow_requests" := "0"])
  {
    assert SampleLines[13] == SlowRequestsLine;
    SlowRequestsEntry();
    ParseStep(SampleLines, 13, m, "slow_requests", "0");
  }

  lemma PoolEntry()
    ensures Entry(PoolLine) == Some(("pool", "www")) && Unbroken(PoolLine)
  {
    PoolParts();
    PoolField();
    PoolKey();
    SampleEntry(PoolLine, "pool", "                 ", "www", "pool");
  }

  lemma PoolParts()
    ensures PoolLine == "pool" + ":" + "                 " + "www"
  {
  }

  lemma PoolField()
    ensures IsCapturedKey("pool") && Unbroken("pool")
    ensures AllSpace("                 ") && Unbroken("                 ")
    ensures !IsSpace("www"[0]) && Unbroken("www")
  {
  }

  lemma PoolKey()
    ensures NormalizeKey("pool") == "pool"
  {
    NormalizeKeyFixedPoints("pool");
  }

  lemma ProcessManagerEntry()
    ensures Entry(ProcessManagerLine) == Some(("process_manager", "dynamic")) && Unbroken(ProcessManagerLine)
  {
    ProcessManagerParts();
    ProcessManagerField();
    ProcessManagerKey();
    SampleEntry(ProcessManagerLine, "process manager", "      ", "dynamic", "process_manager");
  }

  lemma ProcessManagerParts()
    ensures ProcessManagerLine == "process manager" + ":" + "      " + "dynamic"
  {
  }

  lemma ProcessManagerField()
    ensures IsCapturedKey("process manager") && Unbroken("process manager")
    ensures AllSpace("      ") && Unbroken("      ")
    ensures !IsSpace("dynamic"[0]) && Unbroken("dynamic")
  {
  }

  lemma ProcessManagerKey()
    ensures NormalizeKey("process manager") == "process_manager"
  {
    assert "process manager" == "process" + " " + "manager";
    assert "process_manager" == "process" + "_" + "manager";
    NormalizeTwoWords("process", "manager");
  }

  lemma StartTimeEntry()
    ensures Entry(StartTimeLine) == Some(("start_time", "23/Jun/2019:12:13:50 +0200")) && Unbroken(StartTimeLine)
  {
    StartTimeParts();
    StartTimeField();
    StartTimeKey();
    SampleEntry(StartTimeLine, "start time", "           ", "23/Jun/2019:12:13:50 +0200", "start_time");
  }

  lemma StartTimeParts()
    ensures StartTimeLine == "start time" + ":" + "           " + "23/Jun/2019:12:13:50 +0200"
  {
    StartTimeHalves();
    StartTimeHead();
  }

  lemma StartTimeHalves()
    ensures StartTimeLine == "start time:           " + "23/Jun/2019:12:13:50 +0200"
  {
  }

  lemma StartTimeHead()
    ensures "start time:           " == "start time" + ":" + "           "
  {
  }

  lemma StartTimeField()
    ensures IsCapturedKey("start time") && Unbroken("start time")
    ensures AllSpace("           ") && Unbroken("           ")
    ensures !IsSpace("23/Jun/2019:12:13:50 +0200"[0]) && Unbroken("23/Jun/2019:12:13:50 +0200")
  {
  }

  lemma StartTimeKey()
    ensures NormalizeKey("start time") == "start_time"
  {
    assert "start time" == "start" + " " + "time";
    assert "start_time" == "start" + "_" + "time";
    NormalizeTwoWords("start", "time");
  }

  lemma StartSinceEntry()
    ensures Entry(StartSinceLine) == Some(("start_since", "577793")) && Unbroken(StartSinceLine)
  {
    StartSinceParts();
    StartSinceField();
    StartSinceKey();
    SampleEntry(StartSinceLine, "start since", "          ", "577793", "start_since");
  }

  lemma StartSinceParts()
    ensures StartSinceLine == "start since" + ":" + "          " + "577793"
  {
  }

  lemma StartSinceField()
    ensures IsCapturedKey("start since") && Unbroken("start since")
    ensures AllSpace("          ") && Unbroken("          ")
    ensures !IsSpace("577793"[0]) && Unbroken("577793")
  {
  }

  lemma StartSinceKey()
    ensures NormalizeKey("start since") == "start_since"
  {
    assert "start since" == "start" + " " + "since";
    assert "start_since" == "start" + "_" + "since";
    NormalizeTwoWords("start", "since");
  }

  lemma AcceptedConnEntry()
    ensures Entry(AcceptedConnLine) == Some(("accepted_conn", "37211")) && Unbroken(AcceptedConnLine)
  {
    AcceptedConnParts();
    AcceptedConnField();
    AcceptedConnKey();
    SampleEntry(AcceptedConnLine, "accepted conn", "        ", "37211", "accepted_conn");
  }

  lemma AcceptedConnParts()
    ensures AcceptedConnLine == "accepted conn" + ":" + "        " + "37211"
  {
  }

  lemma AcceptedConnField()
    ensures IsCapturedKey("accepted conn") && Unbroken("accepted conn")
    ensures AllSpace("        ") && Unbroken("        ")
    ensures !IsSpace("37211"[0]) && Unbroken("37211")
  {
  }

  lemma AcceptedConnKey()
    ensures NormalizeKey("accepted conn") == "accepted_conn"
  {
    assert "accepted conn" == "accepted" + " " + "conn";
    assert "accepted_conn" == "accepted" + "_" + "conn";
    NormalizeTwoWords("accepted", "conn");
  }

  lemma ListenQueueEntry()
    ensures Entry(ListenQueueLine) == Some(("listen_queue", "0")) && Unbroken(ListenQueueLine)
  {
    ListenQueueParts();
    ListenQueueField();
    ListenQueueKey();
    SampleEntry(ListenQueueLine, "listen queue", "         ", "0", "listen_queue");
  }

  lemma ListenQueueParts()
    ensures ListenQueueLine == "listen queue" + ":" + "         " + "0"
  {
  }

  lemma ListenQueueField()
    ensures IsCapturedKey("listen queue") && Unbroken("listen queue")
    ensures AllSpace("         ") && Unbroken("         ")
    ensures !IsSpace("0"[0]) && Unbroken("0")
  {
  }

  lemma ListenQueueKey()
    ensures NormalizeKey("listen queue") == "listen_queue"
  {
    assert "listen queue" == "listen" + " " + "queue";
    assert "listen_queue" == "listen" + "_" + "queue";
    NormalizeTwoWords("listen", "queue");
  }

  lemma MaxListenQueueEntry()
    ensures Entry(MaxListenQueueLine) == Some(("max_listen_queue", "0")) && Unbroken(MaxListenQueueLine)
  {
    MaxListenQueueParts();
    MaxListenQueueField();
    MaxListenQueueKey();
    SampleEntry(MaxListenQueueLine, "max listen queue", "     ", "0", "max_listen_queue");
  }

  lemma MaxListenQueueParts()
    ensures MaxListenQueueLine == "max listen queue" + ":" + "     " + "0"
  {
  }

  lemma MaxListenQueueField()
    ensures IsCapturedKey("max listen queue") && Unbroken("max listen queue")
    ensures AllSpace("     ") && Unbroken("     ")
    ensures !IsSpace("0"[0]) && Unbroken("0")
  {
  }

  lemma MaxListenQueueKey()
    ensures NormalizeKey("max listen queue") == "max_listen_queue"
  {
    assert "max listen queue" == "max" + " " + "listen" + " " + "queue";
    assert "max_listen_queue" == "max" + "_" + "listen" + "_" + "queue";
    NormalizeThreeWords("max", "listen", "queue");
  }

  lemma ListenQueueLenEntry()
    ensures Entry(ListenQueueLenLine) == Some(("listen_queue_len", "0")) && Unbroken(ListenQueueLenLine)
  {
    ListenQueueLenParts();
    ListenQueueLenField();
    ListenQueueLenKey();
    SampleEntry(ListenQueueLenLine, "listen queue len", "     ", "0", "listen_queue_len");
  }

  lemma ListenQueueLenParts()
    ensures ListenQueueLenLine == "listen queue len" + ":" + "     " + "0"
  {
  }

  lemma ListenQueueLenField()
    ensures IsCapturedKey("listen queue len") && Unbroken("listen queue len")
    ensures AllSpace("     ") && Unbroken("     ")
    ensures !IsSpace("0"[0]) && Unbroken("0")
  {
  }

  lemma ListenQueueLenKey()
    ensures NormalizeKey("listen queue len") == "listen_queue_len"
  {
    assert "listen queue len" == "listen" + " " + "queue" + " " + "len";
    assert "listen_queue_len" == "listen" + "_" + "queue" + "_" + "len";
    NormalizeThreeWords("listen", "queue", "len");
  }

  lemma IdleProcessesEntry()
    ensures Entry(IdleProcessesLine) == Some(("idle_processes", "6")) && Unbroken(IdleProcessesLine)
  {
    IdleProcessesParts();
    IdleProcessesField();
    IdleProcessesKey();
    SampleEntry(IdleProcessesLine, "idle processes", "       ", "6", "idle_processes");
  }

  lemma IdleProcessesParts()
    ensures IdleProcessesLine == "idle processes" + ":" + "       " + "6"
  {
  }

  lemma IdleProcessesField()
    ensures IsCapturedKey("idle processes") && Unbroken("idle processes")
    ensures AllSpace("       ") && Unbroken("       ")
    ensures !IsSpace("6"[0]) && Unbroken("6")
  {
  }

  lemma IdleProcessesKey()
    ensures NormalizeKey("idle processes") == "idle_processes"
  {
    assert "idle processes" == "idle" + " " + "processes";
    assert "idle_processes" == "idle" + "_" + "processes";
    NormalizeTwoWords("idle", "processes");
  }

  lemma ActiveProcessesEntry()
    ensures Entry(ActiveProcessesLine) == Some(("active_processes", "1")) && Unbroken(ActiveProcessesLine)
  {
    ActiveProcessesParts();
    ActiveProcessesField();
    ActiveProcessesKey();
    SampleEntry(ActiveProcessesLine, "active processes", "     ", "1", "active_processes");
  }

  lemma ActiveProcessesParts()
    ensures ActiveProcessesLine == "active processes" + ":" + "     " + "1"
  {
  }

  lemma ActiveProcessesField()
    ensures IsCapturedKey("active processes") && Unbroken("active processes")
    ensures AllSpace("     ") && Unbroken("     ")
    ensures !IsSpace("1"[0]) && Unbroken("1")
  {
  }

  lemma ActiveProcessesKey()
    ensures NormalizeKey("active processes") == "active_processes"
  {
    assert "active processes" == "active" + " " + "processes";
    assert "active_processes" == "active" + "_" + "processes";
    NormalizeTwoWords("active", "processes");
  }

  lemma TotalProcessesEntry()
    ensures Entry(TotalProcessesLine) == Some(("total_processes", "7")) && Unbroken(TotalProcessesLine)
  {
    TotalProcessesParts();
    TotalProcessesField();
    TotalProcessesKey();
    SampleEntry(TotalProcessesLine, "total processes", "      ", "7", "total_processes");
  }

  lemma TotalProcessesParts()
    ensures TotalProcessesLine == "total processes" + ":" + "      " + "7"
  {
  }

  lemma TotalProcessesField()
    ensures IsCapturedKey("total processes") && Unbroken("total processes")
    ensures AllSpace("      ") && Unbroken("      ")
    ensures !IsSpace("7"[0]) && Unbroken("7")
  {
  }

  lemma TotalProcessesKey()
    ensures NormalizeKey("total processes") == "total_processes"
  {
    assert "total processes" == "total" + " " + "processes";
    assert "total_processes" == "total" + "_" + "processes";
    NormalizeTwoWords("total", "processes");
  }

  lemma MaxActiveProcessesEntry()
    ensures Entry(MaxActiveProcessesLine) == Some(("max_active_processes", "13")) && Unbroken(MaxActiveProcessesLine)
  {
    MaxActiveProcessesParts();
    MaxActiveProcessesField();
    MaxActiveProcessesKey();
    SampleEntry(MaxActiveProcessesLine, "max active processes", " ", "13", "max_active_processes");
  }

  lemma MaxActiveProcessesParts()
    ensures MaxActiveProcessesLine == "max active processes" + ":" + " " + "13"
  {
  }

  lemma MaxActiveProcessesField()
    ensures IsCapturedKey("max active processes") && Unbroken("max active processes")
    ensures AllSpace(" ") && Unbroken(" ")
    ensures !IsSpace("13"[0]) && Unbroken("13")
  {
  }

  lemma MaxActiveProcessesKey()
    ensures NormalizeKey("max active processes") == "max_active_processes"
  {
    assert "max active processes" == "max" + " " + "active" + " " + "processes";
    assert "max_active_processes" == "max" + "_" + "active" + "_" + "processes";
    NormalizeThreeWords("max", "active", "processes");
  }

  lemma MaxChildrenReachedEntry()
    ensures Entry(MaxChildrenReachedLine) == Some(("max_children_reached", "0")) && Unbroken(MaxChildrenReachedLine)
  {
    MaxChildrenReachedParts();
    MaxChildrenReachedField();
    MaxChildrenReachedKey();
    SampleEntry(MaxChildrenReachedLine, "max children reached", " ", "0", "max_children_reached");
  }

  lemma MaxChildrenReachedParts()
    ensures MaxChildrenReachedLine == "max children reached" + ":" + " " + "0"
  {
  }

  lemma MaxChildrenReachedField()
    ensures IsCapturedKey("max children reached") && Unbroken("max children reached")
    ensures AllSpace(" ") && Unbroken(" ")
    ensures !IsSpace("0"[0]) && Unbroken("0")
  {
  }

  lemma MaxChildrenReachedKey()
    ensures NormalizeKey("max children reached") == "max_children_reached"
  {
    assert "max children reached" == "max" + " " + "children" + " " + "reached";
    assert "max_children_reached" == "max" + "_" + "children" + "_" + "reached";
    NormalizeThreeWords("max", "children", "reached");
  }

  lemma SlowRequestsEntry()
    ensures Entry(SlowRequestsLine) == Some(("slow_requests", "0")) && Unbroken(SlowRequestsLine)
  {
    SlowRequestsParts();
    SlowRequestsField();
    SlowRequestsKey();
    SampleEntry(SlowRequestsLine, "slow requests", "        ", "0", "slow_requests");
  }

  lemma SlowRequestsParts()
    ensures SlowRequestsLine == "slow requests" + ":" + "        " + "0"
  {
  }

  lemma SlowRequestsField()
    ensures IsCapturedKey("slow requests") && Unbroken("slow requests")
    ensures AllSpace("        ") && Unbroken("        ")
    ensures !IsSpace("0"[0]) && Unbroken("0")
  {
  }

  lemma SlowRequestsKey()
    ensures NormalizeKey("slow requests") == "slow_requests"
  {
    assert "slow requests" == "slow" + " " + "requests";
    assert "slow_requests" == "slow" + "_" + "requests";
    NormalizeTwoWords("slow", "requests");
  }

  /** The text holds neither a carriage return nor a line feed. */
  predicate Unbroken(s: string) {
    '\r' !in s && '\n' !in s
  }

  /** One line of the example: the key, the padding and the value. */
  lemma SampleEntry(line: string, key: string, gap: string, value: string, normalized: string)
    requires line == key + ":" + gap + value
    requires IsCapturedKey(key)
    requires AllSpace(gap) && |value| >= 1 && !IsSpace(value[0])
    requires Unbroken(key) && Unbroken(gap) && Unbroken(value)
    requires NormalizeKey(key) == normalized
    ensures Entry(line) == Some((normalized, value)) && Unbroken(line)
  {
    EmptyPad(key, gap, value);
    MatchWellFormedLine(key, "", gap, value);
  }

  lemma EmptyPad(key: string, gap: string, value: string)
    ensures key + "" + ":" + gap + value == key + ":" + gap + value
  {
  }

  /** One turn of the parse loop over line `i`. */
  lemma ParseStep(lines: seq<string>, i: nat, entries: map<string, string>, key: string, value: string)
    requires i < |lines| && Entry(lines[i]) == Some((key, value))
    ensures ParseLines(lines[i..], entries) == ParseLines(lines[i + 1..], entries[key := value])
  {
    assert lines[i..][1..] == lines[i + 1..];
  }

  lemma NormalizeTwoWords(a: string, b: string)
    requires |a| > 0 && |b| > 0 && NoSpace(a) && NoSpace(b)
    ensures NormalizeKey(a + " " + b) == a + "_" + b
  {
    NormalizeWordThenSpace(a, " ", b);
    NormalizeKeyFixedPoints(b);
  }

  lemma NormalizeThreeWords(a: string, b: string, c: string)
    requires |a| > 0 && |b| > 0 && |c| > 0 && NoSpace(a) && NoSpace(b) && NoSpace(c)
    ensures NormalizeKey(a + " " + b + " " + c) == a + "_" + b + "_" + c
  {
    ThreeWordsAssoc(a, b, c, " ");
    ThreeWordsAssoc(a, b, c, "_");
    NormalizeWordThenSpace(a, " ", b + " " + c);
    NormalizeTwoWords(b, c);
  }

  lemma ThreeWordsAssoc(a: string, b: string, c: string, sep: string)
    ensures a + sep + b + sep + c == a + sep + (b + sep + c)
  {
  }
}
