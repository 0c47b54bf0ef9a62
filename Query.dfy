/** Dashboard queries and the runtime report over job logs. The dashboard is
    a function from a request path and its parameters to the decoded JSON
    answer, `Null` standing for a failed request; a log file is its list of
    lines. */
module Query {
  import opened Common
  import opened LogMarkers

  /** The stages whose durations the report lists, in the report's order. */
  const Processes: seq<string> :=
    ["OCR", "Denoise", "MultiColumnSkew", "XML_To_Text", "PageEvaluator", "PageCorrector", "JuxtaCompare"]

  /** `get_request(path, params)` of the dashboard API. */
  type Api = (string, Record) -> Value

  // ---------------------------------------------------------------------
  // Dashboard queries
  // ---------------------------------------------------------------------

  /** `_get_job_status_id(name)`: the id of the first job status the
      dashboard lists under `name`, None when the request fails. Indexing and
      `.get` on what is not a list or a dictionary raise as in Python. */
  function JobStatusId(api: Api, name: string): (r: Outcome<Value>)
    ensures var answer := api("/api/job_statuses", [("name", Str(name))]);
      && (!Truthy(answer) ==> r == Ok(Null))
      && (Truthy(answer) && answer.Obj? && GetOrNull(answer.fields, "results").Arr?
          && GetOrNull(answer.fields, "results").items != []
          && GetOrNull(answer.fields, "results").items[0].Obj? ==>
            r == Ok(GetOrNull(GetOrNull(answer.fields, "results").items[0].fields, "id")))
      && (Truthy(answer) && !answer.Obj? ==> r.Raises?)
  {
    var answer := api("/api/job_statuses", [("name", Str(name))]);
    if !Truthy(answer) then Ok(Null)
    else if !answer.Obj? then Raises("AttributeError: object has no attribute 'get'")
    else
      match GetOrNull(answer.fields, "results")
      case Null => Raises("TypeError: 'NoneType' object has no attribute '__getitem__'")
      case Arr(results) =>
        if results == [] then Raises("IndexError: list index out of range")
        else if !results[0].Obj? then Raises("AttributeError: object has no attribute 'get'")
        else Ok(GetOrNull(results[0].fields, "id"))
      case Obj(_) => Raises("KeyError: 0")
      case Str(s) =>
        if s == "" then Raises("IndexError: string index out of range")
        else Raises("AttributeError: 'unicode' object has no attribute 'get'")
      case _ => Raises("TypeError: object has no attribute '__getitem__'")
  }

  /** `str(v)` for the scalar values a status id can be. */
  function PyStr(v: Value): string
  {
    match v
    case Str(s) => s
    case Num(n) => IntToString(n)
    case Bool(b) => if b then "True" else "False"
    case Null => "None"
    case _ => ""
  }

  /** `d[key] = v` on a dictionary: the value under `key` is replaced where
      it stands, or the key is added at the end. */
  function Put(fields: Record, key: string, v: Value): (r: Record)
    ensures Get(r, key) == Some(v)
    ensures forall k :: k != key ==> Get(r, k) == Get(fields, k)
  {
    if fields == [] then [(key, v)]
    else if fields[0].0 == key then [(key, v)] + fields[1..]
    else [fields[0]] + Put(fields[1..], key, v)
  }

  /** The parameters of the count request: a copy of the filter when it is a
      non-empty dictionary, otherwise nothing, with `job_status_id` set to the
      status id as a string. */
  function QueueParams(qFilter: Value, statusId: Value): (p: Record)
    ensures Get(p, "job_status_id") == Some(Str(PyStr(statusId)))
    ensures forall k :: k != "job_status_id" ==>
      Get(p, k) == if Truthy(qFilter) && qFilter.Obj? then Get(qFilter.fields, k) else None
  {
    var base := if Truthy(qFilter) && qFilter.Obj? then qFilter.fields else [];
    Put(base, "job_status_id", Str(PyStr(statusId)))
  }

  /** A filter that is not a dictionary, such as a JSON text, is ignored. */
  lemma NonDictFilterIgnored(qFilter: Value, statusId: Value)
    requires !qFilter.Obj?
    ensures QueueParams(qFilter, statusId) == [("job_status_id", Str(PyStr(statusId)))]
  {
  }

  /** The count request's answer, for a truthy status id. */
  function CountAnswer(api: Api, qFilter: Value, statusId: Value): Value
  {
    api("/api/job_queues/count", QueueParams(qFilter, statusId))
  }

  /** A count answer on which `.get('job_queue').get('count')` raises: a
      truthy answer that is not a dictionary, or whose `job_queue` is not one. */
  predicate MalformedCount(answer: Value)
  {
    Truthy(answer) && !(answer.Obj? && GetOrNull(answer.fields, "job_queue").Obj?)
  }

  /** `pending_pages_count(q_filter)`: it raises exactly when the status
      lookup raises or the count request is answered with a malformed count. */
  function PendingPagesCount(api: Api, qFilter: Value): (r: Outcome<Value>)
    ensures r.Raises? <==>
      || JobStatusId(api, "Not Started").Raises?
      || (&& Truthy(JobStatusId(api, "Not Started").value)
          && MalformedCount(CountAnswer(api, qFilter, JobStatusId(api, "Not Started").value)))
    ensures r == Ok(Null) <==>
      || (JobStatusId(api, "Not Started").Ok? && !Truthy(JobStatusId(api, "Not Started").value))
      || (&& JobStatusId(api, "Not Started").Ok?
          && Truthy(JobStatusId(api, "Not Started").value)
          && var answer := CountAnswer(api, qFilter, JobStatusId(api, "Not Started").value);
             || !Truthy(answer)
             || (!MalformedCount(answer)
                 && GetOrNull(GetOrNull(answer.fields, "job_queue").fields, "count") == Null))
  {
    match JobStatusId(api, "Not Started")
    case Raises(e) => Raises(e)
    case Ok(statusId) =>
      if !Truthy(statusId) then Ok(Null)
      else
        var answer := CountAnswer(api, qFilter, statusId);
        if !Truthy(answer) then Ok(Null)
        else if !answer.Obj? then Raises("AttributeError: object has no attribute 'get'")
        else
          var queue := GetOrNull(answer.fields, "job_queue");
          if !queue.Obj? then Raises("AttributeError: object has no attribute 'get'")
          else Ok(GetOrNull(queue.fields, "count"))
  }

  /** None when no status id is found or the count request fails; otherwise
      the `count` of the answer's `job_queue`. */
  lemma PendingPagesCountCases(api: Api, qFilter: Value)
    ensures var id := JobStatusId(api, "Not Started");
      && (id.Raises? ==> PendingPagesCount(api, qFilter) == Raises(id.error))
      && (id.Ok? && !Truthy(id.value) ==> PendingPagesCount(api, qFilter) == Ok(Null))
      && (id.Ok? && Truthy(id.value) ==>
            var answer := api("/api/job_queues/count", QueueParams(qFilter, id.value));
            && (!Truthy(answer) ==> PendingPagesCount(api, qFilter) == Ok(Null))
            && (Truthy(answer) && !answer.Obj? ==>
                  PendingPagesCount(api, qFilter) == Raises("AttributeError: object has no attribute 'get'"))
            && (answer.Obj? && Truthy(answer) && !GetOrNull(answer.fields, "job_queue").Obj? ==>
                  PendingPagesCount(api, qFilter) == Raises("AttributeError: object has no attribute 'get'"))
            && (answer.Obj? && GetOrNull(answer.fields, "job_queue").Obj? ==>
                  PendingPagesCount(api, qFilter)
                  == Ok(GetOrNull(GetOrNull(answer.fields, "job_queue").fields, "count"))))
  {
  }

  // ---------------------------------------------------------------------
  // Runtimes of one log file
  // ---------------------------------------------------------------------

  /** The durations found: per page, per job total, and per process in the
      order of `Processes`. */
  datatype Runtimes = Runtimes(pages: seq<real>, total: seq<real>, processes: seq<seq<real>>)

  predicate Shaped(r: Runtimes)
  {
    |r.processes| == |Processes|
  }

  function NoRuntimes(): (r: Runtimes)
    ensures Shaped(r)
  {
    Runtimes([], [], seq(|Processes|, _ => []))
  }

  /** The lists of `a` each followed by the list of `b` at the same place. */
  function Zip(a: seq<seq<real>>, b: seq<seq<real>>): (r: seq<seq<real>>)
    requires |a| == |b|
    ensures |r| == |a| && forall k :: 0 <= k < |a| ==> r[k] == a[k] + b[k]
  {
    seq(|a|, k requires 0 <= k < |a| => a[k] + b[k])
  }

  /** The durations of `a` followed by those of `b`. */
  function Merge(a: Runtimes, b: Runtimes): (r: Runtimes)
    requires Shaped(a) && Shaped(b)
    ensures Shaped(r)
  {
    Runtimes(a.pages + b.pages, a.total + b.total, Zip(a.processes, b.processes))
  }

  predicate ShapedOk(o: Outcome<Runtimes>)
  {
    o.Ok? ==> Shaped(o.value)
  }

  /** `Merge` of two outcomes; the first exception wins. */
  function MergeO(a: Outcome<Runtimes>, b: Outcome<Runtimes>): (r: Outcome<Runtimes>)
    requires ShapedOk(a) && ShapedOk(b)
    ensures ShapedOk(r)
  {
    match a
    case Raises(e) => Raises(e)
    case Ok(x) =>
      match b
      case Raises(e) => Raises(e)
      case Ok(y) => Ok(Merge(x, y))
  }

  lemma MergeAssoc(a: Runtimes, b: Runtimes, c: Runtimes)
    requires Shaped(a) && Shaped(b) && Shaped(c)
    ensures Merge(Merge(a, b), c) == Merge(a, Merge(b, c))
  {
    assert (a.pages + b.pages) + c.pages == a.pages + (b.pages + c.pages);
    assert (a.total + b.total) + c.total == a.total + (b.total + c.total);
    var l := Merge(Merge(a, b), c).processes;
    var r := Merge(a, Merge(b, c)).processes;
    assert |l| == |r|;
    forall k | 0 <= k < |l| ensures l[k] == r[k] {
      assert (a.processes[k] + b.processes[k]) + c.processes[k] == a.processes[k] + (b.processes[k] + c.processes[k]);
    }
  }

  lemma MergeOAssoc(a: Outcome<Runtimes>, b: Outcome<Runtimes>, c: Outcome<Runtimes>)
    requires ShapedOk(a) && ShapedOk(b) && ShapedOk(c)
    ensures MergeO(MergeO(a, b), c) == MergeO(a, MergeO(b, c))
  {
    if a.Ok? && b.Ok? && c.Ok? {
      MergeAssoc(a.value, b.value, c.value);
    }
  }

  lemma MergeNone(a: Runtimes)
    requires Shaped(a)
    ensures Merge(NoRuntimes(), a) == a && Merge(a, NoRuntimes()) == a
  {
    assert [] + a.pages == a.pages && a.pages + [] == a.pages;
    assert [] + a.total == a.total && a.total + [] == a.total;
    var none := NoRuntimes().processes;
    assert forall k :: 0 <= k < |none| ==> none[k] == [];
    assert forall k :: 0 <= k < |a.processes| ==> Zip(none, a.processes)[k] == a.processes[k];
    assert forall k :: 0 <= k < |a.processes| ==> Zip(a.processes, none)[k] == a.processes[k];
  }

  lemma ZipNone(p: seq<seq<real>>)
    requires |p| == |Processes|
    ensures Zip(p, NoRuntimes().processes) == p
  {
    var none := NoRuntimes().processes;
    assert forall k :: 0 <= k < |none| ==> none[k] == [];
    assert forall k :: 0 <= k < |p| ==> Zip(p, none)[k] == p[k];
  }

  /** The duration of process `j` on a line: none, one, or the exception of
      `Decimal`. */
  function ProcessMatch(line: string, j: nat): Outcome<seq<real>>
    requires j < |Processes|
  {
    match Marker(line, Opening(Processes[j]))
    case None => Ok([])
    case Some(g) =>
      match ParseDecimal(g)
      case Ok(d) => Ok([d])
      case Raises(e) => Raises(e)
  }

  /** The durations of processes `j..` on a line. */
  function ProcessValues(line: string, j: nat): Outcome<seq<seq<real>>>
    requires j <= |Processes|
    decreases |Processes| - j
  {
    if j == |Processes| then Ok([])
    else
      match ProcessMatch(line, j)
      case Raises(e) => Raises(e)
      case Ok(v) => Prepend([v], ProcessValues(line, j + 1))
  }

  lemma {:induction false} ProcessValuesShape(line: string, j: nat)
    requires j <= |Processes|
    ensures ProcessValues(line, j).Ok? ==>
      && |ProcessValues(line, j).value| == |Processes| - j
      && forall k :: 0 <= k < |Processes| - j ==>
           |ProcessValues(line, j).value[k]| == if Marker(line, Opening(Processes[j + k])).Some? then 1 else 0
    decreases |Processes| - j
  {
    if j < |Processes| && ProcessMatch(line, j).Ok? {
      ProcessValuesShape(line, j + 1);
    }
  }

  /** The durations one line contributes: the page marker first, then the
      total marker, and only when neither matches, every process marker. */
  function LineRuntimes(line: string): (r: Outcome<Runtimes>)
    ensures ShapedOk(r)
  {
    match Marker(line, Opening("Job"))
    case Some(g) =>
      (match ParseDecimal(g)
       case Ok(d) => Ok(Runtimes([d], [], NoRuntimes().processes))
       case Raises(e) => Raises(e))
    case None =>
      match TotalMarker(line)
      case Some(g) =>
        (match ParseDecimal(g)
         case Ok(d) => Ok(Runtimes([], [d], NoRuntimes().processes))
         case Raises(e) => Raises(e))
      case None =>
        ProcessValuesShape(line, 0);
        match ProcessValues(line, 0)
        case Ok(vals) => Ok(Runtimes([], [], vals))
        case Raises(e) => Raises(e)
  }

  /** The durations of a log file's lines, in line order. */
  function FileRuntimes(lines: seq<string>): (r: Outcome<Runtimes>)
    ensures ShapedOk(r)
  {
    if lines == [] then Ok(NoRuntimes())
    else MergeO(LineRuntimes(lines[0]), FileRuntimes(lines[1..]))
  }

  /** `_parse_file_for_runtimes` on the lines of a file. */
  method ParseFileForRuntimes(lines: seq<string>) returns (r: Outcome<Runtimes>)
    ensures r == FileRuntimes(lines)
  {
    var runtimes := NoRuntimes();
    if FileRuntimes(lines).Ok? {
      MergeNone(FileRuntimes(lines).value);
    }
    assert lines[0..] == lines;
    var i := 0;
    while i < |lines|
      invariant 0 <= i <= |lines|
      invariant Shaped(runtimes)
      invariant MergeO(Ok(runtimes), FileRuntimes(lines[i..])) == FileRuntimes(lines)
    {
      var line := lines[i];
      assert lines[i..][0] == line && lines[i..][1..] == lines[i + 1..];
      MergeOAssoc(Ok(runtimes), LineRuntimes(line), FileRuntimes(lines[i + 1..]));
      var pageMatch := Marker(line, Opening("Job"));
      var totalMatch := TotalMarker(line);
      if pageMatch.Some? {
        var pageRuntime := ParseDecimal(pageMatch.value);
        if pageRuntime.Raises? {
          return Raises(pageRuntime.error);
        }
        ZipNone(runtimes.processes);
        assert runtimes.total + [] == runtimes.total;
        runtimes := runtimes.(pages := runtimes.pages + [pageRuntime.value]);
      } else if totalMatch.Some? {
        var totalRuntime := ParseDecimal(totalMatch.value);
        if totalRuntime.Raises? {
          return Raises(totalRuntime.error);
        }
        ZipNone(runtimes.processes);
        assert runtimes.pages + [] == runtimes.pages;
        runtimes := runtimes.(total := runtimes.total + [totalRuntime.value]);
      } else {
        var processes := ProcessRuntimes(line, runtimes.processes);
        if processes.Raises? {
          return Raises(processes.error);
        }
        assert runtimes.pages + [] == runtimes.pages && runtimes.total + [] == runtimes.total;
        runtimes := runtimes.(processes := processes.value);
      }
      i := i + 1;
    }
    assert lines[i..] == [];
    MergeNone(runtimes);
    return Ok(runtimes);
  }

  /** The inner loop of `_parse_file_for_runtimes`: each process marker that
      matches appends its duration to that process's list. */
  method ProcessRuntimes(line: string, before: seq<seq<real>>) returns (r: Outcome<seq<seq<real>>>)
    requires |before| == |Processes|
    ensures match ProcessValues(line, 0)
      case Ok(vals) => |vals| == |Processes| && r == Ok(Zip(before, vals))
      case Raises(e) => r == Raises(e)
  {
    ProcessValuesShape(line, 0);
    var processes := before;
    ghost var vals: seq<seq<real>> := [];
    PrependNil(ProcessValues(line, 0));
    var j := 0;
    while j < |Processes|
      invariant 0 <= j <= |Processes| && |vals| == j && |processes| == |Processes|
      invariant forall k :: 0 <= k < j ==> processes[k] == before[k] + vals[k]
      invariant forall k :: j <= k < |Processes| ==> processes[k] == before[k]
      invariant Prepend(vals, ProcessValues(line, j)) == ProcessValues(line, 0)
    {
      var processMatch := Marker(line, Opening(Processes[j]));
      ghost var v: seq<real> := [];
      if processMatch.Some? {
        var processRuntime := ParseDecimal(processMatch.value);
        if processRuntime.Raises? {
          return Raises(processRuntime.error);
        }
        v := [processRuntime.value];
        processes := processes[j := processes[j] + [processRuntime.value]];
      } else {
        assert processes[j] + [] == processes[j];
      }
      assert ProcessMatch(line, j) == Ok(v);
      PrependPrepend(vals, [v], ProcessValues(line, j + 1));
      vals := vals + [v];
      j := j + 1;
    }
    assert vals + [] == vals;
    assert processes == Zip(before, vals);
    return Ok(processes);
  }

  // ---------------------------------------------------------------------
  // The runtime report
  // ---------------------------------------------------------------------

  /** The durations of a sequence of log files, file after file. */
  function AllRuntimes(files: seq<seq<string>>): (r: Outcome<Runtimes>)
    ensures ShapedOk(r)
  {
    if files == [] then Ok(NoRuntimes())
    else MergeO(FileRuntimes(files[0]), AllRuntimes(files[1..]))
  }

  function Sum(xs: seq<real>): real
  {
    if xs == [] then 0.0 else xs[0] + Sum(xs[1..])
  }

  /** The mean of the durations, or 0 when there are none. */
  function Average(xs: seq<real>): real
  {
    if |xs| > 0 then Sum(xs) / |xs| as real else 0.0
  }

  datatype ProcessReport = ProcessReport(name: string, count: nat, total: real, avg: real)

  datatype RuntimeReport = RuntimeReport(
    processes: seq<ProcessReport>,
    totalPages: nat,
    totalPageRuntime: real,
    averagePageRuntime: real,
    totalJobs: nat,
    averageJobRuntime: real)

  function Summary(name: string, xs: seq<real>): ProcessReport
  {
    ProcessReport(name, |xs|, Sum(xs), Average(xs))
  }

  /** The report `get_runtimes` builds from the collected durations. */
  function Report(rt: Runtimes): RuntimeReport
    requires Shaped(rt)
  {
    RuntimeReport(
      seq(|Processes|, k requires 0 <= k < |Processes| => Summary(Processes[k], rt.processes[k])),
      |rt.pages|, Sum(rt.pages), Average(rt.pages),
      |rt.total|, Average(rt.total))
  }

  function ReportOf(o: Outcome<Runtimes>): Outcome<RuntimeReport>
    requires ShapedOk(o)
  {
    match o
    case Ok(rt) => Ok(Report(rt))
    case Raises(e) => Raises(e)
  }

  /** The first loop of `get_runtimes`: each file's durations appended to
      those of the files before it. */
  method CollectRuntimes(files: seq<seq<string>>) returns (r: Outcome<Runtimes>)
    ensures r == AllRuntimes(files)
  {
    var runtimes := NoRuntimes();
    if AllRuntimes(files).Ok? {
      MergeNone(AllRuntimes(files).value);
    }
    assert files[0..] == files;
    var i := 0;
    while i < |files|
      invariant 0 <= i <= |files|
      invariant Shaped(runtimes)
      invariant MergeO(Ok(runtimes), AllRuntimes(files[i..])) == AllRuntimes(files)
    {
      assert files[i..][0] == files[i] && files[i..][1..] == files[i + 1..];
      var fileRuntimes := ParseFileForRuntimes(files[i]);
      MergeOAssoc(Ok(runtimes), fileRuntimes, AllRuntimes(files[i + 1..]));
      if fileRuntimes.Raises? {
        return Raises(fileRuntimes.error);
      }
      var found := fileRuntimes.value;
      var processes := AppendProcessRuntimes(runtimes.processes, found.processes);
      runtimes := Runtimes(runtimes.pages + found.pages, runtimes.total + found.total, processes);
      i := i + 1;
    }
    assert files[i..] == [];
    MergeNone(runtimes);
    return Ok(runtimes);
  }

  /** The inner loop of `get_runtimes`: each process's durations of one file
      appended to that process's list. */
  method AppendProcessRuntimes(acc: seq<seq<real>>, found: seq<seq<real>>) returns (processes: seq<seq<real>>)
    requires |acc| == |found|
    ensures processes == Zip(acc, found)
  {
    processes := acc;
    var k := 0;
    while k < |acc|
      invariant 0 <= k <= |acc| && |processes| == |acc|
      invariant forall m :: 0 <= m < k ==> processes[m] == acc[m] + found[m]
      invariant forall m :: k <= m < |acc| ==> processes[m] == acc[m]
    {
      processes := processes[k := processes[k] + found[k]];
      k := k + 1;
    }
  }

  /** The second part of `get_runtimes`: counts, totals and averages of the
      collected durations, one entry per process in the declared order. */
  method BuildReport(runtimes: Runtimes) returns (report: RuntimeReport)
    requires Shaped(runtimes)
    ensures report == Report(runtimes)
  {
    var reports: seq<ProcessReport> := [];
    var k := 0;
    while k < |Processes|
      invariant 0 <= k <= |Processes| && |reports| == k
      invariant forall m :: 0 <= m < k ==> reports[m] == Summary(Processes[m], runtimes.processes[m])
    {
      var processRuntimes := runtimes.processes[k];
      var cnt := |processRuntimes|;
      var total := Sum(processRuntimes);
      var avg := if cnt > 0 then total / cnt as real else 0.0;
      assert ProcessReport(Processes[k], cnt, total, avg) == Summary(Processes[k], processRuntimes);
      reports := reports + [ProcessReport(Processes[k], cnt, total, avg)];
      k := k + 1;
    }
    assert reports == Report(runtimes).processes;
    var totalPages := |runtimes.pages|;
    var totalJobs := |runtimes.total|;
    var totalPageRuntime := Sum(runtimes.pages);
    var averagePageRuntime := if totalPages > 0 then totalPageRuntime / totalPages as real else 0.0;
    var totalJobRuntime := Sum(runtimes.total);
    var averageJobRuntime := if totalJobs > 0 then totalJobRuntime / totalJobs as real else 0.0;
    report := RuntimeReport(reports, totalPages, totalPageRuntime, averagePageRuntime, totalJobs, averageJobRuntime);
  }

  /** `get_runtimes` over the log files, in the order the directory lists them. */
  method GetRuntimes(files: seq<seq<string>>) returns (r: Outcome<RuntimeReport>)
    ensures r == ReportOf(AllRuntimes(files))
  {
    var collected := CollectRuntimes(files);
    if collected.Raises? {
      return Raises(collected.error);
    }
    var report := BuildReport(collected.value);
    return Ok(report);
  }

  // ---------------------------------------------------------------------
  // What the report counts
  // ---------------------------------------------------------------------

  function Flatten(files: seq<seq<string>>): seq<string>
  {
    if files == [] then [] else files[0] + Flatten(files[1..])
  }

  /** Collecting file by file is collecting over all the lines at once. */
  lemma {:induction false} FileRuntimesAppend(a: seq<string>, b: seq<string>)
    ensures FileRuntimes(a + b) == MergeO(FileRuntimes(a), FileRuntimes(b))
    decreases |a|
  {
    if a == [] {
      assert a + b == b;
      if FileRuntimes(b).Ok? {
        MergeNone(FileRuntimes(b).value);
      }
    } else {
      assert (a + b)[0] == a[0] && (a + b)[1..] == a[1..] + b;
      FileRuntimesAppend(a[1..], b);
      MergeOAssoc(LineRuntimes(a[0]), FileRuntimes(a[1..]), FileRuntimes(b));
    }
  }

  lemma {:induction false} AllRuntimesFlatten(files: seq<seq<string>>)
    ensures AllRuntimes(files) == FileRuntimes(Flatten(files))
    decreases |files|
  {
    if files != [] {
      AllRuntimesFlatten(files[1..]);
      FileRuntimesAppend(files[0], Flatten(files[1..]));
    }
  }

  /** The number of lines where the page marker matches. */
  function PageLines(lines: seq<string>): nat
  {
    if lines == [] then 0
    else (if Marker(lines[0], Opening("Job")).Some? then 1 else 0) + PageLines(lines[1..])
  }

  /** The number of lines where the total marker matches and the page marker does not. */
  function TotalLines(lines: seq<string>): nat
  {
    if lines == [] then 0
    else (if Marker(lines[0], Opening("Job")).None? && TotalMarker(lines[0]).Some? then 1 else 0)
         + TotalLines(lines[1..])
  }

  /** The number of lines where neither of those matches but the marker of
      process `j` does. */
  function ProcessLines(lines: seq<string>, j: nat): nat
    requires j < |Processes|
  {
    if lines == [] then 0
    else (if && Marker(lines[0], Opening("Job")).None? && TotalMarker(lines[0]).None?
             && Marker(lines[0], Opening(Processes[j])).Some? then 1 else 0)
         + ProcessLines(lines[1..], j)
  }

  /** Each count of a file's runtimes is the number of its lines that the
      marker matches, under the precedence page, total, processes. */
  lemma {:induction false} FileRuntimesCounts(lines: seq<string>)
    ensures FileRuntimes(lines).Ok? ==>
      && |FileRuntimes(lines).value.pages| == PageLines(lines)
      && |FileRuntimes(lines).value.total| == TotalLines(lines)
      && forall j :: 0 <= j < |Processes| ==>
           |FileRuntimes(lines).value.processes[j]| == ProcessLines(lines, j)
    decreases |lines|
  {
    if lines != [] {
      FileRuntimesCounts(lines[1..]);
      ProcessValuesShape(lines[0], 0);
    }
  }

  /** The report counts the matching lines of all files together: pages,
      jobs, and each process in the declared order, its average 0 when it
      has no duration. */
  lemma GetRuntimesCounts(files: seq<seq<string>>)
    ensures ReportOf(AllRuntimes(files)).Ok? ==>
      var report := ReportOf(AllRuntimes(files)).value;
      var lines := Flatten(files);
      && report.totalPages == PageLines(lines)
      && report.totalJobs == TotalLines(lines)
      && |report.processes| == |Processes|
      && forall j :: 0 <= j < |Processes| ==>
           && report.processes[j].name == Processes[j]
           && report.processes[j].count == ProcessLines(lines, j)
           && (report.processes[j].count == 0 ==> report.processes[j].avg == 0.0)
  {
    AllRuntimesFlatten(files);
    FileRuntimesCounts(Flatten(files));
  }

  /** Totals add up across files. */
  lemma {:induction false} SumAppend(xs: seq<real>, ys: seq<real>)
    ensures Sum(xs + ys) == Sum(xs) + Sum(ys)
    decreases |xs|
  {
    if xs == [] {
      assert xs + ys == ys;
    } else {
      assert (xs + ys)[1..] == xs[1..] + ys;
      SumAppend(xs[1..], ys);
    }
  }

  /** The page and job totals of two runs of lines add up. */
  lemma MergeTotals(a: Runtimes, b: Runtimes)
    requires Shaped(a) && Shaped(b)
    ensures Report(Merge(a, b)).totalPageRuntime == Report(a).totalPageRuntime + Report(b).totalPageRuntime
    ensures Report(Merge(a, b)).totalPages == Report(a).totalPages + Report(b).totalPages
    ensures forall j :: 0 <= j < |Processes| ==>
      Report(Merge(a, b)).processes[j].total == Report(a).processes[j].total + Report(b).processes[j].total
  {
    SumAppend(a.pages, b.pages);
    forall j | 0 <= j < |Processes|
      ensures Report(Merge(a, b)).processes[j].total == Report(a).processes[j].total + Report(b).processes[j].total
    {
      SumAppend(a.processes[j], b.processes[j]);
    }
  }
}
