/** A batch run on a compute node: every page unit of the input payload goes
    through OCR and the post-processes, and the outcome of each unit is
    recorded in four accumulators that are saved to the output payload after
    every unit. The processes, the payload files and the signal are outside:
    a stage is the outcome it reports, the payload's reading is the list of
    units and two existence flags, a save is an entry in a trace. */
module BatchRun {
  import opened Common
  import opened Settings

  /** What a process reports: whether it still needs to run, and the
      exit code and error text of its run. */
  datatype StageOutcome = StageOutcome(shouldRun: bool, exitcode: int, stderr: string)

  /** One unit of the payload, with the outcome each of its stages would
      report and the page and post-processing results it holds when its
      outcome is recorded (None when `has_data()` is false). */
  datatype Job = Job(
    id: Value,
    jobType: string,
    ocrEngine: string,
    ocr: StageOutcome,
    denoise: StageOutcome,
    multiColumnSkew: StageOutcome,
    xmlToText: StageOutcome,
    pageEvaluator: StageOutcome,
    pageCorrector: StageOutcome,
    juxtaCompare: StageOutcome,
    pageResult: Option<Value>,
    postprocResult: Option<Value>)

  /** A stage of a unit's pipeline: the process class, the text a failure
      starts with, and what the process reports. */
  datatype Stage = Stage(className: string, failPrefix: string, outcome: StageOutcome)

  datatype SaveKind = Output | CompletedOutput

  /** A call of `save_output` or `save_completed_output`. */
  datatype Save = Save(kind: SaveKind, data: Value, overwrite: bool)

  /** The recorded state of a run: the four accumulators, the saves made
      and the process classes whose `run` was called, in order. */
  datatype State = State(
    completed: seq<Value>,
    failed: seq<Value>,
    pageResults: seq<Value>,
    postprocResults: seq<Value>,
    saved: seq<Save>,
    ran: seq<string>)

  /** The scheduler's name and the id of the job this run is part of. */
  datatype SchedulerInfo = SchedulerInfo(name: string, jobId: string)

  /** `get_results()`: the accumulators in the payload's shape. */
  function ResultsValue(s: State): Value
  {
    Obj([("job_queues", Obj([("completed", Arr(s.completed)), ("failed", Arr(s.failed))])),
         ("page_results", Arr(s.pageResults)),
         ("postproc_results", Arr(s.postprocResults))])
  }

  /** The saved results give back each accumulator under its key. */
  lemma ResultsValueFields(s: State)
    ensures var fields := ResultsValue(s).fields;
      && Get(fields, "job_queues").Some? && Get(fields, "job_queues").value.Obj?
      && Get(Get(fields, "job_queues").value.fields, "completed") == Some(Arr(s.completed))
      && Get(Get(fields, "job_queues").value.fields, "failed") == Some(Arr(s.failed))
      && Get(fields, "page_results") == Some(Arr(s.pageResults))
      && Get(fields, "postproc_results") == Some(Arr(s.postprocResults))
  {
    var fields := ResultsValue(s).fields;
    assert fields[0].0 == "job_queues";
    assert fields[1].0 == "page_results" && fields[1].0 != "job_queues";
    assert "postproc_results"[1] != "page_results"[1];
    assert fields[2].0 == "postproc_results" && fields[2].0 != "job_queues" && fields[2].0 != "page_results";
    assert fields[1..][0] == fields[1] && fields[1..][1..] == fields[2..];
    assert Get(fields, "postproc_results") == Get(fields[1..], "postproc_results");
    assert Get(fields[1..], "postproc_results") == Get(fields[2..], "postproc_results");
    var queues := Obj([("completed", Arr(s.completed)), ("failed", Arr(s.failed))]).fields;
    assert queues[1].0 == "failed" && queues[1].0 != "completed";
  }

  /** The entry of a failed unit: its id and the failure text prefixed with
      the scheduler's name and job id. */
  function FailureEntry(sched: SchedulerInfo, id: Value, results: string): Value
  {
    Obj([("id", id), ("results", Str(sched.name + " JOB " + sched.jobId + ": " + results))])
  }

  function Data(o: Option<Value>): seq<Value>
  {
    match o
    case Some(v) => [v]
    case None => []
  }

  /** `append_result(job, results, failed)`: a failure entry or the unit's id,
      the unit's page and post-processing results when it has them, and a
      save of the new results that overwrites the output. */
  function Append(sched: SchedulerInfo, s: State, job: Job, results: string, failed: bool): State
  {
    var next := Recorded(sched, s, job, results, failed);
    next.(saved := s.saved + [Save(Output, ResultsValue(next), true)])
  }

  /** The accumulators after `append_result`, before its save. */
  function Recorded(sched: SchedulerInfo, s: State, job: Job, results: string, failed: bool): State
  {
    s.(completed := if failed then s.completed else s.completed + [job.id],
       failed := if failed then s.failed + [FailureEntry(sched, job.id, results)] else s.failed,
       pageResults := s.pageResults + Data(job.pageResult),
       postprocResults := s.postprocResults + Data(job.postprocResult))
  }

  /** A failure goes to the failed list only, a success to the completed
      list only; the results the unit holds are appended either way. */
  lemma AppendRecordsOnce(sched: SchedulerInfo, s: State, job: Job, results: string, failed: bool)
    ensures var t := Append(sched, s, job, results, failed);
      && (failed ==> t.completed == s.completed && t.failed == s.failed + [FailureEntry(sched, job.id, results)])
      && (!failed ==> t.completed == s.completed + [job.id] && t.failed == s.failed)
      && t.pageResults == s.pageResults + Data(job.pageResult)
      && t.postprocResults == s.postprocResults + Data(job.postprocResult)
      && t.saved == s.saved + [Save(Output, ResultsValue(t), true)]
      && t.ran == s.ran
  {
  }

  /** What a stage, or a sequence of stages, comes to: the classes whose
      `run` was called, in order, and, when one failed, the text recorded for
      the failure. */
  datatype Verdict = Pass(ran: seq<string>) | Fail(ran: seq<string>, message: string)

  predicate StageRuns(settings: Settings, stage: Stage)
  {
    !(settings.controllerSkipExisting && !stage.outcome.shouldRun)
  }

  predicate StageFails(settings: Settings, stage: Stage)
  {
    StageRuns(settings, stage) && stage.outcome.exitcode != 0
  }

  /** `do_process` on one stage: skipped when existing output may be kept and
      the process need not run; otherwise run, and a non-zero exit is a
      failure with the stage's prefix and the process's error text. */
  function RunStage(settings: Settings, stage: Stage): Verdict
  {
    if !StageRuns(settings, stage) then Pass([])
    else if stage.outcome.exitcode != 0 then Fail([stage.className], stage.failPrefix + stage.outcome.stderr)
    else Pass([stage.className])
  }

  /** `first` has passed; then `second`. */
  function AndThen(ran: seq<string>, second: Verdict): Verdict
  {
    match second
    case Pass(r) => Pass(ran + r)
    case Fail(r, m) => Fail(ran + r, m)
  }

  /** Stages run in order until one fails. */
  function Pipeline(settings: Settings, stages: seq<Stage>): Verdict
    decreases |stages|
  {
    if stages == [] then Pass([])
    else match RunStage(settings, stages[0])
      case Fail(r, m) => Fail(r, m)
      case Pass(r) => AndThen(r, Pipeline(settings, stages[1..]))
  }

  /** The state after a verdict: the classes run, and a failure recorded
      through `append_result` when there is one; the flag is the truth value
      the step returns. */
  function Apply(sched: SchedulerInfo, s: State, job: Job, v: Verdict): (State, bool)
  {
    match v
    case Pass(r) => (s.(ran := s.ran + r), true)
    case Fail(r, m) => (Append(sched, s.(ran := s.ran + r), job, m, true), false)
  }

  /** Applying a passing stage and then a verdict is applying both at once. */
  lemma ApplyAndThen(sched: SchedulerInfo, s: State, job: Job, ran: seq<string>, v: Verdict)
    ensures Apply(sched, Apply(sched, s, job, Pass(ran)).0, job, v) == Apply(sched, s, job, AndThen(ran, v))
  {
    assert (s.ran + ran) + v.ran == s.ran + (ran + v.ran);
  }

  /** A post-process stage, whose failure text is `<Class> Failed: `. */
  function PostStage(className: string, outcome: StageOutcome): Stage
  {
    Stage(className, className + " Failed: ", outcome)
  }

  /** The post-processes `do_postprocesses` runs, in order. */
  function PostprocStages(settings: Settings, job: Job): seq<Stage>
  {
    [PostStage("Denoise", job.denoise)]
    + (if settings.multiColumnSkewEnabled then [PostStage("MultiColumnSkew", job.multiColumnSkew)] else [])
    + [PostStage("XML_To_Text", job.xmlToText),
       PostStage("PageEvaluator", job.pageEvaluator),
       PostStage("PageCorrector", job.pageCorrector),
       PostStage("JuxtaCompare", job.juxtaCompare)]
  }

  /** `do_ocr`: only the tesseract engine is supported. */
  function OcrVerdict(settings: Settings, job: Job): Verdict
  {
    if job.ocrEngine != "tesseract"
    then Fail([], "OCR with " + job.ocrEngine + " not yet supported")
    else RunStage(settings, Stage("Tesseract", job.ocrEngine + " OCR Failed: ", job.ocr))
  }

  /** `do_job`: OCR, then the post-processes if OCR succeeded. */
  function JobVerdict(settings: Settings, job: Job): Verdict
  {
    match OcrVerdict(settings, job)
    case Fail(r, m) => Fail(r, m)
    case Pass(r) => AndThen(r, Pipeline(settings, PostprocStages(settings, job)))
  }

  /** One "ocr" unit of the run loop: its job, and on success its completion. */
  function UnitStep(settings: Settings, sched: SchedulerInfo, s: State, job: Job): State
  {
    var done := Apply(sched, s, job, JobVerdict(settings, job));
    if done.1 then Append(sched, done.0, job, "", false) else done.0
  }

  /** The units processed one after another. */
  function Units(settings: Settings, sched: SchedulerInfo, s: State, jobs: seq<Job>): State
  {
    if jobs == [] then s
    else UnitStep(settings, sched, Units(settings, sched, s, jobs[..|jobs| - 1]), jobs[|jobs| - 1])
  }

  // ---------------------------------------------------------------------
  // What the pipeline does
  // ---------------------------------------------------------------------

  /** The index of the first stage that fails, or the number of stages. */
  function FirstFailing(settings: Settings, stages: seq<Stage>): (f: nat)
    ensures f <= |stages|
    ensures forall k :: 0 <= k < f ==> !StageFails(settings, stages[k])
    ensures f < |stages| ==> StageFails(settings, stages[f])
  {
    if stages == [] then 0
    else if StageFails(settings, stages[0]) then 0
    else 1 + FirstFailing(settings, stages[1..])
  }

  /** The classes of the stages that run, in order. */
  function RunNames(settings: Settings, stages: seq<Stage>): seq<string>
  {
    if stages == [] then []
    else (if StageRuns(settings, stages[0]) then [stages[0].className] else []) + RunNames(settings, stages[1..])
  }

  /** The pipeline passes exactly when no stage fails, having run every stage
      that needs to run; otherwise it runs those up to and including the first
      failing stage, none after it, and fails with that stage's text. */
  lemma {:induction false} PipelineSpec(settings: Settings, stages: seq<Stage>)
    ensures var f := FirstFailing(settings, stages);
      && (f == |stages| ==> Pipeline(settings, stages) == Pass(RunNames(settings, stages)))
      && (f < |stages| ==>
            Pipeline(settings, stages)
            == Fail(RunNames(settings, stages[..f + 1]), stages[f].failPrefix + stages[f].outcome.stderr))
    decreases |stages|
  {
    if stages != [] {
      var head := stages[0];
      var rest := stages[1..];
      var f := FirstFailing(settings, stages);
      assert [head][1..] == [];
      if StageFails(settings, head) {
        assert stages[..1] == [head];
        assert RunNames(settings, [head]) == [head.className];
      } else {
        PipelineSpec(settings, rest);
        assert RunStage(settings, head) == Pass(RunNames(settings, [head]));
        assert RunNames(settings, stages) == RunNames(settings, [head]) + RunNames(settings, rest);
        if f < |stages| {
          assert stages[..f + 1] == [head] + rest[..f];
          RunNamesAppend(settings, [head], rest[..f]);
          assert stages[f] == rest[f - 1];
        }
      }
    }
  }

  lemma {:induction false} RunNamesAppend(settings: Settings, a: seq<Stage>, b: seq<Stage>)
    ensures RunNames(settings, a + b) == RunNames(settings, a) + RunNames(settings, b)
    decreases |a|
  {
    if a == [] {
      assert a + b == b;
    } else {
      assert (a + b)[0] == a[0] && (a + b)[1..] == a[1..] + b;
      RunNamesAppend(settings, a[1..], b);
    }
  }

  /** With multi-column skew disabled, its outcome plays no part. */
  lemma SkewIgnoredWhenDisabled(settings: Settings, job: Job, other: StageOutcome)
    requires !settings.multiColumnSkewEnabled
    ensures PostprocStages(settings, job) == PostprocStages(settings, job.(multiColumnSkew := other))
    ensures |PostprocStages(settings, job)| == 5
  {
  }

  /** `do_process`: a skipped stage changes nothing and passes; a stage that
      runs and exits non-zero records one failure `<prefix><stderr>` and
      fails; one that exits zero only records that it ran. */
  lemma DoProcessCases(settings: Settings, sched: SchedulerInfo, s: State, job: Job, stage: Stage)
    ensures var after := Apply(sched, s, job, RunStage(settings, stage));
      && (settings.controllerSkipExisting && !stage.outcome.shouldRun ==> after == (s, true))
      && (StageRuns(settings, stage) && stage.outcome.exitcode != 0 ==>
            && !after.1 && after.0.ran == s.ran + [stage.className]
            && after.0.completed == s.completed
            && after.0.failed == s.failed + [FailureEntry(sched, job.id, stage.failPrefix + stage.outcome.stderr)])
      && (StageRuns(settings, stage) && stage.outcome.exitcode == 0 ==>
            after == (s.(ran := s.ran + [stage.className]), true))
  {
    if !StageRuns(settings, stage) {
      assert s.ran + [] == s.ran;
    }
  }

  /** `do_ocr`: an engine other than tesseract records one "not yet
      supported" failure without running anything; tesseract is a stage
      like the others, with the failure prefix `tesseract OCR Failed: `. */
  lemma OcrCases(settings: Settings, sched: SchedulerInfo, s: State, job: Job)
    ensures var after := Apply(sched, s, job, OcrVerdict(settings, job));
      && (job.ocrEngine != "tesseract" ==>
            && !after.1 && after.0.ran == s.ran && after.0.completed == s.completed
            && after.0.failed == s.failed + [FailureEntry(sched, job.id, "OCR with " + job.ocrEngine + " not yet supported")])
      && (job.ocrEngine == "tesseract" ==>
            after == Apply(sched, s, job, RunStage(settings, Stage("Tesseract", "tesseract OCR Failed: ", job.ocr))))
  {
    if job.ocrEngine != "tesseract" {
      assert s.ran + [] == s.ran;
    } else {
      assert job.ocrEngine + " OCR Failed: " == "tesseract OCR Failed: ";
    }
  }

  /** `do_job`: a failed OCR is the unit's verdict and no post-process runs;
      after a passing OCR the post-processes run up to the first failing one,
      and its failure is the unit's. */
  lemma JobVerdictCases(settings: Settings, job: Job)
    ensures var stages := PostprocStages(settings, job);
      var f := FirstFailing(settings, stages);
      var ocr := OcrVerdict(settings, job);
      && (ocr.Fail? ==> JobVerdict(settings, job) == ocr)
      && (ocr.Pass? && f == |stages| ==> JobVerdict(settings, job) == Pass(ocr.ran + RunNames(settings, stages)))
      && (ocr.Pass? && f < |stages| ==>
            JobVerdict(settings, job)
            == Fail(ocr.ran + RunNames(settings, stages[..f + 1]), stages[f].failPrefix + stages[f].outcome.stderr))
  {
    PipelineSpec(settings, PostprocStages(settings, job));
  }

  /** A unit ends up recorded exactly once: its id in the completed list, or
      one failure entry for it. */
  lemma UnitRecordedOnce(settings: Settings, sched: SchedulerInfo, s: State, job: Job)
    ensures var t := UnitStep(settings, sched, s, job);
      || (t.completed == s.completed + [job.id] && t.failed == s.failed)
      || (t.completed == s.completed && exists m :: t.failed == s.failed + [FailureEntry(sched, job.id, m)])
  {
    var v := JobVerdict(settings, job);
    if v.Fail? {
      var t := UnitStep(settings, sched, s, job);
      assert t.failed == s.failed + [FailureEntry(sched, job.id, v.message)];
    }
  }

  /** The id a failure entry is for. */
  function EntryId(entry: Value): Value
  {
    if entry.Obj? then GetOrNull(entry.fields, "id") else Null
  }

  function EntryIds(entries: seq<Value>): seq<Value>
  {
    if entries == [] then [] else [EntryId(entries[0])] + EntryIds(entries[1..])
  }

  lemma {:induction false} EntryIdsAppend(a: seq<Value>, b: seq<Value>)
    ensures EntryIds(a + b) == EntryIds(a) + EntryIds(b)
    decreases |a|
  {
    if a == [] {
      assert a + b == b;
    } else {
      assert (a + b)[0] == a[0] && (a + b)[1..] == a[1..] + b;
      EntryIdsAppend(a[1..], b);
    }
  }

  function Ids(jobs: seq<Job>): seq<Value>
  {
    if jobs == [] then [] else Ids(jobs[..|jobs| - 1]) + [jobs[|jobs| - 1].id]
  }

  /** `t` extends `s` by recording each id of `ids` exactly once, as a
      completed id or as the id of a failure entry. */
  ghost predicate RecordsEachOnce(s: State, t: State, ids: seq<Value>)
  {
    && |s.completed| <= |t.completed| && |s.failed| <= |t.failed|
    && t.completed[..|s.completed|] == s.completed && t.failed[..|s.failed|] == s.failed
    && multiset(t.completed[|s.completed|..]) + multiset(EntryIds(t.failed[|s.failed|..])) == multiset(ids)
  }

  lemma RecordsCompleted(s: State, m: State, t: State, ids: seq<Value>, id: Value)
    requires RecordsEachOnce(s, m, ids)
    requires t.completed == m.completed + [id] && t.failed == m.failed
    ensures RecordsEachOnce(s, t, ids + [id])
  {
    assert t.completed[..|s.completed|] == m.completed[..|s.completed|];
    assert t.completed[|s.completed|..] == m.completed[|s.completed|..] + [id];
  }

  lemma RecordsFailed(sched: SchedulerInfo, s: State, m: State, t: State, ids: seq<Value>, id: Value, msg: string)
    requires RecordsEachOnce(s, m, ids)
    requires t.completed == m.completed && t.failed == m.failed + [FailureEntry(sched, id, msg)]
    ensures RecordsEachOnce(s, t, ids + [id])
  {
    var entry := FailureEntry(sched, id, msg);
    assert t.failed[..|s.failed|] == m.failed[..|s.failed|];
    assert t.failed[|s.failed|..] == m.failed[|s.failed|..] + [entry];
    EntryIdsAppend(m.failed[|s.failed|..], [entry]);
    assert entry.fields[0] == ("id", id);
    assert EntryIds([entry]) == [id];
  }

  /** Over a run of "ocr" units, every unit's id is added exactly once to
      the completed ids and the ids of the failure entries taken together. */
  lemma {:induction false} UnitsRecordEachOnce(settings: Settings, sched: SchedulerInfo, s: State, jobs: seq<Job>)
    ensures RecordsEachOnce(s, Units(settings, sched, s, jobs), Ids(jobs))
    decreases |jobs|
  {
    if jobs == [] {
      assert EntryIds([]) == [];
      assert s.completed[..|s.completed|] == s.completed && s.failed[..|s.failed|] == s.failed;
    } else {
      var front := jobs[..|jobs| - 1];
      var job := jobs[|jobs| - 1];
      UnitsRecordEachOnce(settings, sched, s, front);
      var m := Units(settings, sched, s, front);
      var t := UnitStep(settings, sched, m, job);
      UnitRecordedOnce(settings, sched, m, job);
      if t.completed == m.completed + [job.id] && t.failed == m.failed {
        RecordsCompleted(s, m, t, Ids(front), job.id);
      } else {
        var msg :| t.failed == m.failed + [FailureEntry(sched, job.id, msg)];
        RecordsFailed(sched, s, m, t, Ids(front), job.id, msg);
      }
    }
  }

  // ---------------------------------------------------------------------
  // The signal
  // ---------------------------------------------------------------------

  const TimeLimit := "time limit reached"

  /** The failures `signal_exit` adds: one per id not completed, in order. */
  function TimeoutEntries(sched: SchedulerInfo, ids: seq<Value>, completed: seq<Value>): seq<Value>
  {
    if ids == [] then []
    else TimeoutEntries(sched, ids[..|ids| - 1], completed)
         + (if ids[|ids| - 1] in completed then []
            else [FailureEntry(sched, ids[|ids| - 1], TimeLimit)])
  }

  /** The state after `signal_exit`: the time-outs, then a save overwriting the output. */
  function Timeout(sched: SchedulerInfo, s: State, ids: seq<Value>): State
  {
    var next := s.(failed := s.failed + TimeoutEntries(sched, ids, s.completed));
    next.(saved := s.saved + [Save(Output, ResultsValue(next), true)])
  }

  /** After the signal every id of the run is either completed or has a
      time-limit failure entry, whatever entries it had before. */
  lemma {:induction false} TimeoutCoversAll(sched: SchedulerInfo, ids: seq<Value>, completed: seq<Value>)
    ensures forall i :: 0 <= i < |ids| && ids[i] !in completed ==>
      FailureEntry(sched, ids[i], TimeLimit) in TimeoutEntries(sched, ids, completed)
    ensures forall e :: e in TimeoutEntries(sched, ids, completed) ==> EntryId(e) in ids && EntryId(e) !in completed
    decreases |ids|
  {
    if ids != [] {
      var front := ids[..|ids| - 1];
      TimeoutCoversAll(sched, front, completed);
      forall i | 0 <= i < |ids| - 1
        ensures ids[i] == front[i]
      {
      }
    }
  }

  /** A unit that already failed and is hit by the signal ends up with two
      failure entries. */
  lemma TimeoutRefailsFailedUnit(sched: SchedulerInfo, s: State, id: Value, msg: string)
    requires id !in s.completed && FailureEntry(sched, id, msg) in s.failed
    ensures var t := Timeout(sched, s, [id]);
      && FailureEntry(sched, id, msg) in t.failed
      && FailureEntry(sched, id, TimeLimit) in t.failed
  {
    assert [id][..0] == [];
  }

  /** Nothing has run yet: the state is the start and the goal is the whole verdict. */
  lemma PipelineStart(sched: SchedulerInfo, start: State, job: Job, goal: Verdict)
    ensures start == Apply(sched, start, job, Pass([])).0
    ensures goal == AndThen([], goal)
  {
    assert start.ran + [] == start.ran;
    assert [] + goal.ran == goal.ran;
  }

  /** One more stage of a pipeline run stage by stage: it passes, and what
      remains is the rest, or it fails, and the whole pipeline's verdict is
      applied. */
  lemma PipelineStep(settings: Settings, sched: SchedulerInfo, start: State, job: Job, goal: Verdict,
                     done: seq<string>, rest: seq<Stage>, s: State, after: (State, bool))
    requires rest != [] && goal == AndThen(done, Pipeline(settings, rest))
    requires s == Apply(sched, start, job, Pass(done)).0
    requires after == Apply(sched, s, job, RunStage(settings, rest[0]))
    ensures after.1 ==> && after.0 == Apply(sched, start, job, Pass(done + RunStage(settings, rest[0]).ran)).0
                        && goal == AndThen(done + RunStage(settings, rest[0]).ran, Pipeline(settings, rest[1..]))
    ensures !after.1 ==> after == Apply(sched, start, job, goal)
  {
    var v := RunStage(settings, rest[0]);
    assert (start.ran + done) + v.ran == start.ran + (done + v.ran);
    if v.Pass? {
      var tail := Pipeline(settings, rest[1..]);
      assert (done + v.ran) + tail.ran == done + (v.ran + tail.ran);
    }
  }

  /** Every stage has passed: the state is the whole verdict applied. */
  lemma PipelineEnd(settings: Settings, sched: SchedulerInfo, start: State, job: Job, goal: Verdict,
                    done: seq<string>, rest: seq<Stage>)
    requires rest == [] && goal == AndThen(done, Pipeline(settings, rest))
    ensures Apply(sched, start, job, goal) == (Apply(sched, start, job, Pass(done)).0, true)
  {
    assert done + [] == done;
  }

  /** The module globals of a run: the ids of its units and the run itself. */
  class Globals {
    var jobIds: seq<Value>
    var instance: EmopRun?

    constructor ()
      ensures jobIds == [] && instance == null
    {
      jobIds := [];
      instance := null;
    }

    /** The ids of the units, appended to `job_ids` in order. */
    method AddIds(data: seq<Job>)
      modifies this
      ensures jobIds == old(jobIds) + Ids(data) && instance == old(instance)
    {
      var i := 0;
      while i < |data|
        invariant 0 <= i <= |data|
        invariant jobIds == old(jobIds) + Ids(data[..i]) && instance == old(instance)
      {
        assert data[..i + 1][..i] == data[..i];
        jobIds := jobIds + [data[i].id];
        i := i + 1;
      }
      assert data[..i] == data;
    }
  }

  /** How a run ends: `run` returns, or the signal handler exits. */
  datatype RunEnd = Returned(ok: bool) | Exited(code: int)

  class EmopRun {
    const settings: Settings
    const sched: SchedulerInfo
    var jobsCompleted: seq<Value>
    var jobsFailed: seq<Value>
    var pageResults: seq<Value>
    var postprocResults: seq<Value>
    var saved: seq<Save>
    var ran: seq<string>

    constructor (settings: Settings, sched: SchedulerInfo)
      ensures this.settings == settings && this.sched == sched
      ensures Snapshot() == State([], [], [], [], [], [])
    {
      this.settings := settings;
      this.sched := sched;
      jobsCompleted := [];
      jobsFailed := [];
      pageResults := [];
      postprocResults := [];
      saved := [];
      ran := [];
    }

    function Snapshot(): State
      reads this
    {
      State(jobsCompleted, jobsFailed, pageResults, postprocResults, saved, ran)
    }

    /** `get_results()`. */
    function GetResults(): Value
      reads this
    {
      ResultsValue(Snapshot())
    }

    method AppendResult(job: Job, results: string, failed: bool)
      modifies this
      ensures Snapshot() == Append(sched, old(Snapshot()), job, results, failed)
    {
      ghost var before := Snapshot();
      if failed {
        jobsFailed := jobsFailed + [FailureEntry(sched, job.id, results)];
      } else {
        jobsCompleted := jobsCompleted + [job.id];
      }
      if job.pageResult.Some? {
        pageResults := pageResults + [job.pageResult.value];
      }
      if job.postprocResult.Some? {
        postprocResults := postprocResults + [job.postprocResult.value];
      }
      assert Snapshot() == Recorded(sched, before, job, results, failed);
      var currentResults := GetResults();
      saved := saved + [Save(Output, currentResults, true)];
    }

    method DoProcess(stage: Stage, job: Job) returns (ok: bool)
      modifies this
      ensures (Snapshot(), ok) == Apply(sched, old(Snapshot()), job, RunStage(settings, stage))
    {
      if settings.controllerSkipExisting && !stage.outcome.shouldRun {
        assert ran + [] == ran;
        return true;
      }
      ran := ran + [stage.className];
      var result := stage.outcome;
      if result.exitcode != 0 {
        var err := stage.failPrefix + result.stderr;
        AppendResult(job, err, true);
        return false;
      }
      return true;
    }

    method DoOcr(job: Job) returns (ok: bool)
      modifies this
      ensures (Snapshot(), ok) == Apply(sched, old(Snapshot()), job, OcrVerdict(settings, job))
    {
      var ocrEngine := job.ocrEngine;
      if ocrEngine != "tesseract" {
        var ocrEngineErr := "OCR with " + ocrEngine + " not yet supported";
        assert ran + [] == ran;
        AppendResult(job, ocrEngineErr, true);
        return false;
      }
      ok := DoProcess(Stage("Tesseract", ocrEngine + " OCR Failed: ", job.ocr), job);
    }

    method DoPostprocesses(job: Job) returns (ok: bool)
      modifies this
      ensures (Snapshot(), ok) == Apply(sched, old(Snapshot()), job, Pipeline(settings, PostprocStages(settings, job)))
    {
      ghost var start := Snapshot();
      ghost var goal := Pipeline(settings, PostprocStages(settings, job));
      ghost var rest := PostprocStages(settings, job);
      ghost var done: seq<string> := [];
      ghost var before := Snapshot();
      PipelineStart(sched, start, job, goal);
      // Denoise
      ok := DoProcess(PostStage("Denoise", job.denoise), job);
      PipelineStep(settings, sched, start, job, goal, done, rest, before, (Snapshot(), ok));
      if !ok {
        return;
      }
      done, rest, before := done + RunStage(settings, rest[0]).ran, rest[1..], Snapshot();
      // MultiColumnSkew
      if settings.multiColumnSkewEnabled {
        ok := DoProcess(PostStage("MultiColumnSkew", job.multiColumnSkew), job);
        PipelineStep(settings, sched, start, job, goal, done, rest, before, (Snapshot(), ok));
        if !ok {
          return;
        }
        done, rest, before := done + RunStage(settings, rest[0]).ran, rest[1..], Snapshot();
      }
      assert rest == [PostStage("XML_To_Text", job.xmlToText), PostStage("PageEvaluator", job.pageEvaluator),
                      PostStage("PageCorrector", job.pageCorrector), PostStage("JuxtaCompare", job.juxtaCompare)];
      // XML_To_Text
      ok := DoProcess(PostStage("XML_To_Text", job.xmlToText), job);
      PipelineStep(settings, sched, start, job, goal, done, rest, before, (Snapshot(), ok));
      if !ok {
        return;
      }
      done, rest, before := done + RunStage(settings, rest[0]).ran, rest[1..], Snapshot();
      // PageEvaluator
      ok := DoProcess(PostStage("PageEvaluator", job.pageEvaluator), job);
      PipelineStep(settings, sched, start, job, goal, done, rest, before, (Snapshot(), ok));
      if !ok {
        return;
      }
      done, rest, before := done + RunStage(settings, rest[0]).ran, rest[1..], Snapshot();
      // PageCorrector
      ok := DoProcess(PostStage("PageCorrector", job.pageCorrector), job);
      PipelineStep(settings, sched, start, job, goal, done, rest, before, (Snapshot(), ok));
      if !ok {
        return;
      }
      done, rest, before := done + RunStage(settings, rest[0]).ran, rest[1..], Snapshot();
      // JuxtaCompare, on the post-processed text
      ok := DoProcess(PostStage("JuxtaCompare", job.juxtaCompare), job);
      PipelineStep(settings, sched, start, job, goal, done, rest, before, (Snapshot(), ok));
      if !ok {
        return;
      }
      done, rest := done + RunStage(settings, rest[0]).ran, rest[1..];
      PipelineEnd(settings, sched, start, job, goal, done, rest);
      return true;
    }

    method DoJob(job: Job) returns (ok: bool)
      modifies this
      ensures (Snapshot(), ok) == Apply(sched, old(Snapshot()), job, JobVerdict(settings, job))
    {
      ghost var start := Snapshot();
      ok := DoOcr(job);
      if !ok {
        return false;
      }
      ok := DoPostprocesses(job);
      ApplyAndThen(sched, start, job, OcrVerdict(settings, job).ran, Pipeline(settings, PostprocStages(settings, job)));
    }

    /** `run(force)` with the payload's units, whether its output files
        exist, and the unit before which the time-limit signal arrives, if
        it does during the loop; `Some(|data|)` is a signal after the last
        unit, before the completed output is saved. */
    method Run(force: bool, data: seq<Job>, outputExists: bool, completedOutputExists: bool,
               globals: Globals, signalBefore: Option<nat>) returns (r: RunEnd)
      modifies this, globals
      ensures data == [] || (!force && (outputExists || completedOutputExists)) ==>
        r == Returned(false) && Snapshot() == old(Snapshot())
        && globals.jobIds == old(globals.jobIds) && globals.instance == old(globals.instance)
      ensures !(data == [] || (!force && (outputExists || completedOutputExists))) ==>
        && globals.jobIds == old(globals.jobIds) + Ids(data) && globals.instance == this
        && (Snapshot(), r) == RunSpec(settings, sched, old(Snapshot()), data, force, globals.jobIds, signalBefore)
    {
      if data == [] {
        return Returned(false);
      }
      if !force {
        if outputExists {
          return Returned(false);
        }
        if completedOutputExists {
          return Returned(false);
        }
      }
      globals.AddIds(data);
      globals.instance := this;
      r := ProcessUnits(data, force, globals, signalBefore);
    }

    /** The loop over the units and the final save. */
    method ProcessUnits(data: seq<Job>, force: bool, globals: Globals, signalBefore: Option<nat>) returns (r: RunEnd)
      requires globals.instance == this
      modifies this
      ensures (Snapshot(), r) == RunSpec(settings, sched, old(Snapshot()), data, force, globals.jobIds, signalBefore)
    {
      ghost var start := Snapshot();
      var i := 0;
      while i < |data|
        invariant 0 <= i <= |data|
        invariant i <= FirstNonOcr(data)
        invariant signalBefore.Some? ==> signalBefore.value >= i
        invariant Snapshot() == Units(settings, sched, start, data[..i])
      {
        if signalBefore == Some(i) {
          RunSpecSignalled(settings, sched, start, data, force, globals.jobIds, i);
          var code := SignalExit(globals);
          return Exited(code);
        }
        var job := data[i];
        if job.jobType == "ocr" {
          DoUnit(job);
        } else {
          RunSpecStopped(settings, sched, start, data, force, globals.jobIds, signalBefore, i);
          return Returned(false);
        }
        UnitsStep(settings, sched, start, data, i);
        FirstNonOcrPast(data, i);
        i := i + 1;
      }
      if signalBefore == Some(|data|) {
        RunSpecSignalled(settings, sched, start, data, force, globals.jobIds, i);
        var code := SignalExit(globals);
        return Exited(code);
      }
      RunSpecFinished(settings, sched, start, data, force, globals.jobIds, signalBefore);
      var results := GetResults();
      saved := saved + [Save(CompletedOutput, results, force)];
      return Returned(true);
    }

    /** One "ocr" unit: its job, and its completion when the job succeeds. */
    method DoUnit(job: Job)
      modifies this
      ensures Snapshot() == UnitStep(settings, sched, old(Snapshot()), job)
    {
      var jobSuccessful := DoJob(job);
      if jobSuccessful {
        AppendResult(job, "", false);
      }
    }
  }

  /** The units up to `i + 1` are the units up to `i` and then unit `i`. */
  lemma UnitsStep(settings: Settings, sched: SchedulerInfo, s: State, data: seq<Job>, i: nat)
    requires i < |data|
    ensures Units(settings, sched, s, data[..i + 1]) == UnitStep(settings, sched, Units(settings, sched, s, data[..i]), data[i])
  {
    assert data[..i + 1][..i] == data[..i];
  }

  lemma RunSpecSignalled(settings: Settings, sched: SchedulerInfo, s: State, data: seq<Job>,
                         force: bool, ids: seq<Value>, i: nat)
    requires i <= FirstNonOcr(data)
    ensures RunSpec(settings, sched, s, data, force, ids, Some(i))
         == (Timeout(sched, Units(settings, sched, s, data[..i]), ids), Exited(1))
  {
  }

  lemma RunSpecStopped(settings: Settings, sched: SchedulerInfo, s: State, data: seq<Job>,
                       force: bool, ids: seq<Value>, signalBefore: Option<nat>, i: nat)
    requires i < |data| && i <= FirstNonOcr(data) && data[i].jobType != "ocr"
    requires signalBefore.Some? ==> signalBefore.value > i
    ensures RunSpec(settings, sched, s, data, force, ids, signalBefore)
         == (Units(settings, sched, s, data[..i]), Returned(false))
  {
  }

  lemma RunSpecFinished(settings: Settings, sched: SchedulerInfo, s: State, data: seq<Job>,
                        force: bool, ids: seq<Value>, signalBefore: Option<nat>)
    requires FirstNonOcr(data) == |data|
    requires signalBefore.Some? ==> signalBefore.value > |data|
    ensures RunSpec(settings, sched, s, data, force, ids, signalBefore) == (Finished(settings, sched, s, data, force), Returned(true))
    ensures Units(settings, sched, s, data[..|data|]) == Units(settings, sched, s, data)
  {
    assert data[..|data|] == data;
  }

  /** The index of the first unit whose type is not "ocr", or the number of units. */
  function FirstNonOcr(data: seq<Job>): (k: nat)
    ensures k <= |data|
    ensures forall m :: 0 <= m < k ==> data[m].jobType == "ocr"
    ensures k < |data| ==> data[k].jobType != "ocr"
  {
    if data == [] then 0
    else if data[0].jobType != "ocr" then 0
    else 1 + FirstNonOcr(data[1..])
  }

  /** The run loop and its end, from `s`: units in order until a unit that
      is not "ocr", which ends the run with False and no further save, or the
      signal, which times out every unit of `ids` not completed, also when it
      comes after the last unit; a run that gets through every unit without
      it saves the completed output. */
  function RunSpec(settings: Settings, sched: SchedulerInfo, s: State, data: seq<Job>,
                   force: bool, ids: seq<Value>, signalBefore: Option<nat>): (State, RunEnd)
  {
    var k := FirstNonOcr(data);
    if signalBefore.Some? && signalBefore.value <= k then
      (Timeout(sched, Units(settings, sched, s, data[..signalBefore.value]), ids), Exited(1))
    else if k < |data| then (Units(settings, sched, s, data[..k]), Returned(false))
    else (Finished(settings, sched, s, data, force), Returned(true))
  }

  /** Every unit processed, then the completed output saved. */
  function Finished(settings: Settings, sched: SchedulerInfo, s: State, data: seq<Job>, force: bool): State
  {
    var done := Units(settings, sched, s, data);
    done.(saved := done.saved + [Save(CompletedOutput, ResultsValue(done), force)])
  }

  /** A run of "ocr" units that the signal does not interrupt returns True,
      records every unit exactly once, and its last save is the completed
      output holding the final results. */
  lemma RunRecordsEachUnit(settings: Settings, sched: SchedulerInfo, s: State, data: seq<Job>,
                           force: bool, ids: seq<Value>, signalBefore: Option<nat>)
    requires forall k :: 0 <= k < |data| ==> data[k].jobType == "ocr"
    requires signalBefore.None? || signalBefore.value > |data|
    ensures RunSpec(settings, sched, s, data, force, ids, signalBefore) == (Finished(settings, sched, s, data, force), Returned(true))
    ensures RecordsEachOnce(s, Finished(settings, sched, s, data, force), Ids(data))
    ensures Finished(settings, sched, s, data, force).saved
         == Units(settings, sched, s, data).saved + [Save(CompletedOutput, ResultsValue(Finished(settings, sched, s, data, force)), force)]
  {
    FirstNonOcrAll(data);
    UnitsRecordEachOnce(settings, sched, s, data);
  }

  lemma FirstNonOcrPast(data: seq<Job>, i: nat)
    requires i < |data| && i <= FirstNonOcr(data) && data[i].jobType == "ocr"
    ensures i + 1 <= FirstNonOcr(data)
  {
  }

  lemma {:induction false} FirstNonOcrAll(data: seq<Job>)
    requires forall k :: 0 <= k < |data| ==> data[k].jobType == "ocr"
    ensures FirstNonOcr(data) == |data|
  {
    if data != [] {
      assert data[0].jobType == "ocr";
      assert forall k :: 0 <= k < |data[1..]| ==> data[1..][k] == data[k + 1];
      FirstNonOcrAll(data[1..]);
    }
  }

  /** When the signal arrives, the run exits with 1 and every id of the
      run's list is completed or carries a time-limit failure entry. */
  lemma SignalCoversEveryId(settings: Settings, sched: SchedulerInfo, s: State, data: seq<Job>,
                            force: bool, ids: seq<Value>, signalBefore: Option<nat>)
    requires signalBefore.Some? && signalBefore.value <= FirstNonOcr(data)
    ensures var (t, r) := RunSpec(settings, sched, s, data, force, ids, signalBefore);
      && r == Exited(1)
      && forall i :: 0 <= i < |ids| ==> ids[i] in t.completed || FailureEntry(sched, ids[i], TimeLimit) in t.failed
  {
    var m := Units(settings, sched, s, data[..signalBefore.value]);
    TimeoutCoversAll(sched, ids, m.completed);
  }

  /** `signal_exit`: every unit id of the run not completed gets a
      time-limit failure, the results are saved, and the process exits 1. */
  method SignalExit(globals: Globals) returns (code: int)
    requires globals.instance != null
    modifies globals.instance
    ensures code == 1
    ensures globals.instance.Snapshot() ==
      Timeout(globals.instance.sched, old(globals.instance.Snapshot()), globals.jobIds)
  {
    var instance := globals.instance;
    var ids := globals.jobIds;
    ghost var completed := instance.jobsCompleted;
    ghost var before := instance.Snapshot();
    var i := 0;
    while i < |ids|
      invariant 0 <= i <= |ids|
      invariant instance.jobsCompleted == completed
      invariant instance.Snapshot() == before.(failed := before.failed + TimeoutEntries(instance.sched, ids[..i], completed))
    {
      assert ids[..i + 1][..i] == ids[..i];
      var jobId := ids[i];
      if jobId !in instance.jobsCompleted {
        instance.jobsFailed := instance.jobsFailed + [FailureEntry(instance.sched, jobId, TimeLimit)];
      }
      i := i + 1;
    }
    assert ids[..i] == ids;
    var currentResults := instance.GetResults();
    instance.saved := instance.saved + [Save(Output, currentResults, true)];
    return 1;
  }
}
