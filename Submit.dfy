/** The `submit` controller: a sequence of guards that end the program early,
    then a loop reserving one batch of pages per job, one combined stage-in
    transfer, one transfer job and one page-batch job per reservation, each
    depending on the transfer job. What the collaborators answer (the pending
    page count, the scheduler's job count, the optimiser, the endpoint check,
    the reservations, the transfer task and the transfer job id) is given as
    parameters; the method returns how the program ends and the calls it made,
    in order. */
module Submit {
  import opened Common

  /** A call `submit` makes on a collaborator. */
  datatype Call =
    | QueryPending(filter: Value)
    | CountJobs
    | Optimize(pending: Value, jobCount: int, simulate: bool)
    | CheckEndpoints(failOnWarn: bool)
    | Reserve(numPages: int, filter: Value)
    | StageIn(procIds: seq<string>)
    | SubmitTransfer(taskId: string)
    | SubmitJob(procId: string, numPages: int, dependency: Option<string>)

  /** How the program ends: `sys.exit(code)`, or an uncaught exception. */
  datatype End = Exit(code: int) | Crash(error: string)

  /** The command-line arguments `submit` reads; an absent `--num-jobs` or
      `--pages-per-job` is 0, which Python treats as falsy like None. */
  datatype Args = Args(numJobs: int, pagesPerJob: int, filter: Value, schedule: bool, simulate: bool)

  /** The answers of the collaborators. `reserve(i)` is what the i-th
      reservation returns, "" for a failed one; `taskId` is what the stage-in
      returns, or the exception it raises; `transferJobId` is None when the
      transfer job was not submitted. */
  datatype Answers = Answers(
    pending: Outcome<Value>,
    jobCount: int,
    optimized: (int, int),
    endpointCheck: Outcome<bool>,
    reserve: nat -> string,
    taskId: Outcome<string>,
    transferJobId: Option<string>)

  /** Python's `x == 0` on a decoded value: False equals 0 too. */
  predicate EqualsZero(v: Value)
  {
    v == Num(0) || v == Bool(false)
  }

  /** `--num-jobs` and `--pages-per-job` must be given together. */
  predicate ArgsMismatched(args: Args)
  {
    (args.numJobs != 0 && args.pagesPerJob == 0) || (args.numJobs == 0 && args.pagesPerJob != 0)
  }

  /** Whether the job count and page batch size come from the optimiser. */
  predicate Optimizing(args: Args)
  {
    args.pagesPerJob == 0 && args.numJobs == 0
  }

  /** The ids of the successful reservations among the first `k`, in order. */
  function ProcIds(reserve: nat -> string, k: nat): seq<string>
  {
    if k == 0 then [] else ProcIds(reserve, k - 1) + (if reserve(k - 1) != "" then [reserve(k - 1)] else [])
  }

  /** `k` reservation calls. */
  function Reserves(k: nat, numPages: int, filter: Value): (calls: seq<Call>)
    ensures |calls| == k && forall i :: 0 <= i < k ==> calls[i] == Reserve(numPages, filter)
  {
    if k == 0 then [] else Reserves(k - 1, numPages, filter) + [Reserve(numPages, filter)]
  }

  /** One job submission per proc id, in order, each depending on the transfer job. */
  function JobSubmissions(procIds: seq<string>, numPages: int, dependency: Option<string>): (calls: seq<Call>)
    ensures |calls| == |procIds|
    ensures forall j {:trigger calls[j]} :: 0 <= j < |procIds| ==> calls[j] == SubmitJob(procIds[j], numPages, dependency)
  {
    if procIds == [] then []
    else JobSubmissions(procIds[..|procIds| - 1], numPages, dependency)
         + [SubmitJob(procIds[|procIds| - 1], numPages, dependency)]
  }

  /** The calls before the endpoint check. */
  function Planning(args: Args, answers: Answers): seq<Call>
    requires answers.pending.Ok?
  {
    [QueryPending(args.filter)]
    + (if args.schedule then [CountJobs] else [])
    + (if Optimizing(args) then [Optimize(answers.pending.value, answers.jobCount, args.simulate)] else [])
  }

  /** The number of jobs and the pages per job that are submitted. */
  function Plan(args: Args, answers: Answers): (int, int)
  {
    if Optimizing(args) then answers.optimized else (args.numJobs, args.pagesPerJob)
  }

  /** The number of iterations of `xrange(num_jobs)`: none for a negative count. */
  function Rounds(numJobs: int): nat
  {
    if numJobs < 0 then 0 else numJobs
  }

  /** The calls after a successful endpoint check, for the planned number of
      jobs and pages per job. */
  function Dispatch(numJobs: int, pagesPerJob: int, filter: Value, answers: Answers): seq<Call>
  {
    var n := Rounds(numJobs);
    Reserves(n, pagesPerJob, filter) + Submissions(ProcIds(answers.reserve, n), pagesPerJob, answers)
  }

  /** How the program ends after the dispatch: the stage-in's exception is not
      caught, otherwise `sys.exit(0)`. */
  function DispatchEnd(numJobs: int, answers: Answers): End
  {
    var n := Rounds(numJobs);
    if ProcIds(answers.reserve, n) != [] && answers.taskId.Raises? then Crash(answers.taskId.error) else Exit(0)
  }

  /** The calls made for the reserved proc ids: none without any; a stage-in
      that raises ends them; otherwise one stage-in of all of them, one
      transfer job, and one job per proc id, in order, each depending on that
      transfer job. */
  function Submissions(procIds: seq<string>, pagesPerJob: int, answers: Answers): (calls: seq<Call>)
    ensures procIds == [] ==> calls == []
    ensures procIds != [] && answers.taskId.Raises? ==> calls == [StageIn(procIds)]
    ensures procIds != [] && answers.taskId.Ok? ==>
      && |calls| == 2 + |procIds|
      && calls[0] == StageIn(procIds)
      && calls[1] == SubmitTransfer(answers.taskId.value)
      && forall j :: 2 <= j < |calls| ==> calls[j] == SubmitJob(procIds[j - 2], pagesPerJob, answers.transferJobId)
  {
    if procIds == [] then []
    else if answers.taskId.Raises? then [StageIn(procIds)]
    else [StageIn(procIds), SubmitTransfer(answers.taskId.value)] + JobSubmissions(procIds, pagesPerJob, answers.transferJobId)
  }

  method Submit(args: Args, maxJobs: int, answers: Answers) returns (end: End, calls: seq<Call>)
    // the argument guard comes before any query
    ensures ArgsMismatched(args) ==> end == Exit(1) && calls == []
    ensures !ArgsMismatched(args) ==> |calls| > 0 && calls[0] == QueryPending(args.filter)
    // the pending count
    ensures !ArgsMismatched(args) && answers.pending.Raises? ==>
      end == Crash(answers.pending.error) && calls == [QueryPending(args.filter)]
    ensures !ArgsMismatched(args) && answers.pending.Ok? && EqualsZero(answers.pending.value) ==>
      end == Exit(0) && calls == [QueryPending(args.filter)]
    ensures !ArgsMismatched(args) && answers.pending.Ok? && !EqualsZero(answers.pending.value)
            && !Truthy(answers.pending.value) ==>
      end == Exit(1) && calls == [QueryPending(args.filter)]
    // the job limit
    ensures !ArgsMismatched(args) && answers.pending.Ok? && Truthy(answers.pending.value)
            && args.schedule && answers.jobCount >= maxJobs ==>
      end == Exit(0) && calls == [QueryPending(args.filter), CountJobs]
    // the optimiser reads a job count that only the scheduled path binds
    ensures !ArgsMismatched(args) && answers.pending.Ok? && Truthy(answers.pending.value)
            && !args.schedule && Optimizing(args) ==>
      end == Crash("UnboundLocalError") && calls == [QueryPending(args.filter)]
    // past the job limit and the optimiser
    ensures !ArgsMismatched(args) && answers.pending.Ok? && Truthy(answers.pending.value)
            && (args.schedule ==> answers.jobCount < maxJobs) && (args.schedule || !Optimizing(args)) ==>
      && |calls| >= |Planning(args, answers)| && calls[..|Planning(args, answers)|] == Planning(args, answers)
      && (args.simulate ==> end == Exit(0) && calls == Planning(args, answers))
      && (!args.simulate && answers.endpointCheck.Raises? ==>
            end == Crash(answers.endpointCheck.error) && calls == Planning(args, answers) + [CheckEndpoints(true)])
      && (!args.simulate && answers.endpointCheck == Ok(false) ==>
            end == Exit(1) && calls == Planning(args, answers) + [CheckEndpoints(true)])
      && (!args.simulate && answers.endpointCheck == Ok(true) ==>
            end == DispatchEnd(Plan(args, answers).0, answers)
            && calls == Planning(args, answers) + [CheckEndpoints(true)]
                        + Dispatch(Plan(args, answers).0, Plan(args, answers).1, args.filter, answers))
  {
    if (args.numJobs != 0 && args.pagesPerJob == 0) || (args.numJobs == 0 && args.pagesPerJob != 0) {
      return Exit(1), [];
    }
    calls := [QueryPending(args.filter)];
    if answers.pending.Raises? {
      return Crash(answers.pending.error), calls;
    }
    var pendingPages := answers.pending.value;
    if pendingPages == Num(0) || pendingPages == Bool(false) {
      return Exit(0), calls;
    }
    if !Truthy(pendingPages) {
      return Exit(1), calls;
    }
    var currentJobCount: Option<int> := None;
    if args.schedule {
      calls := calls + [CountJobs];
      currentJobCount := Some(answers.jobCount);
      if answers.jobCount >= maxJobs {
        return Exit(0), calls;
      }
    }
    var numJobs, pagesPerJob;
    if args.pagesPerJob == 0 && args.numJobs == 0 {
      if currentJobCount.None? {
        return Crash("UnboundLocalError"), calls;
      }
      calls := calls + [Optimize(pendingPages, currentJobCount.value, args.simulate)];
      numJobs, pagesPerJob := answers.optimized.0, answers.optimized.1;
    } else {
      numJobs, pagesPerJob := args.numJobs, args.pagesPerJob;
    }
    assert calls == Planning(args, answers);
    if args.simulate {
      return Exit(0), calls;
    }
    calls := calls + [CheckEndpoints(true)];
    if answers.endpointCheck.Raises? {
      return Crash(answers.endpointCheck.error), calls;
    }
    if !answers.endpointCheck.value {
      return Exit(1), calls;
    }
    var dispatched;
    end, dispatched := ReserveAndDispatch(numJobs, pagesPerJob, args.filter, answers);
    calls := calls + dispatched;
  }

  /** The reserve loop and, when it reserved anything, the stage-in, the
      transfer job and the page-batch jobs; an exception of the stage-in ends
      the program. */
  method ReserveAndDispatch(numJobs: int, pagesPerJob: int, filter: Value, answers: Answers)
    returns (end: End, calls: seq<Call>)
    ensures end == DispatchEnd(numJobs, answers)
    ensures calls == Dispatch(numJobs, pagesPerJob, filter, answers)
  {
    var procIds;
    procIds, calls := ReserveAll(numJobs, pagesPerJob, filter, answers.reserve);
    end := Exit(0);
    if procIds != [] {
      ghost var reserved := calls;
      calls := calls + [StageIn(procIds)];
      var taskId := answers.taskId;
      if taskId.Raises? {
        return Crash(taskId.error), calls;
      }
      calls := calls + [SubmitTransfer(taskId.value)];
      var transferJobId := answers.transferJobId;
      var submitted := SubmitAll(procIds, pagesPerJob, transferJobId);
      calls := calls + submitted;
      assert calls == reserved + Submissions(procIds, pagesPerJob, answers);
    }
  }

  /** `numJobs` reservations, keeping the proc ids of the successful ones. */
  method ReserveAll(numJobs: int, pagesPerJob: int, filter: Value, reserve: nat -> string)
    returns (procIds: seq<string>, calls: seq<Call>)
    ensures var n := Rounds(numJobs);
      procIds == ProcIds(reserve, n) && calls == Reserves(n, pagesPerJob, filter)
  {
    ghost var n := Rounds(numJobs);
    calls := [];
    procIds := [];
    var i := 0;
    while i < numJobs
      invariant 0 <= i <= n
      invariant procIds == ProcIds(reserve, i)
      invariant calls == Reserves(i, pagesPerJob, filter)
    {
      calls := calls + [Reserve(pagesPerJob, filter)];
      var procId := reserve(i);
      i := i + 1;
      if procId == "" {
        continue;
      }
      procIds := procIds + [procId];
    }
  }

  /** One job per proc id, in order, each depending on the transfer job. */
  method SubmitAll(procIds: seq<string>, pagesPerJob: int, transferJobId: Option<string>) returns (calls: seq<Call>)
    ensures calls == JobSubmissions(procIds, pagesPerJob, transferJobId)
  {
    calls := [];
    var j := 0;
    while j < |procIds|
      invariant 0 <= j <= |procIds|
      invariant calls == JobSubmissions(procIds[..j], pagesPerJob, transferJobId)
    {
      assert procIds[..j + 1][..j] == procIds[..j];
      calls := calls + [SubmitJob(procIds[j], pagesPerJob, transferJobId)];
      j := j + 1;
    }
    assert procIds[..j] == procIds;
  }

  // ---------------------------------------------------------------------
  // Properties of the dispatch
  // ---------------------------------------------------------------------

  /** What the first `k` reservations return. */
  function AllReserved(reserve: nat -> string, k: nat): seq<string>
  {
    if k == 0 then [] else AllReserved(reserve, k - 1) + [reserve(k - 1)]
  }

  /** Only successful reservations are kept, in order: never more than the
      reservations made, none of them empty, all of them when every
      reservation succeeds and none when every one fails. */
  lemma {:induction false} ProcIdsSpec(reserve: nat -> string, k: nat)
    ensures |ProcIds(reserve, k)| <= k
    ensures forall x :: x in ProcIds(reserve, k) ==> x != ""
    ensures (forall i :: 0 <= i < k ==> reserve(i) != "") ==> ProcIds(reserve, k) == AllReserved(reserve, k)
    ensures (forall i :: 0 <= i < k ==> reserve(i) == "") ==> ProcIds(reserve, k) == []
  {
    if k > 0 {
      ProcIdsSpec(reserve, k - 1);
    }
  }

  /** Every kept proc id comes from a successful reservation, and every
      successful reservation is kept. */
  lemma {:induction false} ProcIdsMembers(reserve: nat -> string, k: nat)
    ensures forall x :: x in ProcIds(reserve, k) ==> exists i :: 0 <= i < k && reserve(i) == x
    ensures forall i :: 0 <= i < k && reserve(i) != "" ==> reserve(i) in ProcIds(reserve, k)
  {
    if k > 0 {
      ProcIdsMembers(reserve, k - 1);
    }
  }

  /** With reservations to dispatch there is exactly one stage-in of all of
      them; when it succeeds, one transfer job follows, then one job per proc
      id depending on that transfer job, and the program exits with 0; when it
      raises, nothing follows and the program ends in that exception. Without
      any reservation, only the reservations are made and the exit is 0. */
  lemma DispatchShape(numJobs: int, pagesPerJob: int, filter: Value, answers: Answers)
    ensures ProcIds(answers.reserve, Rounds(numJobs)) == [] ==>
      |Dispatch(numJobs, pagesPerJob, filter, answers)| == Rounds(numJobs) && DispatchEnd(numJobs, answers) == Exit(0)
    ensures ProcIds(answers.reserve, Rounds(numJobs)) != [] ==>
      && |Dispatch(numJobs, pagesPerJob, filter, answers)| > Rounds(numJobs)
      && Dispatch(numJobs, pagesPerJob, filter, answers)[Rounds(numJobs)] == StageIn(ProcIds(answers.reserve, Rounds(numJobs)))
    ensures ProcIds(answers.reserve, Rounds(numJobs)) != [] && answers.taskId.Raises? ==>
      && |Dispatch(numJobs, pagesPerJob, filter, answers)| == Rounds(numJobs) + 1
      && DispatchEnd(numJobs, answers) == Crash(answers.taskId.error)
    ensures ProcIds(answers.reserve, Rounds(numJobs)) != [] && answers.taskId.Ok? ==>
      var n := Rounds(numJobs);
      var procIds := ProcIds(answers.reserve, n);
      var calls := Dispatch(numJobs, pagesPerJob, filter, answers);
      && DispatchEnd(numJobs, answers) == Exit(0)
      && |calls| == n + 2 + |procIds|
      && calls[n + 1] == SubmitTransfer(answers.taskId.value)
      && forall j :: n + 2 <= j < |calls| ==> calls[j] == SubmitJob(procIds[j - (n + 2)], pagesPerJob, answers.transferJobId)
    ensures forall i :: 0 <= i < Rounds(numJobs) ==> Dispatch(numJobs, pagesPerJob, filter, answers)[i] == Reserve(pagesPerJob, filter)
  {
    CallsShape(Rounds(numJobs), ProcIds(answers.reserve, Rounds(numJobs)), pagesPerJob, filter, answers);
  }

  /** The shape of `n` reservations followed by the submissions for `procIds`. */
  lemma CallsShape(n: nat, procIds: seq<string>, pagesPerJob: int, filter: Value, answers: Answers)
    ensures var calls := Reserves(n, pagesPerJob, filter) + Submissions(procIds, pagesPerJob, answers);
      && (procIds == [] ==> |calls| == n)
      && (procIds != [] ==> |calls| > n && calls[n] == StageIn(procIds))
      && (procIds != [] && answers.taskId.Raises? ==> |calls| == n + 1)
      && (procIds != [] && answers.taskId.Ok? ==>
            && |calls| == n + 2 + |procIds|
            && calls[n + 1] == SubmitTransfer(answers.taskId.value)
            && forall j :: n + 2 <= j < |calls| ==> calls[j] == SubmitJob(procIds[j - (n + 2)], pagesPerJob, answers.transferJobId))
      && forall i :: 0 <= i < n ==> calls[i] == Reserve(pagesPerJob, filter)
  {
    var tail := Submissions(procIds, pagesPerJob, answers);
    ConcatIndex(Reserves(n, pagesPerJob, filter), tail);
  }

  /** Indexing into a concatenation. */
  lemma ConcatIndex<T>(a: seq<T>, b: seq<T>)
    ensures |a + b| == |a| + |b|
    ensures forall i :: 0 <= i < |a| ==> (a + b)[i] == a[i]
    ensures forall k :: 0 <= k < |b| ==> (a + b)[|a| + k] == b[k]
  {
  }

  /** The dispatch makes at most two calls more than twice the reservations:
      exactly the reservations when every one fails, one more when some
      succeeds and the stage-in raises, and exactly that bound when every one
      succeeds and so does the stage-in. */
  lemma SubmissionsBounded(numJobs: int, pagesPerJob: int, filter: Value, answers: Answers)
    ensures var n := Rounds(numJobs);
      var calls := Dispatch(numJobs, pagesPerJob, filter, answers);
      && |calls| <= 2 * n + 2
      && ((forall i :: 0 <= i < n ==> answers.reserve(i) == "") ==> |calls| == n)
      && (ProcIds(answers.reserve, n) != [] && answers.taskId.Raises? ==> |calls| == n + 1)
      && (n > 0 && (forall i :: 0 <= i < n ==> answers.reserve(i) != "") && answers.taskId.Ok? ==>
            |calls| == 2 * n + 2)
  {
    var n := Rounds(numJobs);
    ProcIdsSpec(answers.reserve, n);
    AllReservedLength(answers.reserve, n);
    DispatchShape(numJobs, pagesPerJob, filter, answers);
  }

  lemma {:induction false} AllReservedLength(reserve: nat -> string, k: nat)
    ensures |AllReserved(reserve, k)| == k
  {
    if k > 0 {
      AllReservedLength(reserve, k - 1);
    }
  }
}
