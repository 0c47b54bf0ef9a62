# eMOP controller: a verified model of its orchestration

The eMOP controller drives OCR of early-modern page images on a SLURM
cluster. It has five parts, each modelled here:

- **Submit.** The `submit` command asks the eMOP dashboard how many pages are
  pending, reserves batches of pages and stages their input files in through
  Globus. It then submits one transfer job and one SLURM job per batch; each
  batch job depends on the transfer job.
- **Batch run.** On the compute node, a *batch run* takes every page unit
  through OCR and a fixed chain of post-processes. It records each unit as
  completed or failed and saves the accumulated results after every unit. A
  time-limit signal marks the unfinished units as failed.
- **Transfers.** The transfer layer builds the `(src, dest)` pairs to stage
  in and stage out, and checks that both Globus endpoints are activated.
- **SLURM.** The scheduler builds the `sbatch` command lines.
- **Query.** The query layer counts pending pages and aggregates stage
  durations from the job logs.

The Python code talks to many collaborators: the OCR and post-process
programs, the payload files, the dashboard, the Globus API, `sbatch` and
`squeue`. The model exchanges each of them for an oracle:

- a stage is the outcome it reports (`StageOutcome`);
- a payload is its decoded JSON `Value` and existence flags;
- the Globus API is a function from call index to answer, with every call
  logged in a request trace;
- a shell command is a function from call index to `CmdResult`, with every
  command logged;
- the dashboard is a function from request path and parameters to the decoded
  answer.

A Python exception that the code does not catch becomes `Outcome.Raises`,
or a `Crash` end in `submit`, except where a precondition or the model's
types exclude it; each such exclusion is listed under "## Left out".

The files follow the program's modules:

- `Common.dfy`: `Option`, `Outcome`, the JSON `Value`, dictionary lookup,
  `str.split`, `os.path.join`, `rstrip`.
- `Settings.dfy`: the settings record.
- `Globus.dfy`: `emop/lib/transfer/globus.py`.
- `Transfer.dfy`: `emop/emop_transfer.py`.
- `Slurm.dfy`: `emop/lib/schedulers/emop_slurm.py`.
- `LogMarkers.dfy`: the regular-expression markers of the runtime log parser,
  as explicit leftmost and greedy searches.
- `Query.dfy`: `emop/emop_query.py`.
- `Run.dfy`: `emop/emop_run.py`.
- `Submit.dfy`: `submit` in `emop.py`.

The state-changing parts are classes whose methods are proved against
specification functions:

- `BatchRun.EmopRun` with its four accumulators;
- `BatchRun.Globals` for the module globals `job_ids` and `instance`;
- `Globus.GlobusClient` and `Globus.Transfer`;
- `Transfers.EmopTransfer`;
- `Slurm.Scheduler`.

Further properties are proved as lemmas about those functions, for example:

- every page unit is recorded exactly once;
- the pipeline stops at its first failing stage;
- the signal handler fails every unfinished id;
- the endpoint check is true only when neither endpoint needed its
  activation URL;
- `submit` issues its calls in a fixed order, with bounds on how many.

One case follows the code rather than its evident intent: `submit` without
`--schedule` and without explicit sizes reads `current_job_count`, which only
the scheduled branch binds. The model therefore ends that path in
`Crash("UnboundLocalError")`.

## Model

| member | source | states |
|---|---|---|
| Globus.ApiCall | emop/lib/transfer/globus.py:336-354 | an exception or falsy data gives `{}`; any other data comes back unchanged, and a document answer is a dictionary |
| Globus.LoggedAsFailure | emop/lib/transfer/globus.py:349-353 | a call is logged as failed exactly when it raised or its code is not an OK status code |
| Globus.ApiCallIgnoresStatus | emop/lib/transfer/globus.py:336-354 | the returned data does not depend on the status code; only the logging does |
| Globus.ParseGoauthToken | emop/lib/transfer/globus.py:314-318 | the loop over the `\|`-separated segments computes the fold `ParseSegments` of the split token |
| Globus.ParseRaisesIff | emop/lib/transfer/globus.py:315-317 | parsing raises (IndexError on `v[1]`) if and only if some segment has no `=` |
| Globus.ParseRaisesStays | emop/lib/transfer/globus.py:315-317 | once a prefix of the segments raises, the whole token raises with the same error |
| Globus.ParseOkSegments | emop/lib/transfer/globus.py:316-317 | a token that parses has at least two `=`-parts in every segment |
| Globus.ParseKeys | emop/lib/transfer/globus.py:314-318 | the parsed keys are exactly the texts before the first `=` of the segments |
| Globus.ParseLastWins | emop/lib/transfer/globus.py:315-317 | a key maps to the value of its last segment: later duplicates overwrite earlier ones |
| Globus.SegmentParts | emop/lib/transfer/globus.py:316-317 | a segment's value is the text between its first and second `=` |
| Globus.ParseTwoPairToken | emop/lib/transfer/globus.py:302-306 | `k1=v1\|k2=v2` with plain keys and values parses to `{k1: v1, k2: v2}` |
| Globus.ActivationSecondsCases | emop/lib/transfer/globus.py:90-105 | empty endpoint data gives 0; an activated endpoint gives `int(expires_in)`; an inactive one gives the autoactivate answer's `expires_in`; a missing `activated` key raises KeyError |
| Globus.GlobusClient.CheckActivated | emop/lib/transfer/globus.py:81-105 | one endpoint query, plus exactly one autoactivate call only when the endpoint answered and is not activated; the result is `ActivationResult` |
| Globus.ActivateUrlOf | emop/lib/transfer/globus.py:129-135 | the result is UNKNOWN if and only if the data is empty; otherwise it carries the answer's canonical name and id |
| Globus.GlobusClient.GetActivateUrl | emop/lib/transfer/globus.py:120-135 | one `canonical_name,id` endpoint query, and the URL of its answer |
| Globus.GlobusClient.CreateTransfer | emop/lib/transfer/globus.py:165-196 | one submission-id call; without a truthy id it returns null and leaves `transfer` alone, otherwise a fresh empty transfer with that id, endpoints, label and sync level becomes `transfer` |
| Globus.GlobusClient.SendTransfer | emop/lib/transfer/globus.py:198-209 | one transfer call carrying the transfer's document; the result is the answer's `task_id` |
| Globus.Transfer.AddItem | emop/emop_transfer.py:176-178 | appends one item with the given source and destination |
| Globus.GlobusClient.WaitForTask | emop/lib/transfer/globus.py:237-271 | polls only the task's status; returns the first SUCCEEDED or FAILED status seen, after sleeping once per earlier poll; otherwise returns None after `MaxPolls` polls (floor(timeout/interval)+1, or 0 when timeout < 0), sleeping only while time is left |
| Transfers.AddPrefix | tests/test_emop_transfer.py:30-37 | the local path is the prefix followed by the path, unchanged |
| Transfers.TransferFilesOfPage | tests/test_emop_transfer.py:177-208 | a page contributes its image path, then its ground-truth file, each only when not None |
| Transfers.PageFilesMembers | emop/emop_transfer.py:295-298 | a value is collected from a page if and only if it is not None and is the page's value of some transfer attribute |
| Transfers.CollectPageFiles | emop/emop_transfer.py:295-298 | the attribute loop computes `PageFiles` |
| Transfers.EmopTransfer.GetStageInFilesFromData | emop/emop_transfer.py:289-299 | the record loop computes `FilesOfData`, including the exceptions Python raises on records that are not dictionaries |
| Transfers.FilesOfAppend | emop/emop_transfer.py:291-298 | files follow record order: the files of `a + b` are those of `a` then those of `b` |
| Transfers.FilesOfSkipsPageless | emop/emop_transfer.py:292-294 | a record without a `page` contributes nothing |
| Transfers.FilesOfOkIff | emop/emop_transfer.py:291-298 | collecting succeeds if and only if every record's collection succeeds |
| Transfers.Iterated | emop/emop_transfer.py:291 | iterating a list gives its items; only lists, dictionaries and strings can be iterated |
| Transfers.EmopTransfer.GetStageInData | emop/emop_transfer.py:312-319 | the file loop computes `InPairs` |
| Transfers.InPairsSpec | emop/emop_transfer.py:312-319 | one pair per file, in order, with `src = f` and `dest = prefix + f`; it fails if and only if some file is not a string |
| Transfers.EmopTransfer.GetStageOutData | emop/emop_transfer.py:334-346 | the nested loops compute `StageOutData` |
| Transfers.CollectOutPairs | emop/emop_transfer.py:337-345 | the value loop of one result computes `OutPairsOfValues` |
| Transfers.OutPairsOfValuesSpec | emop/emop_transfer.py:336-345 | every pair has an absolute string value as `dest` and `prefix + dest` as `src`; every absolute string value gives a pair; with no absolute string value there are none |
| Transfers.StageOutWithoutResults | emop/emop_transfer.py:335 | output data without `page_results` gives no pairs |
| Transfers.StageOutMirrorsStageIn | emop/emop_transfer.py:301-346 | for one absolute path, the stage-out pair is the stage-in pair reversed |
| Transfers.StageOutSource | emop/emop_transfer.py:103-112 | prefers the completed output, then the output, then the uploaded output; none exists exactly when all three are missing |
| Transfers.EmopTransfer.Start | emop/emop_transfer.py:152-189 | always asks for a submission id first; empty data returns '' and makes no other call; otherwise one transfer carrying every pair in order, its task id returned, and at most `MaxPolls(wait, 10)` status polls, none when `wait` is 0 |
| Transfers.EmopTransfer.StageInFiles | emop/emop_transfer.py:20-39 | the stage-in pairs of the files, transferred from the remote to the cluster endpoint under the stage-in label |
| Transfers.EmopTransfer.StageInData | emop/emop_transfer.py:41-58 | no files returns '' without any Globus call; otherwise the files are staged in |
| Transfers.EmopTransfer.StageInProcIds | emop/emop_transfer.py:60-88 | one `start` with the concatenated pairs of the proc ids, in order |
| Transfers.EmopTransfer.ProcIdsPairsAppend | emop/emop_transfer.py:77-85 | the pairs of `a + b` are those of `a` followed by those of `b` |
| Transfers.EmopTransfer.ProcIdsPairsSkipsMissing | emop/emop_transfer.py:79-81 | a proc id without an input payload contributes nothing |
| Transfers.EmopTransfer.StageOutProcId | emop/emop_transfer.py:90-126 | no payload file, or empty loaded data, returns '' without any Globus call; otherwise the stage-out pairs go from the cluster to the remote endpoint, labelled `emop-stage-out-<proc_id>` |
| Transfers.ActivationAcceptable | emop/emop_transfer.py:257-271 | zero expiry is never acceptable; without fail-on-warn any non-zero expiry is; with it, the expiry must also reach the minimum activation time |
| Transfers.EmopTransfer.CheckActivation | emop/emop_transfer.py:244-271 | the requests of `check_activated` on the endpoint, and the acceptance of its result |
| Transfers.EmopTransfer.OneCheckShape | emop/emop_transfer.py:142-146 | each endpoint check starts with that endpoint's activation query, and an endpoint is accepted if and only if its activation URL was not requested |
| Transfers.EmopTransfer.EndpointsCheckVisitsAll | emop/emop_transfer.py:141-148 | unless a call raises, every endpoint is queried, even after an earlier one failed |
| Transfers.EmopTransfer.EndpointsCheckVerdict | emop/emop_transfer.py:140-150 | the check is true if and only if no endpoint's activation URL was requested |
| Transfers.EmopTransfer.PairCheckCases | emop/emop_transfer.py:140-150 | for the two endpoints, a raise in the first stops the check, and otherwise the verdict is the conjunction of both |
| Transfers.EmopTransfer.EndpointPairCheck | emop/emop_transfer.py:140-150 | the check of the two configured endpoints is the general check of the list `[cluster, remote]` |
| Transfers.EmopTransfer.CheckEndpoints | emop/emop_transfer.py:128-150 | the loop over `[cluster, remote]` makes exactly the requests of `PairCheck` and returns its verdict |
| Slurm.SubmitCmdHeader | emop/lib/schedulers/emop_slurm.py:55-68 | the command starts `sbatch --parsable -p Q -J N -o <logdir>/N-%j.out --mem-per-cpu M --cpus-per-task C`, each value defaulting to settings when its argument is None |
| Slurm.SubmitCmdTail | emop/lib/schedulers/emop_slurm.py:69-85 | `--time <walltime/60>` only for non-zero pages with walltime enabled; extra arguments only when non-empty; for `job` a dependency flag only for a truthy dependency and `emop.slrm` last; for `transfer` `emop-transfer.slrm` last; no script otherwise |
| Slurm.Scheduler.GetSubmitCmd | emop/lib/schedulers/emop_slurm.py:44-85 | the successive appends build `SubmitCmd` |
| Slurm.SplitLinesCount | emop/lib/schedulers/emop_slurm.py:40-41 | `splitlines` gives one line per terminator, plus one for an unterminated last line |
| Slurm.Scheduler.CurrentJobCount | emop/lib/schedulers/emop_slurm.py:27-42 | runs the `squeue` command once; the count is the number of lines of its output |
| Slurm.Scheduler.SubmitJob | emop/lib/schedulers/emop_slurm.py:87-116 | an empty proc id returns False with no command and no environment change; otherwise it sets PROC_ID and EMOP_CONFIG_PATH, runs the job command once and succeeds exactly on exit code 0 |
| Slurm.Scheduler.SubmitTransferJob | emop/lib/schedulers/emop_slurm.py:118-147 | an empty task id gives no job id, no command and no environment change; otherwise it sets TASK_ID and EMOP_CONFIG_PATH, runs the transfer command once, and returns the stripped output on exit code 0 |
| Slurm.TransferCmdShape | emop/lib/schedulers/emop_slurm.py:139-140 | the transfer command uses the transfer queue, name `emop-transfer`, 2000 MB, one CPU and `emop-transfer.slrm`, with no time or dependency flag |
| LogMarkers.MarkerFromNone | emop/emop_query.py:188 | when the search finds nothing, no position of the line starts a match |
| LogMarkers.MarkerFromSome | emop/emop_query.py:188 | a found duration belongs to the leftmost match start, with the bracket group as long as possible |
| LogMarkers.TotalFromSpec | emop/emop_query.py:189 | the total marker is found if and only if `TOTAL TIME: ` followed by digits and dots ends the line, and the first such position is taken |
| LogMarkers.DecimalOfNat | emop/emop_query.py:193 | a whole number, written as `str` prints it, parses back to itself |
| Query.JobStatusId | emop/emop_query.py:165-174 | a failed request gives None; otherwise the `id` of the first result, raising as Python does on a malformed answer |
| Query.QueueParams | emop/emop_query.py:41-45 | `job_status_id` is `str(id)`; every other key is the filter's, when the filter is a non-empty dictionary, and absent otherwise |
| Query.NonDictFilterIgnored | emop/emop_query.py:41-45 | a filter that is not a dictionary contributes nothing |
| Query.PendingPagesCount | emop/emop_query.py:27-51 | it raises exactly when the status lookup raises, or when the count answer is truthy but is not a dictionary or its `job_queue` is not one (AttributeError); it is None exactly when no truthy status id is found, the count answer is falsy, or the answer's `count` is missing or None |
| Query.PendingPagesCountCases | emop/emop_query.py:38-51 | no status id or a failed count request gives None; a truthy answer not a dictionary, or with a `job_queue` not a dictionary, raises AttributeError; otherwise `job_queue.count` |
| Query.ProcessValuesShape | emop/emop_query.py:198-202 | one entry per process, holding a value exactly when that process's marker matches |
| Query.ProcessRuntimes | emop/emop_query.py:198-202 | the process loop adds each matching process's duration to that process's list |
| Query.ParseFileForRuntimes | emop/emop_query.py:176-203 | the line loop computes `FileRuntimes` |
| Query.FileRuntimesAppend | emop/emop_query.py:187-202 | lines contribute independently: the runtimes of `a + b` merge those of `a` and of `b` |
| Query.FileRuntimesCounts | emop/emop_query.py:187-202 | page durations count the page-marker lines; totals count the total-marker lines that have no page marker; a process counts the lines with neither marker where its own matches |
| Query.CollectRuntimes | emop/emop_query.py:122-127 | the file loop computes `AllRuntimes` |
| Query.AllRuntimesFlatten | emop/emop_query.py:122-127 | aggregating file by file is parsing all their lines as one file |
| Query.BuildReport | emop/emop_query.py:129-163 | the summary loop computes `Report` |
| Query.GetRuntimes | emop/emop_query.py:110-163 | the report of the aggregated runtimes |
| Query.GetRuntimesCounts | emop/emop_query.py:129-156 | page and job totals are the line counts; one entry per process in declared order, with the count of its matching lines, and average 0 when the count is 0 |
| Query.MergeTotals | emop/emop_query.py:133-150 | totals of merged runtimes are sums of the totals of the parts |
| BatchRun.ResultsValueFields | emop/emop_run.py:86-102 | the results hold `job_queues.completed`, `job_queues.failed`, `page_results` and `postproc_results`, exactly the four accumulators |
| BatchRun.AppendRecordsOnce | emop/emop_run.py:70-84 | a failure adds one `{id, "<sched.name> JOB <sched.job_id>: <results>"}` entry to failed only; a success adds the id to completed only; results with data are appended; the snapshot is saved with overwrite |
| BatchRun.EmopRun.AppendResult | emop/emop_run.py:59-84 | the new state is `Append` of the old |
| BatchRun.DoProcessCases | emop/emop_run.py:122-133 | a skipped stage changes nothing and passes; a non-zero exit records one `<Class> Failed: <stderr>` failure and fails; a zero exit passes |
| BatchRun.EmopRun.DoProcess | emop/emop_run.py:105-133 | the new state and result are those of `RunStage` |
| BatchRun.OcrCases | emop/emop_run.py:157-175 | an engine other than tesseract records one "OCR with X not yet supported" failure and runs nothing; tesseract follows the stage rules with prefix `tesseract OCR Failed: ` |
| BatchRun.EmopRun.DoOcr | emop/emop_run.py:136-175 | the new state and result are those of `OcrVerdict` |
| BatchRun.PipelineSpec | emop/emop_run.py:201-250 | stages run in order up to and including the first failing one, whose failure is recorded; with none failing all pass |
| BatchRun.SkewIgnoredWhenDisabled | emop/emop_run.py:207-212 | with multi-column skew disabled, five post-processes run and the skew outcome plays no part |
| BatchRun.EmopRun.DoPostprocesses | emop/emop_run.py:177-250 | the new state and result are those of the pipeline Denoise, MultiColumnSkew if enabled, XML_To_Text, PageEvaluator, PageCorrector, JuxtaCompare |
| BatchRun.JobVerdictCases | emop/emop_run.py:262-266 | a failed OCR is the unit's outcome and no post-process runs; otherwise the post-processes run up to the first failure |
| BatchRun.EmopRun.DoJob | emop/emop_run.py:253-266 | the new state and result are those of `JobVerdict` |
| BatchRun.UnitRecordedOnce | emop/emop_run.py:309-316 | after one "ocr" unit, either its id was appended to completed, or exactly one failure entry for it was appended to failed |
| BatchRun.EmopRun.DoUnit | emop/emop_run.py:310-316 | the new state is `UnitStep` of the old |
| BatchRun.UnitsRecordEachOnce | emop/emop_run.py:309-316 | over a sequence of units, completed and failed grow only by appending, and the ids they gain are the units' ids, each once |
| BatchRun.FirstNonOcr | emop/emop_run.py:311-321 | the index of the first unit whose job type is not "ocr" |
| BatchRun.Globals.AddIds | emop/emop_run.py:303-304 | `job_ids` gains the units' ids in payload order |
| BatchRun.EmopRun.ProcessUnits | emop/emop_run.py:309-325 | the unit loop with a possible signal ends in the state and result of `RunSpec` |
| BatchRun.EmopRun.Run | emop/emop_run.py:269-325 | empty data, or an existing output or completed output without force, returns False and changes nothing; otherwise the ids are registered, the instance is set and the run follows `RunSpec` |
| BatchRun.RunSpecSignalled | emop/emop_run.py:23-37 | a signal before unit i, or after the last unit when i is the number of units, times out the state after the first i units and exits 1 |
| BatchRun.RunSpecStopped | emop/emop_run.py:319-321 | the first non-"ocr" unit returns False without the completed-output save |
| BatchRun.RunRecordsEachUnit | emop/emop_run.py:309-325 | with only "ocr" units and no signal up to the completed save, the run returns True, records each unit exactly once, and ends with one completed-output save with overwrite = force |
| BatchRun.TimeoutCoversAll | emop/emop_run.py:30-34 | the signal adds a "time limit reached" failure for every registered id not completed, and for no other id |
| BatchRun.TimeoutRefailsFailedUnit | emop/emop_run.py:30-34 | a unit that already failed gets a second, time-limit failure entry |
| BatchRun.SignalCoversEveryId | emop/emop_run.py:23-37 | after a signal the run exits 1, and every registered id is completed or has a time-limit failure |
| BatchRun.SignalExit | emop/emop_run.py:23-37 | exits with 1, the instance's state is `Timeout` of its old state over `job_ids` |
| Submit.Submit | emop.py:57-119 | mismatched sizes exit 1 before any call; a pending count of 0 (or False) exits 0 and of another falsy value exits 1; the job limit exits 0 after counting; simulation exits 0 after planning; a failed endpoint check exits 1 before any reservation; otherwise the reservations and submissions of `Dispatch` follow, and the program ends as `DispatchEnd` says: in the stage-in's exception when it raises, otherwise with exit 0 |
| Submit.ReserveAll | emop.py:106-112 | the loop makes exactly `num_jobs` reservations and keeps the successful ids in order |
| Submit.SubmitAll | emop.py:117-118 | one job submission per proc id, in order |
| Submit.ReserveAndDispatch | emop.py:106-119 | the calls after the endpoint check are `Dispatch`; the end is the stage-in's exception when some page was reserved and the stage-in raises, otherwise exit 0 |
| Submit.Submissions | emop.py:114-118 | no proc ids, no calls; a stage-in that raises is the last call; otherwise one stage-in of all of them, one transfer job for its task id, then one job per proc id depending on the transfer job |
| Submit.ProcIdsSpec | emop.py:106-112 | at most `num_jobs` proc ids, none empty; all of them when every reservation succeeds, none when all fail |
| Submit.ProcIdsMembers | emop.py:106-112 | the proc ids are exactly the successful reservations |
| Submit.DispatchShape | emop.py:106-119 | `num_jobs` reservations first; without a successful one nothing follows and the exit is 0; otherwise the stage-in follows; if it raises, nothing follows it and the program ends in that exception; if not, the transfer job for its task id and one job per proc id follow, and the exit is 0 |
| Submit.SubmissionsBounded | emop.py:106-118 | at most `2n + 2` calls; exactly `n` when no reservation succeeds, `n + 1` when some does and the stage-in raises, `2n + 2` when all do and the stage-in returns |

## Left out

- Reading the configuration file is not modelled; the settings are an immutable record.
- The OCR and post-process programs are left out. Each stage is the `(should_run, exitcode, stderr)` outcome it reports. `emop/lib/processes/tesseract.py` is not part of this model.
- Payload files are left out. `EmopPayload`'s existence checks, loads and saves are flags, values, and entries in a save trace.
- `BatchRun.EmopRun.Run`: every payload unit is a record with an `id`. A unit without one raises KeyError at emop/emop_run.py:304, and a unit that is not a dictionary raises TypeError there, before any unit is processed; neither is modelled.
- `Globus.GlobusClient`: the library's answers are assumed to be dictionaries or falsy (`DocumentAnswers`, a precondition of the constructor). The TypeError or AttributeError Python raises on any other truthy answer, such as `endpoint_data["activated"]` on a list or `data.get("task_id")` on a string, is not modelled.
- `Transfers.AddPrefix`: `EmopBase.add_prefix` is defined in `emop/lib/emop_base.py`, outside the modelled files. The model takes it to be plain concatenation, as the transfer tests use it, so `InPairs` reads a file that is not a string as a TypeError.
- `EmopJob` is defined in `emop/lib/emop_job.py`, outside the modelled files, and so are the `has_data` and `to_dict` methods of the page and post-processing results it carries. The model takes a unit to carry its job type, engine, stage outcomes, and the result values present when it is recorded.
- The Globus library, the auth-file reading, `encode_qs`, `endpoint_ls`, `task_list` and `display_task` are foreign calls or I/O. API answers are an oracle indexed by call number, so the activation URL's text is not built.
- Logging is left out, except where the log decides nothing but is stated as `LoggedAsFailure`.
- `time.sleep` is a sleep counter. `sys.exit` is a returned exit code.
- Signal registration is left out. The signal is a parameter of `Run` naming the unit it arrives before, and the handler runs at that point; the number of units names the point after the last unit, before the completed output is saved.
- `BatchRun.EmopRun.Run`: a signal that arrives while a unit is being processed, during the completed-output save, or after that save is not modelled. In Python the handler would then run inside the unit or the save, or after `run` has finished its work.
- `EmopSubmit.optimize_submit` and `EmopSubmit.reserve` are defined in `emop/emop_submit.py`, and `EmopScheduler.walltime` in `emop/lib/emop_scheduler.py`, outside the modelled files. The model takes their results to be oracle answers.
- In `submit`, the stage-in's task id and the transfer job id are answers, not calls into the Transfers and SLURM models, which state those operations on their own.
- Proc ids and task ids are strings, with "" as the falsy value.
- A JSON object is a field list, and `Get` reads the first field with a key. An object with a duplicate key, which `json.loads` would reduce to its last occurrence, is not excluded by the types; on objects with distinct keys `Get` agrees with the last-wins dictionary (`GetAgreesWithToMap`).
- `Query.GetRuntimes`: durations are exact reals. Decimal's 28-digit context and `round(..., 3)` are not modelled.
- `glob` order of the log files is left out. The files are given in some order, and the counts and totals do not depend on it.
- `Query.PyStr`: `str()` of a job status id that is a list or a dictionary is "" in the model; strings, integers, booleans and None print as Python prints them. Under Python 2, `str()` of a unicode status id with a non-ASCII character raises UnicodeEncodeError; the model returns the text.
- The walltime estimate is an integer number of seconds, so `int(seconds / 60)` is Python 2's floor division, which is Dafny's `/` for a positive divisor.
- Python 2 dictionary key order is fixed in the model: `get_results()` gives the order `job_queues`, `page_results`, `postproc_results`, and a failure entry gives `id`, `results`. For `.values()` on page results, the order is the document's key order.
- `Submit.Submit`: the no-schedule optimise path raises UnboundLocalError in Python. The model records it as `Crash("UnboundLocalError")` and states nothing about the optimiser there.
- The other `emop.py` subcommands and argparse are thin dispatch. An absent `--num-jobs` or `--pages-per-job` is 0.
- The `run_timing` decorator and all printing are left out.
- The `splitlines` separators are `\n`, `\r` and `\r\n` only, as a Python 2 byte string has.
