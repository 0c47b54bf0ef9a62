/** The SLURM scheduler: building `sbatch` command lines, counting the
    controller's queued jobs and submitting the OCR and transfer jobs. The
    commands themselves are not run: each execution reads the next result of
    a fixed sequence of command results. */
module Slurm {
  import opened Common
  import opened Settings

  /** The scheduler's name, used in failure messages of a batch run. */
  const Name := "SLURM"

  /** What an executed command gave back. */
  datatype CmdResult = CmdResult(exitcode: int, stdout: string, stderr: string)

  /** `value if value is not None else default`. */
  function OrDefault(value: Option<string>, default: string): string
  {
    match value
    case Some(v) => v
    case None => default
  }

  /** The `-o` log file of a job called `name`: `<logdir>/<name>-%j.out`. */
  function LogFile(settings: Settings, name: string): string
  {
    PathJoin(settings.schedulerLogdir, name + "-%j.out")
  }

  /** Python 2's `int(seconds / 60)` for an integer number of seconds: the
      division floors, and `int` keeps the result. */
  function WalltimeMinutes(seconds: int): int
  {
    seconds / 60
  }

  /** The sbatch command `get_submit_cmd` builds, part by part. `walltime`
      is the scheduler's estimate of seconds for a number of pages. */
  function SubmitCmd(settings: Settings, walltime: int -> int, numPages: int,
                     queue: Option<string>, name: Option<string>,
                     memPerCpu: Option<string>, cpusPerTask: Option<string>,
                     dependency: Option<string>, jobType: string): seq<string>
  {
    Header(settings, queue, name, memPerCpu, cpusPerTask)
    + TimeArgs(settings, walltime, numPages)
    + ExtraArgs(settings)
    + ScriptArgs(dependency, jobType)
  }

  /** The fixed flags, each value defaulting to the configured one. */
  function Header(settings: Settings, queue: Option<string>, name: Option<string>,
                  memPerCpu: Option<string>, cpusPerTask: Option<string>): seq<string>
  {
    var jobName := OrDefault(name, settings.schedulerJobName);
    ["sbatch", "--parsable",
     "-p", OrDefault(queue, settings.schedulerQueue),
     "-J", jobName,
     "-o", LogFile(settings, jobName),
     "--mem-per-cpu", OrDefault(memPerCpu, settings.schedulerMemPerCpu),
     "--cpus-per-task", OrDefault(cpusPerTask, settings.schedulerCpusPerTask)]
  }

  function TimeArgs(settings: Settings, walltime: int -> int, numPages: int): seq<string>
  {
    if Timed(settings, numPages) then ["--time", IntToString(WalltimeMinutes(walltime(numPages)))] else []
  }

  function ExtraArgs(settings: Settings): seq<string>
  {
    if settings.schedulerExtraArgs != "" then [settings.schedulerExtraArgs] else []
  }

  /** The dependency, for a job only, and the batch script of the job type. */
  function ScriptArgs(dependency: Option<string>, jobType: string): seq<string>
  {
    if jobType == "job" then
      (if dependency.Some? && dependency.value != ""
       then ["--dependency=afterany:" + dependency.value] else [])
      + ["emop.slrm"]
    else if jobType == "transfer" then ["emop-transfer.slrm"]
    else []
  }

  /** Whether `--time` is added: a non-zero page count with walltimes enabled. */
  predicate Timed(settings: Settings, numPages: int)
  {
    numPages != 0 && settings.schedulerSetWalltime
  }

  /** The twelve leading words hold the fixed flags and, for each argument
      left as None, the configured default. */
  lemma SubmitCmdHeader(settings: Settings, walltime: int -> int, numPages: int,
                        queue: Option<string>, name: Option<string>,
                        memPerCpu: Option<string>, cpusPerTask: Option<string>,
                        dependency: Option<string>, jobType: string)
    ensures var cmd := SubmitCmd(settings, walltime, numPages, queue, name, memPerCpu, cpusPerTask, dependency, jobType);
      && |cmd| >= 12
      && cmd[0] == "sbatch" && cmd[1] == "--parsable"
      && cmd[2] == "-p" && (queue.None? ==> cmd[3] == settings.schedulerQueue)
      && (queue.Some? ==> cmd[3] == queue.value)
      && cmd[4] == "-J" && (name.None? ==> cmd[5] == settings.schedulerJobName)
      && (name.Some? ==> cmd[5] == name.value)
      && cmd[6] == "-o" && cmd[7] == PathJoin(settings.schedulerLogdir, cmd[5] + "-%j.out")
      && cmd[8] == "--mem-per-cpu" && (memPerCpu.None? ==> cmd[9] == settings.schedulerMemPerCpu)
      && (memPerCpu.Some? ==> cmd[9] == memPerCpu.value)
      && cmd[10] == "--cpus-per-task" && (cpusPerTask.None? ==> cmd[11] == settings.schedulerCpusPerTask)
      && (cpusPerTask.Some? ==> cmd[11] == cpusPerTask.value)
  {
  }

  /** `--time <minutes>` follows the header exactly when the page count is
      non-zero and walltimes are enabled; the extra arguments come next when
      they are non-empty; then the dependency and the script chosen by the
      job type. The length of the command counts each optional part. */
  lemma SubmitCmdTail(settings: Settings, walltime: int -> int, numPages: int,
                      queue: Option<string>, name: Option<string>,
                      memPerCpu: Option<string>, cpusPerTask: Option<string>,
                      dependency: Option<string>, jobType: string)
    ensures var cmd := SubmitCmd(settings, walltime, numPages, queue, name, memPerCpu, cpusPerTask, dependency, jobType);
      var t := if Timed(settings, numPages) then 2 else 0;
      var x := if settings.schedulerExtraArgs != "" then 1 else 0;
      var d := if jobType == "job" && dependency.Some? && dependency.value != "" then 1 else 0;
      var s := if jobType == "job" || jobType == "transfer" then 1 else 0;
      && |cmd| == 12 + t + x + d + s
      && (Timed(settings, numPages) ==>
            cmd[12] == "--time" && cmd[13] == IntToString(walltime(numPages) / 60))
      && (x == 1 ==> cmd[12 + t] == settings.schedulerExtraArgs)
      && (d == 1 ==> cmd[12 + t + x] == "--dependency=afterany:" + dependency.value)
      && (jobType == "job" ==> cmd[|cmd| - 1] == "emop.slrm")
      && (jobType == "transfer" ==> cmd[|cmd| - 1] == "emop-transfer.slrm")
  {
  }

  /** Python 2's `str.splitlines()`: `\n`, `\r` and `\r\n` end a line. */
  predicate IsLineBreak(c: char)
  {
    c == '\n' || c == '\r'
  }

  /** The length of the first line of `s`, its terminator excluded. */
  function LineLength(s: string): (n: nat)
    ensures n <= |s|
    ensures forall k :: 0 <= k < n ==> !IsLineBreak(s[k])
    ensures n < |s| ==> IsLineBreak(s[n])
  {
    if s == [] || IsLineBreak(s[0]) then 0 else 1 + LineLength(s[1..])
  }

  /** What follows the first line and its terminator. */
  function AfterLine(s: string): (rest: string)
    ensures |rest| < |s| || s == []
  {
    var n := LineLength(s);
    if n == |s| then []
    else if s[n] == '\r' && n + 1 < |s| && s[n + 1] == '\n' then s[n + 2..]
    else s[n + 1..]
  }

  /** `s.splitlines()`. */
  function SplitLines(s: string): (lines: seq<string>)
    ensures forall i, k :: 0 <= i < |lines| && 0 <= k < |lines[i]| ==> !IsLineBreak(lines[i][k])
    decreases |s|
  {
    if s == [] then [] else [s[..LineLength(s)]] + SplitLines(AfterLine(s))
  }

  /** The number of line terminators in `s`, a `\r\n` pair counting once. */
  function Terminators(s: string): nat
    decreases |s|
  {
    if s == [] then 0
    else if s[0] == '\r' && |s| > 1 && s[1] == '\n' then 1 + Terminators(s[2..])
    else if IsLineBreak(s[0]) then 1 + Terminators(s[1..])
    else Terminators(s[1..])
  }

  lemma {:induction false} TerminatorsSkipLine(s: string, n: nat)
    requires n <= |s|
    requires forall k :: 0 <= k < n ==> !IsLineBreak(s[k])
    ensures Terminators(s) == Terminators(s[n..])
    decreases n
  {
    if n > 0 {
      assert s[1..][n - 1..] == s[n..];
      TerminatorsSkipLine(s[1..], n - 1);
    }
  }

  /** The number of lines `splitlines` finds is the number of terminators,
      plus one for a last line that has none. */
  lemma {:induction false} SplitLinesCount(s: string)
    ensures |SplitLines(s)| == Terminators(s) + (if s != [] && !IsLineBreak(s[|s| - 1]) then 1 else 0)
    decreases |s|
  {
    if s != [] {
      var n := LineLength(s);
      var rest := AfterLine(s);
      SplitLinesCount(rest);
      TerminatorsSkipLine(s, n);
      if n < |s| {
        var t := s[n..];
        if s[n] == '\r' && n + 1 < |s| && s[n + 1] == '\n' {
          assert t[2..] == rest;
        } else {
          assert t[1..] == rest;
        }
        assert rest != [] ==> rest[|rest| - 1] == s[|s| - 1];
      } else {
        assert Terminators(s[n..]) == 0;
      }
    }
  }

  /** The scheduler with the process environment the submitted jobs inherit
      and the commands it has executed. */
  class Scheduler {
    const settings: Settings
    /** The scheduler's estimate of the seconds a job of that many pages needs. */
    const walltime: int -> int
    /** The result of the n-th command executed. */
    const results: nat -> CmdResult
    var env: map<string, string>
    var executed: seq<seq<string>>

    constructor (settings: Settings, walltime: int -> int, results: nat -> CmdResult, env: map<string, string>)
      ensures this.settings == settings && this.walltime == walltime && this.results == results
      ensures this.env == env && this.executed == []
    {
      this.settings := settings;
      this.walltime := walltime;
      this.results := results;
      this.env := env;
      this.executed := [];
    }

    /** Runs a command: records it and answers with the next result. */
    method Exec(cmd: seq<string>) returns (r: CmdResult)
      modifies this`executed
      ensures executed == old(executed) + [cmd]
      ensures r == results(|old(executed)|)
    {
      r := results(|executed|);
      executed := executed + [cmd];
    }

    /** The command `get_submit_cmd` returns, built by successive appends. */
    method GetSubmitCmd(numPages: int, queue: Option<string>, name: Option<string>,
                        memPerCpu: Option<string>, cpusPerTask: Option<string>,
                        dependency: Option<string>, jobType: string) returns (cmd: seq<string>)
      ensures cmd == SubmitCmd(settings, walltime, numPages, queue, name, memPerCpu, cpusPerTask, dependency, jobType)
    {
      var q := if queue.None? then settings.schedulerQueue else queue.value;
      var n := if name.None? then settings.schedulerJobName else name.value;
      var logfile := PathJoin(settings.schedulerLogdir, n + "-%j.out");
      var mem := if memPerCpu.None? then settings.schedulerMemPerCpu else memPerCpu.value;
      var cpus := if cpusPerTask.None? then settings.schedulerCpusPerTask else cpusPerTask.value;
      cmd := ["sbatch", "--parsable", "-p", q, "-J", n, "-o", logfile,
              "--mem-per-cpu", mem, "--cpus-per-task", cpus];
      assert cmd == Header(settings, queue, name, memPerCpu, cpusPerTask);
      ghost var header := cmd;
      if numPages != 0 && settings.schedulerSetWalltime {
        var seconds := walltime(numPages);
        var minutes := WalltimeMinutes(seconds);
        cmd := cmd + ["--time"];
        cmd := cmd + [IntToString(minutes)];
      }
      assert cmd == header + TimeArgs(settings, walltime, numPages);
      ghost var timed := cmd;
      var extraArgs := settings.schedulerExtraArgs;
      if extraArgs != "" {
        cmd := cmd + [extraArgs];
      }
      assert cmd == timed + ExtraArgs(settings);
      ghost var extra := cmd;
      if jobType == "job" {
        if dependency.Some? && dependency.value != "" {
          cmd := cmd + ["--dependency=afterany:" + dependency.value];
        }
        cmd := cmd + ["emop.slrm"];
      } else if jobType == "transfer" {
        cmd := cmd + ["emop-transfer.slrm"];
      }
      assert cmd == extra + ScriptArgs(dependency, jobType);
    }

    /** The squeue command listing this controller's running and pending jobs. */
    function QueueCmd(): seq<string>
      reads this
    {
      ["squeue", "-r", "--noheader", "-p", settings.schedulerQueue, "-n", settings.schedulerJobName]
    }

    /** `current_job_count`: the number of lines squeue prints. */
    method CurrentJobCount() returns (count: nat)
      modifies this`executed
      ensures executed == old(executed) + [QueueCmd()]
      ensures count == |SplitLines(results(|old(executed)|).stdout)|
    {
      var proc := Exec(QueueCmd());
      var lines := SplitLines(proc.stdout);
      count := |lines|;
    }

    /** `submit_job`: a falsy proc id fails before anything happens; otherwise
        PROC_ID and EMOP_CONFIG_PATH are exported, the job command is run,
        and the job is submitted exactly when sbatch exits with 0. */
    method SubmitJob(procId: string, numPages: int, dependency: Option<string>) returns (ok: bool)
      modifies this
      ensures procId == "" ==> !ok && env == old(env) && executed == old(executed)
      ensures procId != "" ==>
        && env == old(env)["PROC_ID" := procId]["EMOP_CONFIG_PATH" := settings.configPath]
        && executed == old(executed) + [SubmitCmd(settings, walltime, numPages, None, None, None, None, dependency, "job")]
        && ok == (results(|old(executed)|).exitcode == 0)
    {
      if procId == "" {
        return false;
      }
      env := env["PROC_ID" := procId];
      env := env["EMOP_CONFIG_PATH" := settings.configPath];
      var cmd := GetSubmitCmd(numPages, None, None, None, None, dependency, "job");
      var proc := Exec(cmd);
      if proc.exitcode != 0 {
        return false;
      }
      var slurmJobId := RStrip(proc.stdout);
      return true;
    }

    /** `submit_transfer_job`: None (Python's False) for a falsy task id, in
        which case nothing happens, or for a failed sbatch; otherwise the job
        id sbatch printed, trailing whitespace removed. */
    method SubmitTransferJob(taskId: string) returns (jobId: Option<string>)
      modifies this
      ensures taskId == "" ==> jobId == None && env == old(env) && executed == old(executed)
      ensures taskId != "" ==>
        && env == old(env)["TASK_ID" := taskId]["EMOP_CONFIG_PATH" := settings.configPath]
        && executed == old(executed) + [TransferCmd(settings, walltime)]
        && var proc := results(|old(executed)|);
           jobId == if proc.exitcode != 0 then None else Some(RStrip(proc.stdout))
    {
      if taskId == "" {
        return None;
      }
      env := env["TASK_ID" := taskId];
      env := env["EMOP_CONFIG_PATH" := settings.configPath];
      var queue := settings.schedulerTransferQueue;
      var cmd := GetSubmitCmd(0, Some(queue), Some("emop-transfer"), Some("2000"), Some("1"), None, "transfer");
      var proc := Exec(cmd);
      if proc.exitcode != 0 {
        return None;
      }
      return Some(RStrip(proc.stdout));
    }
  }

  /** The command of a transfer job: transfer queue, name `emop-transfer`,
      2000 MB per cpu, one cpu, no time limit and no dependency. */
  function TransferCmd(settings: Settings, walltime: int -> int): seq<string>
  {
    SubmitCmd(settings, walltime, 0, Some(settings.schedulerTransferQueue), Some("emop-transfer"),
              Some("2000"), Some("1"), None, "transfer")
  }

  /** The transfer command in full: it never carries `--time` or
      `--dependency`, and runs `emop-transfer.slrm`. */
  lemma TransferCmdShape(settings: Settings, walltime: int -> int)
    ensures TransferCmd(settings, walltime) ==
      ["sbatch", "--parsable", "-p", settings.schedulerTransferQueue, "-J", "emop-transfer",
       "-o", PathJoin(settings.schedulerLogdir, "emop-transfer-%j.out"),
       "--mem-per-cpu", "2000", "--cpus-per-task", "1"]
      + (if settings.schedulerExtraArgs != "" then [settings.schedulerExtraArgs] else [])
      + ["emop-transfer.slrm"]
  {
    assert "transfer" != "job" by { assert "transfer"[0] != "job"[0]; }
    assert "emop-transfer" + "-%j.out" == "emop-transfer-%j.out";
    assert TimeArgs(settings, walltime, 0) == [];
  }
}
