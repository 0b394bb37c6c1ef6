/** The executor of `app.py`: runs the model's code once, Python through a
    temporary file with an interpreter fallback, Bash through the shell. The
    operating system is an oracle: each subprocess run and the file write are
    given as outcomes, and the working directory is the set of file names in
    a `Workspace`. */
module Executor {
  import opened Wrappers

  /** The parsed model reply that the executor reads: `language`, `code`. */
  datatype Request = Request(language: string, code: string)

  datatype Status = Success | Error

  /** One executor result. An error result has no `output` key. */
  datatype ExecResult = ExecResult(status: Status, error: string, output: Option<string>, code: string)

  /** Success results and only they carry `output`. */
  predicate WellFormed(r: ExecResult)
  {
    r.status == Success <==> r.output.Some?
  }

  /** How one `subprocess.run(..., check=True)` ends. */
  datatype ProcOutcome =
    | Succeeded(stdout: string, stderr: string)
      /** non-zero exit status: a `CalledProcessError`, `message` is its `str()` */
    | ExitedNonZero(stdout: string, stderr: string, message: string)
      /** any other exception, such as a missing interpreter binary */
    | Raised(message: string)

  /** How `with open(temp_file, "w") as f: f.write(code)` ends. */
  datatype WriteOutcome =
    | Written
      /** `open` raises: no file is created */
    | OpenFailed(message: string)
      /** `open` created the file, then writing or closing it raised */
    | WriteFailed(message: string)

  /** What the environment does during one executor call: the hex uuid it
      draws, how writing the temporary file ends, and how the `uv`, `python3`
      and shell runs would end. */
  datatype RunOracle = RunOracle(
    tempId: string,
    write: WriteOutcome,
    uvRun: ProcOutcome,
    python3Run: ProcOutcome,
    shellRun: ProcOutcome)

  function TempFile(run: RunOracle): (name: string)
    ensures |name| == |run.tempId| + 3 && name[..|run.tempId|] == run.tempId && name[|run.tempId|..] == ".py"
  {
    run.tempId + ".py"
  }

  /** A result together with the working directory after it. */
  datatype Step = Step(result: ExecResult, files: set<string>)

  /** `execute_python_code_via_python3`: run the file with `python3` and
      remove it only if that run succeeds. */
  function RanViaPython3(files: set<string>, tempFile: string, code: string, outcome: ProcOutcome): (s: Step)
    ensures WellFormed(s.result) && s.result.code == code
    ensures s.result.status == Success <==> outcome.Succeeded?
    ensures outcome.Succeeded? ==>
      s.files == files - {tempFile} && s.result.output == Some(outcome.stdout) && s.result.error == outcome.stderr
    ensures !outcome.Succeeded? ==> s.files == files && s.result.error == outcome.message
  {
    match outcome
    case Succeeded(out, err) => Step(ExecResult(Success, err, Some(out), code), files - {tempFile})
    case ExitedNonZero(_, _, msg) => Step(ExecResult(Error, msg, None, code), files)
    case Raised(msg) => Step(ExecResult(Error, msg, None, code), files)
  }

  /** `execute_code`: what one call returns and leaves in the working
      directory. */
  function Executed(files: set<string>, req: Request, run: RunOracle): (s: Step)
    ensures WellFormed(s.result) && s.result.code == req.code
    // the executor creates and removes no file for Bash
    ensures req.language != "python" ==> s.files == files
    ensures req.language != "python" ==> (s.result.status == Success <==> run.shellRun.Succeeded?)
    ensures req.language != "python" && run.shellRun.Succeeded? ==>
      s.result.output == Some(run.shellRun.stdout) && s.result.error == run.shellRun.stderr
    ensures req.language != "python" && run.shellRun.ExitedNonZero? ==>
      s.result.error == "Execution failed: " + run.shellRun.stderr
    ensures req.language != "python" && run.shellRun.Raised? ==> s.result.error == run.shellRun.message
    // for Python the executor creates or removes only its one temporary file
    ensures req.language == "python" ==>
      s.files - files <= {TempFile(run)} && files - s.files <= {TempFile(run)}
    ensures req.language == "python" ==>
      (s.result.status == Success <==>
        run.write.Written? &&
        (run.uvRun.Succeeded? || (run.uvRun.ExitedNonZero? && run.python3Run.Succeeded?)))
    ensures req.language == "python" && s.result.status == Success ==> s.files == files - {TempFile(run)}
    ensures req.language == "python" && run.write.OpenFailed? ==> s.files == files
    ensures req.language == "python" && s.result.status == Error && !run.write.OpenFailed? ==>
      s.files == files + {TempFile(run)}
    // what a Python result carries, path by path
    ensures req.language == "python" && !run.write.Written? ==> s.result.error == run.write.message
    ensures req.language == "python" && run.write.Written? && run.uvRun.Succeeded? ==>
      s.result.output == Some(run.uvRun.stdout) && s.result.error == run.uvRun.stderr
    ensures req.language == "python" && run.write.Written? && run.uvRun.Raised? ==>
      s.result.error == run.uvRun.message
    ensures req.language == "python" && run.write.Written? && run.uvRun.ExitedNonZero? && run.python3Run.Succeeded? ==>
      s.result.output == Some(run.python3Run.stdout) && s.result.error == run.python3Run.stderr
    ensures req.language == "python" && run.write.Written? && run.uvRun.ExitedNonZero? && !run.python3Run.Succeeded? ==>
      s.result.error == run.python3Run.message
  {
    if req.language == "python" then
      var tempFile := TempFile(run);
      match run.write
      case OpenFailed(msg) => Step(ExecResult(Error, msg, None, req.code), files)
      case WriteFailed(msg) => Step(ExecResult(Error, msg, None, req.code), files + {tempFile})
      case Written =>
        var written := files + {tempFile};
        match run.uvRun
        case Succeeded(out, err) => Step(ExecResult(Success, err, Some(out), req.code), written - {tempFile})
        case ExitedNonZero(_, _, _) => RanViaPython3(written, tempFile, req.code, run.python3Run)
        case Raised(msg) => Step(ExecResult(Error, msg, None, req.code), written)
    else
      match run.shellRun
      case Succeeded(out, err) => Step(ExecResult(Success, err, Some(out), req.code), files)
      case ExitedNonZero(_, err, _) => Step(ExecResult(Error, "Execution failed: " + err, None, req.code), files)
      case Raised(msg) => Step(ExecResult(Error, msg, None, req.code), files)
  }

  /** With a temporary name not already present, a successful Python run
      leaves the working directory as it was, and a failed one leaves exactly
      the one `.py` file behind (unless `open` itself failed). */
  lemma FreshTempFile(files: set<string>, req: Request, run: RunOracle)
    requires req.language == "python" && TempFile(run) !in files
    ensures Executed(files, req, run).result.status == Success ==> Executed(files, req, run).files == files
    ensures Executed(files, req, run).result.status == Error && !run.write.OpenFailed? ==>
      Executed(files, req, run).files - files == {TempFile(run)}
  {
  }

  /** The working directory: the set of file names present. */
  class Workspace {
    var files: set<string>

    constructor (existing: set<string>)
      ensures files == existing
    {
      files := existing;
    }

    /** `execute_code`. */
    method ExecuteCode(req: Request, run: RunOracle) returns (r: ExecResult)
      modifies this
      ensures r == Executed(old(files), req, run).result
      ensures files == Executed(old(files), req, run).files
    {
      if req.language == "python" {
        var tempFile := TempFile(run);
        if run.write.OpenFailed? {
          r := ExecResult(Error, run.write.message, None, req.code);
          return;
        }
        files := files + {tempFile};
        if run.write.WriteFailed? {
          r := ExecResult(Error, run.write.message, None, req.code);
          return;
        }
        match run.uvRun {
          case Succeeded(out, err) =>
            files := files - {tempFile};
            r := ExecResult(Success, err, Some(out), req.code);
          case ExitedNonZero(_, _, _) =>
            r := ExecuteViaPython3(tempFile, req.code, run.python3Run);
          case Raised(msg) =>
            r := ExecResult(Error, msg, None, req.code);
        }
      } else {
        match run.shellRun {
          case Succeeded(out, err) =>
            r := ExecResult(Success, err, Some(out), req.code);
          case ExitedNonZero(_, err, _) =>
            r := ExecResult(Error, "Execution failed: " + err, None, req.code);
          case Raised(msg) =>
            r := ExecResult(Error, msg, None, req.code);
        }
      }
    }

    /** `execute_python_code_via_python3`. */
    method ExecuteViaPython3(tempFile: string, code: string, outcome: ProcOutcome) returns (r: ExecResult)
      modifies this
      ensures r == RanViaPython3(old(files), tempFile, code, outcome).result
      ensures files == RanViaPython3(old(files), tempFile, code, outcome).files
    {
      match outcome {
        case Succeeded(out, err) =>
          files := files - {tempFile};
          r := ExecResult(Success, err, Some(out), code);
        case ExitedNonZero(_, _, msg) =>
          r := ExecResult(Error, msg, None, code);
        case Raised(msg) =>
          r := ExecResult(Error, msg, None, code);
      }
    }
  }
}
