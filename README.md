# Code-generation task runner: a Dafny model of its `/run` and `/read` handlers

The service takes a plain-English task and asks a language model for Python or
Bash code that does it. It runs the code and judges the outcome with a lexical
heuristic. If the run looks like a failure, it asks the model once more, with
the failure text embedded in a retry prompt, and runs the new code. The second
result is final. A sibling `/read` handler serves a file whose path mentions
"data".

The model has four modules:

- `Strings` (`strings.dfy`): ASCII lower-casing and Python's substring test
  `t in s`. `ContainsIff` proves the recursive test equal to "there is a
  position where `t` occurs".
- `Executor` (`executor.dfy`): `execute_code` and
  `execute_python_code_via_python3`. They are methods of a `Workspace` class
  whose `files` field is the set of file names in the working directory that
  the executor itself creates and removes. Each
  method is proved equal to a specification function (`Executed`,
  `RanViaPython3`), and the properties are proved about those functions.
- `Orchestrator` (`orchestrator.dfy`): the classifier (`Suspicious`, `Failed`),
  the refusal gate, the retry prompt, the pure `Pipeline` function, and the
  `RunTask` method. `RunTask` reassigns `result` the way the handler does and
  is proved equal to `Pipeline`.
- `ReadGuard` (`read_guard.dfy`): the `/read` handler as a function over a map
  from paths to file contents.

The outside world is given as oracle values:

- The model is an `LlmCall`: it either raises or answers with a `refusal` field
  and a `content` field. `Content` is what `json.loads` of that content yields:
  a `language`/`code` pair, or a parse failure with its message.
- Each executor call gets a `RunOracle`. It holds the uuid hex the call draws,
  how writing the temporary file ends, and how the `uv`, `python3` and shell
  runs would end. The write outcome tells three cases apart:
  - the write succeeds;
  - `open` raises, and no file is created;
  - `open` creates the file and then the write or the close raises, and the
    file stays behind.
- A run ending with a non-zero status carries the `str()` of the
  `CalledProcessError`. This is the text the `python3` fallback reports.

In these places the code does something easy to misread; the model follows
the code:

- The temporary file is removed only after a successful `uv` or `python3` run
  (`app.py:38`, `app.py:88`). It is not removed before the fallback. When both
  runs fail, or `uv` itself is missing, the file stays behind.
- A missing `uv` binary raises a generic exception, not a `CalledProcessError`.
  It goes to `app.py:67` with no `python3` fallback.
- When the `python3` fallback fails, the error text is `str(e)` of the
  exception. It is not the process's stderr.
- The heuristic is a plain substring test, not a whole-word test: "error" in
  the lower-cased output, "err" in the lower-cased stderr.
- The retry reply is never checked for a refusal. Its content goes straight to
  `json.loads` and then to the executor (`app.py:181-183`, `app.py:187-188`).
- `/read` raises its 404 and 403 inside the `try`. They are caught at
  `app.py:213` and come back as `{"error": "404: File not found"}` or
  `{"error": "403: Forbidden"}`. This message text is the `str()` form
  "status: detail" of the Starlette versions whose `HTTPException` defines
  `__str__`. No Starlette version is pinned in the files modelled.
- `/run` *returns* its `HTTPException`s rather than raising them. The model
  keeps them as the `Refused400` and `Failed500` variants of `Response`.

## Model

| member | source | states |
|---|---|---|
| `Strings.Lower` | app.py:167 | `str.lower()` on ASCII: same length; each character is lowered if it is `A`-`Z` and left as is otherwise |
| `Strings.Contains` | app.py:184 | Python's `t in s`, defined recursively: `s` starts with `t`, or its tail contains `t`. Its contract: a contained `t` is no longer than `s`, and the empty string is in every string |
| `Strings.ContainsIff` | app.py:184 | Python's `t in s` holds exactly when `t` occurs in `s` at some index (both directions) |
| `Strings.LowerKeepsOccurrence` | app.py:167 | an occurrence of `t` in `s` at index `i` is an occurrence of `t.lower()` in `s.lower()` at `i`, so a lower-cased test finds every case variant |
| `Executor.TempFile` | app.py:20-21 | the temporary file name is the uuid hex followed by `.py`: prefix, suffix and length |
| `Executor.RanViaPython3` | app.py:75-101 | the fallback succeeds exactly when `python3` exits 0; then it removes the file and returns stdout and stderr; otherwise the file stays and the error is the exception text; the code passes through unchanged |
| `Executor.Executed` | app.py:16-72 | the code passes through unchanged, and only success results carry output. The executor creates no file for Bash. A Bash success returns the shell's stdout and stderr, a non-zero Bash exit gives `"Execution failed: " + stderr`, and a Bash exception gives its message. For Python the executor creates or removes only its one `.py` file. Python succeeds exactly when the write succeeds and `uv` exits 0, or `uv` exits non-zero and `python3` exits 0. A Python success returns the stdout and stderr of the run that succeeded, and the file is gone. A failed `open` leaves the directory unchanged; any other failure leaves the file. The error text of a Python failure is the write's, `uv`'s or `python3`'s exception message, from whichever step failed |
| `Executor.FreshTempFile` | app.py:19-38 | with a fresh name, a successful Python run leaves the working directory as it was, and a failed run leaves exactly the one new `.py` file, unless `open` itself failed |
| `Executor.Workspace.ExecuteCode` | app.py:16-72 | the method returns `Executed`'s result and leaves `Executed`'s working directory |
| `Executor.Workspace.ExecuteViaPython3` | app.py:75-101 | the method returns `RanViaPython3`'s result and leaves its working directory |
| `Orchestrator.Suspicious` | app.py:184 | the heuristic branch's test on a success result: "error" in the lower-cased output or "err" in the lower-cased stderr. Its contract: a suspicious result has an output of at least 5 or a stderr of at least 3 characters, and empty streams are never suspicious |
| `Orchestrator.Failed` | app.py:190 | the final test: status "error", or `Suspicious`; the status test comes first, so the output of an error result is never read. Its contract: an error status always fails, and a failed success result has an output of at least 5 or a stderr of at least 3 characters |
| `Orchestrator.FailedOnAnyCase` | app.py:184-190 | a success result whose output holds any case variant of "error", or whose stderr holds any case variant of "err", is classified as failed |
| `Orchestrator.FailedHasWitness` | app.py:190 | a success result classified as failed has "error" at some index of its lower-cased output or "err" at some index of its lower-cased stderr |
| `Orchestrator.ErrorWordInOutputFails` | app.py:190 | status success with output "Error: none found" is a failure |
| `Orchestrator.CleanOutputSucceeds` | app.py:190 | status success with output "42" and empty stderr is a success |
| `Orchestrator.ErrOnlyCountsOnStderr` | app.py:184 | "stderr" as the output is not a failure; "stderr" as the stderr is one, because "err" is tested on stderr and "error" on the output |
| `Orchestrator.RefusalInCode` | app.py:167 | `"refusal" in code.lower()`. Its contract: code that trips it has at least 7 characters |
| `Orchestrator.Refuses` | app.py:162-167 | a first reply is refused when it answers and its `refusal` field is truthy (present and non-empty), or its parsed code trips `RefusalInCode`. Its contract: only an answered call refuses, and an empty refusal field with empty code does not |
| `Orchestrator.RefusalAnyCase` | app.py:167 | the word "refusal" in any letter case inside the code trips the gate |
| `Orchestrator.RetryPrompt` | app.py:141-148 | the f-string of `retry_with_error`: a fixed head, the failure text, a fixed middle ending in "ORIGINAL TASK:", the task, and a fixed tail, with the source's whitespace. Its contract: the prompt starts with the head, and its length is the two texts' lengths plus the three fixed parts |
| `Orchestrator.RetryPromptEmbeds` | app.py:141-148 | the retry prompt holds the failure text verbatim at a fixed offset, then the task verbatim after it; its length is the two texts' lengths plus the fixed parts, so nothing is cut |
| `Orchestrator.RetryPromptInjective` | app.py:141-148 | for one task, different failure texts give different retry prompts |
| `Orchestrator.Finish` | app.py:190-194 | the answer is the result itself exactly when it passes the classifier; otherwise it is a 500 whose detail is `"Task failed: " + error` |
| `Orchestrator.Retry` | app.py:180-188 | the retry sends `[task, RetryPrompt(task, signal)]`. It executes once exactly when the retry reply parses to code, whatever its refusal field says. The second result and the directory are those of `Executed` on that code and the retry oracle, and that result decides the answer. Otherwise the directory is unchanged and the answer is `Caught` with the raising call's or the failed parse's message |
| `Orchestrator.Pipeline` | app.py:153-197 | there are at most two executions, and the first prompt is the task. The answer is 400 exactly when the first reply refuses, with detail `"Task refused by LLM: "` plus the refusal field or the code. A 400 comes with no execution and an unchanged directory. A first reply that raises or does not parse gives `Caught` with its message. Nothing runs exactly when the first reply is refused, raises or does not parse; otherwise the first result is `Executed` on its code. A retry happens exactly when the first result failed, with the error text after an error status and the output after the heuristic. A second execution happens only after a failed first result. A clean first result is the answer `Ok(first)`, after exactly one execution and one prompt. The second result is `Executed` on the retry code in the directory the first run left. A retry reply that raises or does not parse gives `Caught` with its message. `Ok` carries the last result, which passes the classifier. A 500 comes only after two executions and carries the second error. The executor creates or removes only the two temporary files |
| `Orchestrator.RefusalShortCircuits` | app.py:162-169 | a first reply whose code holds "refusal" in any case answers 400, executes nothing and leaves the working directory unchanged |
| `Orchestrator.RetryIsNotGated` | app.py:180-188 | after a failed first run, a retry reply with a refusal set and any code is still executed, and the answer is not a 400 |
| `Orchestrator.RunTask` | app.py:153-197 | the handler's statements produce exactly `Pipeline`'s response, prompts, executor results and working directory, with at most two executions |
| `ReadGuard.ReadPath` | app.py:199-214 | content is served exactly when the file exists, is readable and its path contains "data"; a missing file is "404: File not found" whatever its name; an existing file whose path lacks "data" is "403: Forbidden"; a read failure is its message |
| `ReadGuard.DataAnywhereIsServed` | app.py:206 | any existing readable file whose path holds "data" at some index is served |
| `ReadGuard.ServedPathHasData` | app.py:206 | a served path holds "data" at some index |
| `ReadGuard.MetadataFileIsServed` | app.py:205-207 | "/etc/metadata.conf" is served when it exists: the substring test does not restrict reads to a data directory |

## Left out

- The HTTP framework: routing, query parsing and how a returned `HTTPException` is serialised. The response is a datatype of the handler's four outcomes.
- `print` logging. It has no effect on the results.
- The request to the model, in `get_llm_response` (`app.py:103-136`): the bearer token, the environment loading, and the reading of `system_prompt.txt` and `structured_response.json`. This is network and file I/O; each model call is an `LlmCall` oracle value.
- Subprocess execution and `json.loads`. Each is an oracle outcome supplied with the request.
- The randomness of `uuid.uuid4()`. The uuid hex is part of the `RunOracle`; freshness is a hypothesis of `FreshTempFile`, not a precondition of the executor.
- Strings.Lower: lowers only ASCII `A`-`Z`; Python's `str.lower()` also lowers other Unicode letters.
- A parsed reply that lacks the `language` or `code` key, or whose `code` is not a string. The structured-output schema fixes both fields, so `Content.Code` always carries two strings.
- An exception raised by `os.remove` after a successful run. Removal is assumed to succeed.
- The file effects of the code being run. `Workspace.files` tracks only the files the executor itself creates and removes, the temporary `.py` files. A script or shell command that creates or deletes files of its own, such as `touch x`, changes the real directory in ways the model does not show.
- Concurrency between requests, which share only the working directory. The model covers one request at a time.
- `llm_utils.py`: image prompts, embeddings and the floating-point cosine-similarity search. These are network calls and numpy arithmetic.
