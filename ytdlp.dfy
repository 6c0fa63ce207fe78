/**
  The `yt-dlp` bindings: the retry wrapper around one subprocess run, the shaping of a
  failed run into an error, and the argument lists of the downloads the pipeline uses.
  The filesystem check on the cookies file and the subprocess itself are oracles
  answering the n-th attempt (counted from 1); the sleeps are returned as the waits taken.
 */
module YtDlp {
  import opened Wrappers
  import opened Text

  /** The errors of the bindings; an I/O error is kept as its text. */
  datatype YtDlpError =
    | ExecutionError(io: string)
    | NonZeroExit(command: string, status: int, output: string)
    | InvalidPath(path: string)
    | BinaryNotFound(name: string)
    | VttReadError(msg: string)
    | JsonParseError(msg: string)
    | InvalidInputPath(path: string)
    | UnsupportedFormat(format: string)

  /** A configured instance: the binary to run and, optionally, a cookies file. */
  datatype YtDlp = YtDlp(binaryPath: string, cookiesPath: Option<string>)

  /**
    What a finished process reports: its exit code (none when a signal ended it) and its
    two output streams, already decoded.
   */
  datatype ProcessOutput = ProcessOutput(code: Option<int>, stdout: string, stderr: string)
  {
    /** `ExitStatus::success`: the process exited with code 0. */
    predicate Success() {
      code == Some(0)
    }
  }

  /** A path argument: its text when the path is valid UTF-8, and its display form. */
  datatype OsPath = OsPath(utf8: Option<string>, display: string)

  /** The environment of the runs: whether the cookies file exists, and what the process does, at the n-th attempt. */
  datatype Env = Env(cookiesExist: nat -> bool, spawn: (nat, string, seq<string>) -> Result<ProcessOutput, string>)

  /** `max_retries`: the number of attempts `run_yt_dlp` makes at most. */
  const MaxRetries: nat := 3
  /** `retry_delay` between two attempts, in milliseconds. */
  const RetryDelayMs: nat := 2000
  const CookiesNotFound := "Cookies file not found: "
  /** The message of a failed run that printed nothing but whitespace. */
  const NoOutput := "yt-dlp exited with non-zero status but produced no output."

  /** The command line of one run: `--cookies <path>` first when a cookies file is configured. */
  function Argv(cookiesPath: Option<string>, args: seq<string>): (r: seq<string>)
    ensures cookiesPath.None? ==> r == args
    ensures cookiesPath.Some? ==> |r| == |args| + 2 && r[0] == "--cookies" && r[1] == cookiesPath.value && r[2..] == args
  {
    match cookiesPath
    case None => args
    case Some(c) => ["--cookies", c] + args
  }

  /** The text a failed run reports: stderr unless blank, else stdout unless blank, else a fixed text. */
  function Message(stdout: string, stderr: string): (r: string)
    ensures !IsBlank(r)
    ensures !IsBlank(stderr) ==> r == stderr
    ensures IsBlank(stderr) && !IsBlank(stdout) ==> r == stdout
    ensures IsBlank(stderr) && IsBlank(stdout) ==> r == NoOutput
  {
    if Trim(stderr) != [] then stderr
    else if Trim(stdout) != [] then stdout
    else assert NoOutput[|NoOutput| - 1] == '.'; NoOutput
  }

  /** `code().unwrap_or(-1)`. */
  function Status(code: Option<int>): int {
    match code
    case Some(c) => c
    case None => -1
  }

  /** The outcome of a process that could be spawned (`Ok`) or not (`Err`, an I/O error). */
  function Outcome(binaryPath: string, output: Result<ProcessOutput, string>): (r: Result<(), YtDlpError>)
    ensures output.Err? ==> r == Err(ExecutionError(output.error))
    ensures output.Ok? ==> (r.Ok? <==> output.value.Success())
    ensures r.Err? && r.error.NonZeroExit? ==> output.Ok? && r.error.command == binaryPath && !IsBlank(r.error.output)
  {
    match output
    case Err(io) => Err(ExecutionError(io))
    case Ok(out) =>
      if out.Success() then Ok(())
      else Err(NonZeroExit(binaryPath, Status(out.code), Message(out.stdout, out.stderr)))
  }

  /** One attempt, the n-th: the cookies check, then the process. */
  function Once(y: YtDlp, args: seq<string>, env: Env, n: nat): Result<(), YtDlpError> {
    if y.cookiesPath.Some? && !env.cookiesExist(n) then Err(InvalidPath(CookiesNotFound + y.cookiesPath.value))
    else Outcome(y.binaryPath, env.spawn(n, y.binaryPath, Argv(y.cookiesPath, args)))
  }

  /** `run_yt_dlp_once`: builds the command argument by argument and shapes its outcome. */
  method RunOnce(y: YtDlp, args: seq<string>, env: Env, n: nat) returns (r: Result<(), YtDlpError>)
    ensures r == Once(y, args, env, n)
  {
    var argv: seq<string> := [];
    if y.cookiesPath.Some? {
      var cookies := y.cookiesPath.value;
      if !env.cookiesExist(n) {
        return Err(InvalidPath(CookiesNotFound + cookies));
      }
      argv := argv + ["--cookies"];
      argv := argv + [cookies];
    }
    argv := argv + args;
    assert argv == Argv(y.cookiesPath, args);
    var output := env.spawn(n, y.binaryPath, argv);
    if output.Err? {
      return Err(ExecutionError(output.error));
    }
    var out := output.value;
    if out.Success() {
      return Ok(());
    }
    var msg;
    if Trim(out.stderr) != [] {
      msg := out.stderr;
    } else if Trim(out.stdout) != [] {
      msg := out.stdout;
    } else {
      msg := NoOutput;
    }
    r := Err(NonZeroExit(y.binaryPath, Status(out.code), msg));
  }

  /** The record of one retry loop: its result, the waits between attempts, and the number of attempts. */
  datatype Run = Run(result: Result<(), YtDlpError>, waits: seq<nat>, attempts: nat)

  /** The outcomes `run_yt_dlp` retries: `NonZeroExit` and nothing else. */
  predicate Retried(r: Result<(), YtDlpError>) {
    r.Err? && r.error.NonZeroExit?
  }

  /**
    The retry loop once `done` attempts have ended in `NonZeroExit`, where `attempt(n)` is
    the outcome of the n-th attempt. The loop of the bindings has `attempt(n) == Once(y, args, env, n)`.
   */
  function RunFrom(attempt: nat -> Result<(), YtDlpError>, done: nat): Run
    requires done < MaxRetries
    decreases MaxRetries - done
  {
    var r := attempt(done + 1);
    if !Retried(r) || done + 1 == MaxRetries then Run(r, [], done + 1)
    else Delayed([RetryDelayMs], RunFrom(attempt, done + 1))
  }

  /** The attempts of `run_yt_dlp` for instance `y`, arguments `args` and environment `env`. */
  function Attempts(y: YtDlp, args: seq<string>, env: Env): nat -> Result<(), YtDlpError> {
    (n: nat) => Once(y, args, env, n)
  }

  /** One attempt of the loop, stated through the loop's `attempt` oracle. */
  method Attempt(ghost attempt: nat -> Result<(), YtDlpError>, y: YtDlp, args: seq<string>, env: Env, n: nat)
    returns (r: Result<(), YtDlpError>)
    requires attempt == Attempts(y, args, env)
    ensures r == attempt(n)
  {
    r := RunOnce(y, args, env, n);
  }

  /** `run_yt_dlp`: the retry loop around `run_yt_dlp_once`. */
  method RunYtDlp(y: YtDlp, args: seq<string>, env: Env) returns (r: Result<(), YtDlpError>, waits: seq<nat>, attempts: nat)
    ensures Run(r, waits, attempts) == RunFrom(Attempts(y, args, env), 0)
  {
    ghost var attempt := Attempts(y, args, env);
    attempts := 0;
    waits := [];
    while true
      invariant attempts < MaxRetries
      invariant RunFrom(attempt, 0) == Delayed(waits, RunFrom(attempt, attempts))
      decreases MaxRetries - attempts
    {
      attempts := attempts + 1;
      var result := Attempt(attempt, y, args, env, attempts);
      if result.Ok? || !result.error.NonZeroExit? || attempts == MaxRetries {
        return result, waits, attempts;
      }
      DelayedTwice(waits, RetryDelayMs, RunFrom(attempt, attempts));
      waits := waits + [RetryDelayMs];
    }
  }

  /** A run preceded by the waits `before`. */
  function Delayed(before: seq<nat>, run: Run): Run {
    Run(run.result, before + run.waits, run.attempts)
  }

  lemma DelayedTwice(before: seq<nat>, wait: nat, run: Run)
    ensures Delayed(before, Delayed([wait], run)) == Delayed(before + [wait], run)
  {
    assert before + ([wait] + run.waits) == before + [wait] + run.waits;
  }

  /** What the loop does, attempt by attempt, from the point where `done` attempts have failed with `NonZeroExit`. */
  lemma {:induction false} RunFromSpec(attempt: nat -> Result<(), YtDlpError>, done: nat)
    requires done < MaxRetries
    ensures var run := RunFrom(attempt, done);
      && done < run.attempts <= MaxRetries
      && run.waits == seq(run.attempts - done - 1, _ => RetryDelayMs)
      && (forall i :: done < i < run.attempts ==> Retried(attempt(i)))
      && run.result == attempt(run.attempts)
      && (Retried(run.result) ==> run.attempts == MaxRetries)
    decreases MaxRetries - done
  {
    if Retried(attempt(done + 1)) && done + 1 < MaxRetries {
      RunFromSpec(attempt, done + 1);
      var rest := RunFrom(attempt, done + 1);
      assert [RetryDelayMs] + rest.waits == seq(rest.attempts - done - 1, _ => RetryDelayMs);
    }
  }

  /**
    At most three attempts, two seconds apart; every attempt before the last ended in
    `NonZeroExit`; the loop returns what the last attempt returned: a success, an error
    other than `NonZeroExit` at once, or the third `NonZeroExit` as it is.
   */
  lemma RetryPolicy(attempt: nat -> Result<(), YtDlpError>)
    ensures var run := RunFrom(attempt, 0);
      && 1 <= run.attempts <= MaxRetries
      && run.waits == seq(run.attempts - 1, _ => RetryDelayMs)
      && (forall i :: 1 <= i < run.attempts ==> Retried(attempt(i)))
      && run.result == attempt(run.attempts)
      && (Retried(run.result) ==> run.attempts == MaxRetries)
  {
    RunFromSpec(attempt, 0);
  }

  /** The first success ends the loop with `Ok`. */
  lemma FirstSuccess(attempt: nat -> Result<(), YtDlpError>, k: nat)
    requires 1 <= k <= MaxRetries
    requires attempt(k).Ok?
    requires forall i :: 1 <= i < k ==> Retried(attempt(i))
    ensures RunFrom(attempt, 0) == Run(Ok(()), seq(k - 1, _ => RetryDelayMs), k)
  {
    RetryPolicy(attempt);
    var u: () := attempt(k).value;
    assert u == ();
  }

  /** Three `NonZeroExit`s in a row: the third is returned as it is. */
  lemma ThirdFailureReturned(attempt: nat -> Result<(), YtDlpError>)
    requires forall i :: 1 <= i <= MaxRetries ==> Retried(attempt(i))
    ensures RunFrom(attempt, 0) == Run(attempt(3), [RetryDelayMs, RetryDelayMs], 3)
  {
    RetryPolicy(attempt);
  }

  /**
    A configured cookies file that is missing ends the loop with `InvalidPath` after one
    attempt, whatever the process would have done: no process runs and nothing is retried.
   */
  lemma MissingCookies(y: YtDlp, args: seq<string>, env: Env)
    requires y.cookiesPath.Some? && !env.cookiesExist(1)
    ensures RunFrom(Attempts(y, args, env), 0) == Run(Err(InvalidPath(CookiesNotFound + y.cookiesPath.value)), [], 1)
    ensures forall spawn :: RunFrom(Attempts(y, args, Env(env.cookiesExist, spawn)), 0) == RunFrom(Attempts(y, args, env), 0)
  {
  }

  /** Every process runs the configured binary with `Argv`; its `NonZeroExit` names that binary and a non-blank message. */
  lemma ProcessArgv(y: YtDlp, args: seq<string>, env: Env, n: nat)
    requires y.cookiesPath.None? || env.cookiesExist(n)
    ensures Once(y, args, env, n) == Outcome(y.binaryPath, env.spawn(n, y.binaryPath, Argv(y.cookiesPath, args)))
    ensures var r := Once(y, args, env, n);
      Retried(r) ==> r.error.command == y.binaryPath && !IsBlank(r.error.output)
  {
  }

  // ---------------------------------------------------------------------------------------------
  // The downloads

  /** The arguments of `download_audio`. */
  function AudioArgs(url: string, format: string, output: string): (r: seq<string>)
    ensures |r| == 8 && r[7] == url && r[6] == output && r[4] == format
    ensures r[..4] == ["-f", "bestaudio", "-x", "--audio-format"] && r[5] == "--output"
  {
    ["-f", "bestaudio", "-x", "--audio-format", format, "--output", output, url]
  }

  /**
    `download_audio`: an output template that is not valid UTF-8 fails with `InvalidPath`
    before any attempt; otherwise the retry loop runs the audio extraction arguments.
   */
  method DownloadAudio(y: YtDlp, url: string, format: string, output: OsPath, env: Env)
    returns (r: Result<(), YtDlpError>, waits: seq<nat>, attempts: nat)
    ensures output.utf8.None? ==> r == Err(InvalidPath(output.display)) && waits == [] && attempts == 0
    ensures output.utf8.Some? ==> Run(r, waits, attempts) == RunFrom(Attempts(y, AudioArgs(url, format, output.utf8.value), env), 0)
  {
    if output.utf8.None? {
      return Err(InvalidPath(output.display)), [], 0;
    }
    r, waits, attempts := RunYtDlp(y, ["-f", "bestaudio", "-x", "--audio-format", format, "--output", output.utf8.value, url], env);
  }

  /** `download_with_options`: the options, then the URL. */
  method DownloadWithOptions(y: YtDlp, url: string, options: seq<string>, env: Env)
    returns (r: Result<(), YtDlpError>, waits: seq<nat>, attempts: nat)
    ensures Run(r, waits, attempts) == RunFrom(Attempts(y, options + [url], env), 0)
  {
    var args := options;
    args := args + [url];
    r, waits, attempts := RunYtDlp(y, args, env);
  }

  /** The arguments of `download_auto_sub`. */
  function AutoSubArgs(url: string, output: string): (r: seq<string>)
    ensures |r| == 5 && r[4] == url && r[3] == output && r[..3] == ["--write-auto-sub", "--skip-download", "--output"]
  {
    ["--write-auto-sub", "--skip-download", "--output", output, url]
  }

  /**
    `download_auto_sub`: like `download_audio`, an output that is not valid UTF-8 fails
    before any attempt; otherwise the retry loop asks for the automatic subtitles only.
   */
  method DownloadAutoSub(y: YtDlp, url: string, output: OsPath, env: Env)
    returns (r: Result<(), YtDlpError>, waits: seq<nat>, attempts: nat)
    ensures output.utf8.None? ==> r == Err(InvalidPath(output.display)) && waits == [] && attempts == 0
    ensures output.utf8.Some? ==> Run(r, waits, attempts) == RunFrom(Attempts(y, AutoSubArgs(url, output.utf8.value), env), 0)
    ensures y.cookiesPath.Some? && !env.cookiesExist(1) ==> r.Err? && r.error.InvalidPath?
  {
    if output.utf8.None? {
      return Err(InvalidPath(output.display)), [], 0;
    }
    r, waits, attempts := RunYtDlp(y, ["--write-auto-sub", "--skip-download", "--output", output.utf8.value, url], env);
    if y.cookiesPath.Some? && !env.cookiesExist(1) {
      MissingCookies(y, AutoSubArgs(url, output.utf8.value), env);
    }
  }

  /** With cookies, the process of every attempt of `download_with_options` sees `--cookies`, the options, then the URL last. */
  lemma OptionsArgv(cookies: string, url: string, options: seq<string>)
    ensures var argv := Argv(Some(cookies), options + [url]);
      && argv[..2] == ["--cookies", cookies] && argv[2..|argv| - 1] == options && argv[|argv| - 1] == url
  {
    var argv := Argv(Some(cookies), options + [url]);
    assert argv[2..][..|options|] == options;
  }
}
