/**
 * The command runner of src/utils.rs: split a command line into a program and its arguments,
 * run it up to `retries + 1` times until an attempt exits successfully, and report the last
 * attempt's exit status and captured output, or an error.
 *
 * The child processes themselves are not modelled: what each attempt produced is given as a
 * sequence of outcomes, one per attempt.
 */
module Runner {
  import opened Wrappers
  import opened Text

  /** How a child process ended (Rust's `ExitStatus`): only exit code 0 is a success. */
  datatype ExitStatus = Exited(code: int) | Signaled(signal: nat) {
    predicate Success() {
      Exited? && code == 0
    }
  }

  /** What one spawn-and-wait of the child produced. */
  datatype Attempt =
    | Finished(status: ExitStatus, stdout: string, stderr: string)
      /** Spawning the child, writing its input or waiting for it failed. */
    | IoFailure(reason: string)

  /** What a completed `run` hands back: exit status, captured stdout and stderr. */
  datatype Output = Output(status: ExitStatus, stdout: string, stderr: string)

  /** The `io::Error`s of the workflow. */
  datatype IoError =
      /** An operating-system error, propagated with `?`. */
    | OsError(reason: string)
      /** A checked command whose last attempt failed: "Command exited with nonzero code". */
    | NonzeroExit
      /** The downloaded file's md5 sum differs from the expected one; names the file. */
    | ChecksumMismatch(path: string)

  /** The program and its arguments: the command's whitespace-separated tokens, with no quoting.
      The source unwraps the first token, so an all-blank command is not a valid input. */
  function CommandLine(command: string): (argv: (string, seq<string>))
    requires SplitWhitespace(command) != []
    ensures IsToken(argv.0)
    ensures forall i :: 0 <= i < |argv.1| ==> IsToken(argv.1[i])
  {
    var tokens := SplitWhitespace(command);
    (tokens[0], tokens[1..])
  }

  /** A command written as single-space-separated tokens runs exactly that program with exactly
      those arguments, in order. */
  lemma CommandLineOfTokens(program: string, args: seq<string>)
    requires IsToken(program)
    requires forall i :: 0 <= i < |args| ==> IsToken(args[i])
    ensures SplitWhitespace(JoinWith([program] + args, ' ')) != []
    ensures CommandLine(JoinWith([program] + args, ' ')) == (program, args)
  {
    var tokens := [program] + args;
    assert forall i :: 0 <= i < |tokens| ==> IsToken(tokens[i]) by {
      forall i | 0 <= i < |tokens| ensures IsToken(tokens[i]) {
        if i > 0 { assert tokens[i] == args[i - 1]; }
      }
    }
    SplitWhitespaceJoin(tokens);
    assert tokens[1..] == args;
  }

  /** The result a single, final attempt yields. */
  function Settle(check: bool, attempt: Attempt): (r: Result<Output, IoError>)
    ensures attempt.IoFailure? ==> r == Failure(OsError(attempt.reason))
    ensures attempt.Finished? ==> (r.Failure? <==> check && !attempt.status.Success())
    ensures attempt.Finished? && r.Failure? ==> r.error == NonzeroExit
    ensures r.Success? ==> r.value == Output(attempt.status, attempt.stdout, attempt.stderr)
  {
    match attempt
    case IoFailure(reason) => Failure(OsError(reason))
    case Finished(status, stdout, stderr) =>
      if check && !status.Success() then Failure(NonzeroExit)
      else Success(Output(status, stdout, stderr))
  }

  /**
   * `run(command, check, input, silent, retries)`. `outcomes[k]` is what the k-th attempt
   * produced; `tries` is the number of attempts made. Echoing (`silent`) and feeding `input`
   * to the child are output and process plumbing and do not change the result.
   */
  method Run(command: string, check: bool, input: Option<string>, silent: bool, retries: nat,
             outcomes: seq<Attempt>)
    returns (r: Result<Output, IoError>, tries: nat)
    requires |outcomes| > retries
    ensures 1 <= tries <= retries + 1
    // every attempt before the last one ran to completion and failed
    ensures forall k :: 0 <= k < tries - 1 ==> outcomes[k].Finished? && !outcomes[k].status.Success()
    // the loop stops early only on a success or an I/O error
    ensures tries <= retries ==>
              outcomes[tries - 1].IoFailure? || outcomes[tries - 1].status.Success()
    // the result is the last attempt's, and only a checked failure turns into an error
    ensures r == Settle(check, outcomes[tries - 1])
  {
    var tryCount := 0;
    while true
      invariant tryCount <= retries
      invariant forall k :: 0 <= k < tryCount ==> outcomes[k].Finished? && !outcomes[k].status.Success()
      decreases retries - tryCount
    {
      var outcome := outcomes[tryCount];
      if outcome.IoFailure? {
        return Failure(OsError(outcome.reason)), tryCount + 1;
      }
      var stdoutContent := outcome.stdout;
      var stderrContent := outcome.stderr;
      if outcome.status.Success() || tryCount >= retries {
        if check && !outcome.status.Success() {
          return Failure(NonzeroExit), tryCount + 1;
        }
        return Success(Output(outcome.status, stdoutContent, stderrContent)), tryCount + 1;
      }
      tryCount := tryCount + 1;
    }
  }
}
