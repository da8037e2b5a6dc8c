/** The older process-agent helpers of internal/engine/terminal_base.go,
    used by the per-agent files: the same run-once scheme as the terminal
    engine, but without system-prompt support, with every error folded into
    the returned Response, capitalised messages, and an immediate kill when
    the context wins. */
module TerminalBase {
  import opened Wrappers
  import opened Strings
  import opened Engine
  import opened AgentOutput
  import Terminal

  /** Command, base arguments and timeout (nanoseconds). */
  datatype TerminalConfig = TerminalConfig(command: string, args: seq<string>, timeout: int)

  const TimedOut := "Translation timed out"
  const AgentErrorPrefix := "Terminal agent error: "

  /** The variant parameters of the raw relay in this file. */
  const BaseFlavor := Flavor(TimedOut, "Read error: ", Killed)

  /** `append(cfg.Args, prompt)`: the base arguments, then the prompt. */
  function CommandArgs(cfg: TerminalConfig, prompt: string): (args: seq<string>)
    ensures |args| == |cfg.args| + 1
    ensures args[..|cfg.args|] == cfg.args && args[|cfg.args|] == prompt
  {
    cfg.args + [prompt]
  }

  /** The command a non-empty request runs. */
  function InvocationFor(cfg: TerminalConfig, req: Request): Terminal.Invocation {
    Terminal.Invocation(cfg.command,
                        CommandArgs(cfg, BuildPrompt(req.prompt, req.text, req.sourceLang, req.targetLang)),
                        cfg.timeout)
  }

  /** `terminalTranslate`: the response, always final, and the command it
      ran, if any. */
  datatype BaseAttempt = BaseAttempt(response: Response, invoked: Option<Terminal.Invocation>)

  function TerminalTranslate(cfg: TerminalConfig, req: Request, outcome: Terminal.CommandOutcome): (a: BaseAttempt)
    ensures a.response.done
    ensures req.text == "" ==> a == BaseAttempt(EmptyDone, None)
    ensures req.text != "" ==> a.invoked == Some(InvocationFor(cfg, req))
    ensures req.text != "" && outcome.Exited? ==> a.response == Response(TrimSpace(outcome.stdout), true, "")
    ensures req.text != "" && outcome.CommandFailed? && outcome.deadlineExceeded
            ==> a.response == ErrorResponse(TimedOut)
    ensures req.text != "" && outcome.CommandFailed? && !outcome.deadlineExceeded
            ==> a.response == ErrorResponse(AgentErrorPrefix + outcome.err)
  {
    if req.text == "" then BaseAttempt(EmptyDone, None)
    else
      var run := InvocationFor(cfg, req);
      match outcome
      case Exited(stdout) => BaseAttempt(Response(TrimSpace(stdout), true, ""), Some(run))
      case CommandFailed(err, deadline) =>
        if deadline then BaseAttempt(ErrorResponse(TimedOut), Some(run))
        else BaseAttempt(ErrorResponsef(AgentErrorPrefix, err), Some(run))
  }

  /** The blocking helper and the stream agree: the stream's last response
      is what the blocking call returns when it fails, and a successful
      stream's texts trimmed are what it returns on success. */
  lemma BlockingMatchesStream(cfg: TerminalConfig, req: Request, outs: seq<ReadOutcome>, doneAt: nat)
    requires req.text != ""
    requires doneAt > |ReaderMessages(outs)|
    ensures var rs := RawRelay(ReaderMessages(outs), doneAt, BaseFlavor).responses;
            StopOf(outs) == EOF
            ==> TerminalTranslate(cfg, req, Terminal.Exited(BytesRead(outs))).response
                == Response(TrimSpace(Joined(rs)), true, "")
    ensures var rs := RawRelay(ReaderMessages(outs), doneAt, BaseFlavor).responses;
            StopOf(outs) == NoErr
            ==> rs[|rs| - 1] == TerminalTranslate(cfg, req, Terminal.CommandFailed("", true)).response
  {
    RawStreamOfReads(outs, doneAt, BaseFlavor);
  }

  /** `terminalTranslateStream`: one `{"" Done}` for empty text; otherwise
      the command is launched and its stdout relayed chunk by chunk until the
      channel closes, a read fails or the context wins. */
  method TerminalTranslateStream(cfg: TerminalConfig, req: Request, start: Terminal.StartOutcome,
                                 outs: seq<ReadOutcome>, doneAt: nat)
    returns (stream: seq<Response>, invoked: Option<Terminal.Invocation>)
    ensures WellFormedStream(stream)
    ensures req.text == "" ==> stream == [EmptyDone] && invoked == None
    ensures req.text != "" ==> invoked == Some(InvocationFor(cfg, req))
    ensures req.text != "" && start.PipeFailed? ==> stream == [ErrorResponsef("Failed to create pipe: ", start.err)]
    ensures req.text != "" && start.StartFailed? ==> stream == [ErrorResponsef("Failed to start command: ", start.err)]
    ensures req.text != "" && start.Started? ==> stream == RawRelay(ReaderMessages(outs), doneAt, BaseFlavor).responses
  {
    if req.text == "" {
      return [EmptyDone], None;
    }
    invoked := Some(InvocationFor(cfg, req));
    match start
    case PipeFailed(err) =>
      stream := [ErrorResponsef("Failed to create pipe: ", err)];
    case StartFailed(err) =>
      stream := [ErrorResponsef("Failed to start command: ", err)];
    case Started =>
      var msgs := ReadPipe(outs);
      var exit;
      stream, exit := RelayRaw(msgs, doneAt, BaseFlavor);
  }

  /** On timeout the helper kills the process at once, unlike the terminal
      engine, which first asks it to terminate. */
  lemma TimeoutKills(msgs: seq<ReadMsg>, doneAt: nat)
    requires doneAt <= |LeadingChunks(msgs)|
    ensures var r := RawRelay(msgs, doneAt, BaseFlavor);
            r.exit == Killed && r.responses[|r.responses| - 1] == ErrorResponse(TimedOut)
            && |r.responses| == doneAt + 1
  {
    RawRelayClosedForm(msgs, doneAt, BaseFlavor);
  }
}
