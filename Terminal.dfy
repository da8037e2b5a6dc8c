/** The process-agent engine of internal/engine/terminal.go: a CLI translator
    (Claude Code, Gemini CLI, Codex or a custom command) run once per request.

    The command itself is not run here. The blocking path takes the outcome
    of `cmd.Output()` as a parameter. The streaming path takes what the
    agent's stdout delivered, seen as raw reads or as decoded JSON lines,
    and the point at which the context wins the `select`. */
module Terminal {
  import opened Wrappers
  import opened Strings
  import opened Engine
  import opened AgentOutput

  /** `time.Second`, in nanoseconds. */
  const Second: int := 1_000_000_000

  const ClaudeCode := "claude-code"
  const GeminiCLI := "gemini-cli"
  const Codex := "codex"

  /** Command name, the arguments that precede the prompt, and the timeout
      (a `time.Duration` in nanoseconds). */
  datatype TerminalConfig = TerminalConfig(command: string, args: seq<string>, timeout: int)

  const ClaudeArgs: seq<string> :=
    ["--model", "haiku", "--tools", "", "--output-format", "stream-json", "--verbose",
     "--include-partial-messages", "-p"]

  /** `predefinedEngines`. */
  const PredefinedEngines: map<string, TerminalConfig> := map[
    ClaudeCode := TerminalConfig("claude", ClaudeArgs, 60 * Second),
    GeminiCLI := TerminalConfig("gemini", ["-p"], 60 * Second),
    Codex := TerminalConfig("codex", ["-p"], 60 * Second)
  ]

  /** The predefined configuration of a known type, otherwise the fallback
      that runs the type string itself as the command with `-p`. */
  function ConfigFor(engineType: string): (cfg: TerminalConfig)
    ensures engineType !in PredefinedEngines ==> cfg == TerminalConfig(engineType, ["-p"], 60 * Second)
    ensures engineType in PredefinedEngines ==> cfg == PredefinedEngines[engineType]
    ensures cfg.timeout == 60 * Second && |cfg.args| > 0 && cfg.args[|cfg.args| - 1] == "-p"
  {
    if engineType in PredefinedEngines then PredefinedEngines[engineType]
    else TerminalConfig(engineType, ["-p"], 60 * Second)
  }

  /** The three functional options; each overwrites one field of the config. */
  datatype TerminalOption =
    | WithTerminalTimeout(timeout: int)
    | WithTerminalArgs(args: seq<string>)
    | WithTerminalCommand(command: string)

  function Apply(opt: TerminalOption, cfg: TerminalConfig): TerminalConfig {
    match opt
    case WithTerminalTimeout(t) => cfg.(timeout := t)
    case WithTerminalArgs(a) => cfg.(args := a)
    case WithTerminalCommand(c) => cfg.(command := c)
  }

  /** The options applied in order to `cfg`. */
  function ApplyAll(cfg: TerminalConfig, opts: seq<TerminalOption>): TerminalConfig
    decreases |opts|
  {
    if opts == [] then cfg else Apply(opts[|opts| - 1], ApplyAll(cfg, opts[..|opts| - 1]))
  }

  /** The timeout keeps its initial value unless an option sets it, and then
      the last such option wins. */
  lemma {:induction false} TimeoutLastWins(cfg: TerminalConfig, opts: seq<TerminalOption>)
    ensures (forall k :: 0 <= k < |opts| ==> !opts[k].WithTerminalTimeout?) ==> ApplyAll(cfg, opts).timeout == cfg.timeout
    ensures forall j :: (0 <= j < |opts| && opts[j].WithTerminalTimeout?
                         && forall k :: j < k < |opts| ==> !opts[k].WithTerminalTimeout?) ==> ApplyAll(cfg, opts).timeout == opts[j].timeout
    decreases |opts|
  {
    if opts != [] {
      var init := opts[..|opts| - 1];
      TimeoutLastWins(cfg, init);
      var r := ApplyAll(cfg, opts);
      assert r == Apply(opts[|opts| - 1], ApplyAll(cfg, init));
      forall j | 0 <= j < |opts| && opts[j].WithTerminalTimeout?
                 && forall k :: j < k < |opts| ==> !opts[k].WithTerminalTimeout?
        ensures r.timeout == opts[j].timeout
      {
        if j < |opts| - 1 {
          assert init[j] == opts[j];
          assert forall k :: j < k < |init| ==> init[k] == opts[k];
        }
      }
      if forall k :: 0 <= k < |opts| ==> !opts[k].WithTerminalTimeout? {
        assert forall k :: 0 <= k < |init| ==> init[k] == opts[k];
      }
    }
  }

  /** The arguments keep their initial value unless an option sets them, and
      then the last such option wins. */
  lemma {:induction false} ArgsLastWins(cfg: TerminalConfig, opts: seq<TerminalOption>)
    ensures (forall k :: 0 <= k < |opts| ==> !opts[k].WithTerminalArgs?) ==> ApplyAll(cfg, opts).args == cfg.args
    ensures forall j :: (0 <= j < |opts| && opts[j].WithTerminalArgs?
                         && forall k :: j < k < |opts| ==> !opts[k].WithTerminalArgs?) ==> ApplyAll(cfg, opts).args == opts[j].args
    decreases |opts|
  {
    if opts != [] {
      var init := opts[..|opts| - 1];
      ArgsLastWins(cfg, init);
      var r := ApplyAll(cfg, opts);
      assert r == Apply(opts[|opts| - 1], ApplyAll(cfg, init));
      forall j | 0 <= j < |opts| && opts[j].WithTerminalArgs?
                 && forall k :: j < k < |opts| ==> !opts[k].WithTerminalArgs?
        ensures r.args == opts[j].args
      {
        if j < |opts| - 1 {
          assert init[j] == opts[j];
          assert forall k :: j < k < |init| ==> init[k] == opts[k];
        }
      }
      if forall k :: 0 <= k < |opts| ==> !opts[k].WithTerminalArgs? {
        assert forall k :: 0 <= k < |init| ==> init[k] == opts[k];
      }
    }
  }

  /** The command keeps its initial value unless an option sets it, and then
      the last such option wins. */
  lemma {:induction false} CommandLastWins(cfg: TerminalConfig, opts: seq<TerminalOption>)
    ensures (forall k :: 0 <= k < |opts| ==> !opts[k].WithTerminalCommand?) ==> ApplyAll(cfg, opts).command == cfg.command
    ensures forall j :: (0 <= j < |opts| && opts[j].WithTerminalCommand?
                         && forall k :: j < k < |opts| ==> !opts[k].WithTerminalCommand?) ==> ApplyAll(cfg, opts).command == opts[j].command
    decreases |opts|
  {
    if opts != [] {
      var init := opts[..|opts| - 1];
      CommandLastWins(cfg, init);
      var r := ApplyAll(cfg, opts);
      assert r == Apply(opts[|opts| - 1], ApplyAll(cfg, init));
      forall j | 0 <= j < |opts| && opts[j].WithTerminalCommand?
                 && forall k :: j < k < |opts| ==> !opts[k].WithTerminalCommand?
        ensures r.command == opts[j].command
      {
        if j < |opts| - 1 {
          assert init[j] == opts[j];
          assert forall k :: j < k < |init| ==> init[k] == opts[k];
        }
      }
      if forall k :: 0 <= k < |opts| ==> !opts[k].WithTerminalCommand? {
        assert forall k :: 0 <= k < |init| ==> init[k] == opts[k];
      }
    }
  }

  /** One run of the agent: the command, its arguments and the timeout. */
  datatype Invocation = Invocation(command: string, args: seq<string>, timeout: int)

  /** What `cmd.Output()` came back with: the agent's stdout, or an error
      together with whether the deadline had passed when it was checked. */
  datatype CommandOutcome = Exited(stdout: string) | CommandFailed(err: string, deadlineExceeded: bool)

  /** `Translate`'s `(Response, error)` and the command it ran, if any. */
  datatype Attempt = Attempt(response: Response, err: Option<string>, invoked: Option<Invocation>)

  const TimedOut := "translation timed out"
  const AgentErrorPrefix := "terminal agent error: "

  /** The variant parameters of the raw relay in this file. */
  const StreamFlavor := Flavor(TimedOut, "read error: ", GracefulShutdown)

  class TerminalEngine {
    var name: string
    var config: TerminalConfig

    /** `NewTerminalEngine`: the predefined or fallback config, then the
        options in order. */
    constructor (engineType: string, opts: seq<TerminalOption>)
      ensures name == engineType
      ensures config == ApplyAll(ConfigFor(engineType), opts)
    {
      name := engineType;
      config := ConfigFor(engineType);
      new;
      var i := 0;
      while i < |opts|
        invariant 0 <= i <= |opts|
        invariant name == engineType
        invariant config == ApplyAll(ConfigFor(engineType), opts[..i])
      {
        assert opts[..i + 1][..i] == opts[..i];
        config := Apply(opts[i], config);
        i := i + 1;
      }
      assert opts[..i] == opts;
    }

    /** `NewCustomTerminalEngine`: the given command and args with a 60 s
        timeout, then the options in order. */
    constructor Custom(name: string, command: string, args: seq<string>, opts: seq<TerminalOption>)
      ensures this.name == name
      ensures config == ApplyAll(TerminalConfig(command, args, 60 * Second), opts)
    {
      this.name := name;
      config := TerminalConfig(command, args, 60 * Second);
      new;
      var i := 0;
      while i < |opts|
        invariant 0 <= i <= |opts|
        invariant this.name == name
        invariant config == ApplyAll(TerminalConfig(command, args, 60 * Second), opts[..i])
      {
        assert opts[..i + 1][..i] == opts[..i];
        config := Apply(opts[i], config);
        i := i + 1;
      }
      assert opts[..i] == opts;
    }

    /** The engine's name: the type it was made from, or the name a custom
        engine was given. */
    function Name(): (n: string)
      reads this
      ensures n == name
    {
      name
    }

    /** `Close`: a terminal engine holds nothing to release. */
    method Close() returns (err: Option<string>)
      ensures err == None
    {
      return None;
    }

    /** `buildArgs`: a fresh copy of the base arguments, then
        `--system-prompt <sp>` for Claude Code when a system prompt is given,
        then the prompt. */
    function BuildArgs(prompt: string, systemPrompt: string): (args: seq<string>)
      reads this
      ensures |config.args| < |args|
      ensures args[..|config.args|] == config.args
      ensures args[|args| - 1] == prompt
      ensures |args| == |config.args| + 3 <==> name == ClaudeCode && systemPrompt != ""
      ensures |args| == |config.args| + 3
              ==> args[|config.args|] == "--system-prompt" && args[|config.args| + 1] == systemPrompt
      ensures |args| == |config.args| + 1 || |args| == |config.args| + 3
    {
      var base := config.args;
      if name == ClaudeCode && systemPrompt != "" then base + ["--system-prompt", systemPrompt] + [prompt]
      else base + [prompt]
    }

    /** `Translate`: nothing is run for empty text; otherwise the prompt is
        built, the agent run once, its stdout trimmed, and a failure reported
        as the timeout when the deadline had passed. */
    function Translate(req: Request, outcome: CommandOutcome): (a: Attempt)
      reads this
      ensures req.text == "" ==> a == Attempt(EmptyDone, None, None)
      ensures req.text != "" ==> a.invoked == Some(Invocation(config.command,
                BuildArgs(BuildPrompt(req.prompt, req.text, req.sourceLang, req.targetLang), req.systemPrompt),
                config.timeout))
      ensures req.text != "" && outcome.Exited?
              ==> a.response == Response(TrimSpace(outcome.stdout), true, "") && a.err == None
      ensures req.text != "" && outcome.CommandFailed? ==> a.response == NoResponse
      ensures req.text != "" && outcome.CommandFailed? && outcome.deadlineExceeded ==> a.err == Some(TimedOut)
      ensures req.text != "" && outcome.CommandFailed? && !outcome.deadlineExceeded
              ==> a.err == Some(AgentErrorPrefix + outcome.err)
    {
      if req.text == "" then Attempt(EmptyDone, None, None)
      else
        var prompt := BuildPrompt(req.prompt, req.text, req.sourceLang, req.targetLang);
        var run := Invocation(config.command, BuildArgs(prompt, req.systemPrompt), config.timeout);
        match outcome
        case Exited(stdout) => Attempt(Response(TrimSpace(stdout), true, ""), None, Some(run))
        case CommandFailed(err, deadline) =>
          if deadline then Attempt(NoResponse, Some(TimedOut), Some(run))
          else Attempt(NoResponse, Some(AgentErrorPrefix + err), Some(run))
    }

    /** `TranslateStream`: the goroutine that sends on the response channel,
        choosing the JSON-line decoder for Claude Code and the raw relay for
        every other agent. */
    method TranslateStream(req: Request, start: StartOutcome, output: AgentStdout, doneAt: nat)
      returns (stream: seq<Response>, invoked: Option<Invocation>)
      ensures WellFormedStream(stream)
      ensures req.text == "" ==> stream == [EmptyDone] && invoked == None
      ensures req.text != "" ==> invoked == Some(Invocation(config.command,
                BuildArgs(BuildPrompt(req.prompt, req.text, req.sourceLang, req.targetLang), req.systemPrompt),
                config.timeout))
      ensures req.text != "" && start.PipeFailed? ==> stream == [ErrorResponsef("failed to create pipe: ", start.err)]
      ensures req.text != "" && start.StartFailed? ==> stream == [ErrorResponsef("failed to start command: ", start.err)]
      ensures req.text != "" && start.Started? && name == ClaudeCode
              ==> stream == StructuredRelay(ScannerMessages(output.lines, output.scanErr), doneAt, "").responses
      ensures req.text != "" && start.Started? && name != ClaudeCode
              ==> stream == RawRelay(ReaderMessages(output.chunks), doneAt, StreamFlavor).responses
    {
      if req.text == "" {
        return [EmptyDone], None;
      }
      var prompt := BuildPrompt(req.prompt, req.text, req.sourceLang, req.targetLang);
      var args := BuildArgs(prompt, req.systemPrompt);
      invoked := Some(Invocation(config.command, args, config.timeout));
      match start
      case PipeFailed(err) =>
        stream := [ErrorResponsef("failed to create pipe: ", err)];
      case StartFailed(err) =>
        stream := [ErrorResponsef("failed to start command: ", err)];
      case Started =>
        if name == ClaudeCode {
          var msgs := ScannerMessages(output.lines, output.scanErr);
          var exit;
          stream, exit := StreamClaudeCodeOutput(msgs, doneAt);
        } else {
          var msgs := ReadPipe(output.chunks);
          var exit;
          stream, exit := RelayRaw(msgs, doneAt, StreamFlavor);
        }
    }
  }

  /** How far the streaming goroutine got in launching the agent. */
  datatype StartOutcome = Started | PipeFailed(err: string) | StartFailed(err: string)

  /** The agent's stdout, seen by the raw relay as the outcomes of successive
      reads and by the JSON-line decoder as the decoded lines followed by the
      scanner's error, if any. */
  datatype AgentStdout = AgentStdout(chunks: seq<ReadOutcome>, lines: seq<ClaudeEvent>, scanErr: Option<string>)

  // ---------------------------------------------------------------------
  // Claude Code's stream-json output

  datatype Delta = Delta(kind: string, text: string)
  datatype StreamEvent = StreamEvent(kind: string, delta: Option<Delta>)

  /** One line after `json.Unmarshal`: `Malformed` when it is not JSON,
      otherwise the fields the decoder looks at (absent ones are "" or None). */
  datatype ClaudeEvent =
    | Malformed
    | Decoded(kind: string, subtype: string, event: Option<StreamEvent>, result: string)

  /** What the JSON-line coordinator can receive: a line, the scanner's
      error, or the zero value read from the closed channel. */
  datatype LineMsg = Line(ev: ClaudeEvent) | ScanError(msg: string) | LinesClosed

  /** The scanner goroutine: every line, then the scanner's error if it
      has one, then the close of the channel. */
  function ScannerMessages(lines: seq<ClaudeEvent>, scanErr: Option<string>): (msgs: seq<LineMsg>)
    ensures |msgs| == |lines| + (if scanErr.Some? then 2 else 1)
    ensures forall k :: 0 <= k < |lines| ==> msgs[k] == Line(lines[k])
    ensures msgs[|msgs| - 1] == LinesClosed
  {
    seq(|lines|, k requires 0 <= k < |lines| => Line(lines[k]))
    + (match scanErr case Some(e) => [ScanError(e)] case None => [])
    + [LinesClosed]
  }

  /** The text carried by a `text_delta` inside a `content_block_delta`
      stream event, when it is non-empty. */
  function TextDelta(ev: ClaudeEvent): (t: Option<string>)
    ensures t.Some? ==> t.value != "" && ev.Decoded? && ev.kind == "stream_event"
  {
    if ev.Decoded? && ev.kind == "stream_event" && ev.event.Some?
       && ev.event.value.kind == "content_block_delta" && ev.event.value.delta.Some?
       && ev.event.value.delta.value.kind == "text_delta" && ev.event.value.delta.value.text != ""
    then Some(ev.event.value.delta.value.text)
    else None
  }

  predicate IsResult(m: LineMsg) {
    m.Line? && m.ev.Decoded? && m.ev.kind == "result"
  }

  /** A message the decoder passes over without sending anything: a line
      that is not JSON, an event of another kind, a stream event that is not
      a non-empty text delta, or the zero value of the closed channel. */
  predicate Ignored(m: LineMsg) {
    m.LinesClosed? || (m.Line? && TextDelta(m.ev).None? && !IsResult(m))
  }

  /** The JSON-line coordinator with `text` accumulated so far. A text delta
      extends the accumulator and sends all of it; a `result` event reaps the
      process and sends Done; a scanner error is reported; when the context
      wins, or nothing more can arrive, the process is shut down and the
      timeout is reported. The end of stdout alone never ends the stream. */
  function StructuredRelay(msgs: seq<LineMsg>, doneAt: nat, text: string): (r: Relay)
    ensures WellFormedStream(r.responses)
    decreases |msgs|
  {
    if doneAt == 0 || msgs == [] then Relay([ErrorResponse(TimedOut)], GracefulShutdown)
    else
      var m := msgs[0];
      if m.ScanError? then Relay([ErrorResponsef("read error: ", m.msg)], Reaped)
      else if IsResult(m) then Relay([EmptyDone], Reaped)
      else if m.Line? && TextDelta(m.ev).Some? then
        var text' := text + TextDelta(m.ev).value;
        var rest := StructuredRelay(msgs[1..], doneAt - 1, text');
        PrependOpen(Response(text', false, ""), rest.responses);
        Relay([Response(text', false, "")] + rest.responses, rest.exit)
      else StructuredRelay(msgs[1..], doneAt - 1, text)
  }

  /** `streamClaudeCodeOutput`'s loop over the lines it receives. */
  method StreamClaudeCodeOutput(msgs: seq<LineMsg>, doneAt: nat) returns (out: seq<Response>, exit: ProcessExit)
    ensures Relay(out, exit) == StructuredRelay(msgs, doneAt, "")
    ensures WellFormedStream(out)
  {
    out := [];
    var text := "";
    var i := 0;
    while true
      invariant 0 <= i <= |msgs| && i <= doneAt
      invariant StructuredRelay(msgs, doneAt, "") == After(out, StructuredRelay(msgs[i..], doneAt - i, text))
      decreases |msgs| - i
    {
      if i == doneAt || i == |msgs| {
        out := out + [ErrorResponse(TimedOut)];
        exit := GracefulShutdown;
        return;
      }
      StructuredStep(msgs, i, doneAt, text);
      var m := msgs[i];
      if m.ScanError? {
        out := out + [ErrorResponsef("read error: ", m.msg)];
        exit := Reaped;
        return;
      }
      if m.Line? {
        var delta := TextDelta(m.ev);
        if delta.Some? {
          text := text + delta.value;
          out := out + [Response(text, false, "")];
        } else if IsResult(m) {
          out := out + [EmptyDone];
          exit := Reaped;
          return;
        }
      }
      i := i + 1;
    }
  }

  /** One turn of the JSON-line loop. */
  lemma StructuredStep(msgs: seq<LineMsg>, i: nat, doneAt: nat, text: string)
    requires i < |msgs| && i < doneAt
    ensures var m := msgs[i];
            var r := StructuredRelay(msgs[i..], doneAt - i, text);
            var next := StructuredRelay(msgs[i + 1..], doneAt - (i + 1), text);
            && (m.ScanError? ==> r == Relay([ErrorResponsef("read error: ", m.msg)], Reaped))
            && (IsResult(m) ==> r == Relay([EmptyDone], Reaped))
            && (Ignored(m) ==> r == next)
            && (m.Line? && TextDelta(m.ev).Some? ==>
                  var text' := text + TextDelta(m.ev).value;
                  r == After([Response(text', false, "")], StructuredRelay(msgs[i + 1..], doneAt - (i + 1), text')))
  {
    assert msgs[i..][0] == msgs[i] && msgs[i..][1..] == msgs[i + 1..];
  }

  // ---------------------------------------------------------------------
  // Properties of the JSON-line decoder

  /** The texts of the non-terminal responses of `rs` strictly extend
      `text` and each other, in order. */
  predicate Growing(text: string, rs: seq<Response>) {
    && (forall j :: 0 <= j < |rs| - 1 ==> text < rs[j].text)
    && (forall j, k :: 0 <= j < k < |rs| - 1 ==> rs[j].text < rs[k].text)
  }

  /** Every text sent extends the one before it: the responses before the
      terminal one carry strictly growing prefixes of the final text, all
      extending what was accumulated when the loop started. */
  lemma {:induction false} StructuredGrowing(msgs: seq<LineMsg>, doneAt: nat, text: string)
    ensures Growing(text, StructuredRelay(msgs, doneAt, text).responses)
    decreases |msgs|
  {
    if doneAt == 0 || msgs == [] {
    } else {
      var m := msgs[0];
      if m.ScanError? || IsResult(m) {
      } else if m.Line? && TextDelta(m.ev).Some? {
        var text' := text + TextDelta(m.ev).value;
        StructuredGrowing(msgs[1..], doneAt - 1, text');
        var rest := StructuredRelay(msgs[1..], doneAt - 1, text').responses;
        var rs := StructuredRelay(msgs, doneAt, text).responses;
        assert rs == [Response(text', false, "")] + rest;
        assert text < text' by { assert text'[..|text|] == text; }
        GrowingCons(text, text', rest);
      } else {
        StructuredGrowing(msgs[1..], doneAt - 1, text);
        assert StructuredRelay(msgs, doneAt, text) == StructuredRelay(msgs[1..], doneAt - 1, text);
      }
    }
  }

  lemma GrowingCons(text: string, text': string, rest: seq<Response>)
    requires text < text' && Growing(text', rest) && |rest| > 0
    ensures Growing(text, [Response(text', false, "")] + rest)
  {
    var rs := [Response(text', false, "")] + rest;
    forall j | 0 <= j < |rs| - 1
      ensures text < rs[j].text
    {
      if j > 0 {
        assert rs[j] == rest[j - 1];
        ProperPrefixTrans(text, text', rs[j].text);
      }
    }
    forall j, k | 0 <= j < k < |rs| - 1
      ensures rs[j].text < rs[k].text
    {
      assert rs[k] == rest[k - 1];
      if j > 0 {
        assert rs[j] == rest[j - 1];
      }
    }
  }

  lemma ProperPrefixTrans(a: string, b: string, c: string)
    requires a < b && b < c
    ensures a < c
  {
    assert c[..|a|] == c[..|b|][..|a|];
  }

  predicate IsDeltaLine(m: LineMsg) {
    m.Line? && TextDelta(m.ev).Some?
  }

  /** The text a message contributes to the accumulator, as a list of at
      most one piece. */
  function DeltaOf(m: LineMsg): (ds: seq<string>)
    ensures |ds| <= 1 && (|ds| == 1 <==> IsDeltaLine(m))
  {
    if IsDeltaLine(m) then [TextDelta(m.ev).value] else []
  }

  /** The non-empty text deltas carried by `ms`, in order. */
  function Deltas(ms: seq<LineMsg>): (ds: seq<string>)
    ensures |ds| <= |ms|
    ensures forall k :: 0 <= k < |ds| ==> ds[k] != ""
  {
    if ms == [] then [] else DeltaOf(ms[0]) + Deltas(ms[1..])
  }

  /** All the delta text received in the first `n` messages. */
  function DeltaTexts(msgs: seq<LineMsg>, n: nat): string
    requires n <= |msgs|
  {
    Concat(Deltas(msgs[..n]))
  }

  /** Message `i` is a text delta that the decoder takes: it arrives before
      the context wins and after no `result` event or scanner error. */
  predicate SentAt(msgs: seq<LineMsg>, doneAt: nat, i: nat) {
    i < |msgs| && i < doneAt && IsDeltaLine(msgs[i])
    && forall k :: 0 <= k < i ==> !IsResult(msgs[k]) && !msgs[k].ScanError?
  }

  /** In `rs`, the response numbered by the deltas before message `i`
      carries `text` followed by all the delta text of messages 0 to `i`. */
  predicate SentIn(msgs: seq<LineMsg>, text: string, rs: seq<Response>, i: nat)
    requires i < |msgs|
  {
    |Deltas(msgs[..i])| < |rs| - 1
    && rs[|Deltas(msgs[..i])|] == Response(text + DeltaTexts(msgs, i + 1), false, "")
  }

  /** What the decoder sends for the deltas it takes: the delta at message
      `i` is the response numbered by the deltas before it, and it carries
      everything accumulated so far, that is `text` followed by all the
      delta text of messages 0 to `i`. */
  lemma {:induction false} StructuredAccumulates(msgs: seq<LineMsg>, doneAt: nat, text: string)
    ensures forall i: nat :: SentAt(msgs, doneAt, i) ==> SentIn(msgs, text, StructuredRelay(msgs, doneAt, text).responses, i)
    decreases |msgs|
  {
    var rs := StructuredRelay(msgs, doneAt, text).responses;
    if doneAt == 0 || msgs == [] || msgs[0].ScanError? || IsResult(msgs[0]) {
      NothingSent(msgs, doneAt);
    } else {
      var m := msgs[0];
      var text' := text + Concat(DeltaOf(m));
      StructuredAccumulates(msgs[1..], doneAt - 1, text');
      var rest := StructuredRelay(msgs[1..], doneAt - 1, text').responses;
      RelayHead(msgs, doneAt, text);
      var head := if IsDeltaLine(m) then [Response(text', false, "")] else [];
      assert rs == head + rest;
      forall i: nat | SentAt(msgs, doneAt, i)
        ensures SentIn(msgs, text, rs, i)
      {
        if i == 0 {
          FirstSentIn(msgs, text, text', rest);
        } else {
          ShiftSentAt(msgs, doneAt, i);
          assert SentIn(msgs[1..], text', rest, i - 1);
          ShiftSentIn(msgs, text, text', head, rest, i);
        }
      }
    }
  }

  lemma FirstSentIn(msgs: seq<LineMsg>, text: string, text': string, rest: seq<Response>)
    requires msgs != [] && IsDeltaLine(msgs[0]) && |rest| > 0
    requires text' == text + Concat(DeltaOf(msgs[0]))
    ensures SentIn(msgs, text, [Response(text', false, "")] + rest, 0)
  {
    FirstPosition(msgs, text);
  }

  lemma ShiftSentIn(msgs: seq<LineMsg>, text: string, text': string, head: seq<Response>, rest: seq<Response>, i: nat)
    requires 1 <= i < |msgs|
    requires text' == text + Concat(DeltaOf(msgs[0])) && |head| == |DeltaOf(msgs[0])|
    requires SentIn(msgs[1..], text', rest, i - 1)
    ensures SentIn(msgs, text, head + rest, i)
  {
    ShiftPosition(msgs, text, i);
    var k := |Deltas(msgs[1..][..i - 1])|;
    IndexPastHead(head, rest, k);
  }

  /** Conversely, every response before the terminal one is sent for such
      a delta, and carries what was accumulated up to it. */
  lemma {:induction false} StructuredSendsOnlyDeltas(msgs: seq<LineMsg>, doneAt: nat, text: string)
    ensures var rs := StructuredRelay(msgs, doneAt, text).responses;
            forall j :: 0 <= j < |rs| - 1 ==> SentFor(msgs, doneAt, text, j, rs[j])
    decreases |msgs|
  {
    var rs := StructuredRelay(msgs, doneAt, text).responses;
    if doneAt == 0 || msgs == [] || msgs[0].ScanError? || IsResult(msgs[0]) {
      assert |rs| == 1;
    } else {
      var m := msgs[0];
      var text' := text + Concat(DeltaOf(m));
      StructuredSendsOnlyDeltas(msgs[1..], doneAt - 1, text');
      var rest := StructuredRelay(msgs[1..], doneAt - 1, text').responses;
      RelayHead(msgs, doneAt, text);
      var head := if IsDeltaLine(m) then [Response(text', false, "")] else [];
      assert rs == head + rest;
      forall j | 0 <= j < |rs| - 1
        ensures SentFor(msgs, doneAt, text, j, rs[j])
      {
        if IsDeltaLine(m) && j == 0 {
          assert rs[0] == head[0];
          FirstSentFor(msgs, doneAt, text, text', head[0]);
        } else {
          var k := j - |head|;
          IndexPastHead(head, rest, k);
          assert SentFor(msgs[1..], doneAt - 1, text', k, rest[k]);
          assert |head| == |DeltaOf(m)|;
          SentForOfRest(msgs, doneAt, text, text', j, k, rest[k]);
        }
      }
    }
  }

  /** Response `r`, numbered `j`, is the one sent for some delta the
      decoder takes, and carries what was accumulated up to it. */
  ghost predicate SentFor(msgs: seq<LineMsg>, doneAt: nat, text: string, j: int, r: Response) {
    exists i: nat :: SentAt(msgs, doneAt, i) && j == |Deltas(msgs[..i])|
                     && r == Response(text + DeltaTexts(msgs, i + 1), false, "")
  }

  lemma Witness(msgs: seq<LineMsg>, doneAt: nat, text: string, j: int, r: Response, i: nat)
    requires SentAt(msgs, doneAt, i) && j == |Deltas(msgs[..i])|
    requires r == Response(text + DeltaTexts(msgs, i + 1), false, "")
    ensures SentFor(msgs, doneAt, text, j, r)
  {
  }

  /** A first message that is a delta is the one response 0 is sent for. */
  lemma FirstSentFor(msgs: seq<LineMsg>, doneAt: nat, text: string, text': string, r: Response)
    requires doneAt > 0 && msgs != [] && IsDeltaLine(msgs[0])
    requires text' == text + Concat(DeltaOf(msgs[0])) && r == Response(text', false, "")
    ensures SentFor(msgs, doneAt, text, 0, r)
  {
    FirstPosition(msgs, text);
    Witness(msgs, doneAt, text, 0, r, 0);
  }

  /** A response sent for a delta of the rest is sent for the same delta
      of the whole, numbered after the first message's response, if any. */
  lemma SentForOfRest(msgs: seq<LineMsg>, doneAt: nat, text: string, text': string, j: int, k: int, r: Response)
    requires doneAt > 0 && msgs != [] && !msgs[0].ScanError? && !IsResult(msgs[0])
    requires text' == text + Concat(DeltaOf(msgs[0])) && j == |DeltaOf(msgs[0])| + k
    requires SentFor(msgs[1..], doneAt - 1, text', k, r)
    ensures SentFor(msgs, doneAt, text, j, r)
  {
    var i: nat :| SentAt(msgs[1..], doneAt - 1, i) && k == |Deltas(msgs[1..][..i])|
                  && r == Response(text' + DeltaTexts(msgs[1..], i + 1), false, "");
    SentOfRest(msgs, doneAt, text, text', i);
    Witness(msgs, doneAt, text, j, r, i + 1);
  }

  /** A delta the decoder takes from the rest is one it takes from the
      whole, one message later. */
  lemma SentOfRest(msgs: seq<LineMsg>, doneAt: nat, text: string, text': string, i: nat)
    requires doneAt > 0 && msgs != [] && !msgs[0].ScanError? && !IsResult(msgs[0])
    requires SentAt(msgs[1..], doneAt - 1, i)
    requires text' == text + Concat(DeltaOf(msgs[0]))
    ensures SentAt(msgs, doneAt, i + 1)
    ensures |Deltas(msgs[..i + 1])| == |DeltaOf(msgs[0])| + |Deltas(msgs[1..][..i])|
    ensures text + DeltaTexts(msgs, i + 2) == text' + DeltaTexts(msgs[1..], i + 1)
  {
    ShiftSentAt(msgs, doneAt, i + 1);
    ShiftPosition(msgs, text, i + 1);
  }

  /** A decoder that stops at once, or has nothing to take, takes no delta. */
  lemma NothingSent(msgs: seq<LineMsg>, doneAt: nat)
    requires doneAt == 0 || msgs == [] || msgs[0].ScanError? || IsResult(msgs[0])
    ensures forall i: nat :: !SentAt(msgs, doneAt, i)
  {
    forall i: nat | i < |msgs| && i < doneAt
      ensures !SentAt(msgs, doneAt, i)
    {
      if i > 0 {
        assert msgs[0].ScanError? || IsResult(msgs[0]);
      }
    }
  }

  /** The relay after a first message that does not stop it: the delta's
      response, if any, in front of the relay of the rest. */
  lemma RelayHead(msgs: seq<LineMsg>, doneAt: nat, text: string)
    requires doneAt > 0 && msgs != [] && !msgs[0].ScanError? && !IsResult(msgs[0])
    ensures var text' := text + Concat(DeltaOf(msgs[0]));
            var rest := StructuredRelay(msgs[1..], doneAt - 1, text').responses;
            StructuredRelay(msgs, doneAt, text).responses
            == (if IsDeltaLine(msgs[0]) then [Response(text', false, "")] else []) + rest
  {
    AccumulatedHead(msgs[0], text);
    if !IsDeltaLine(msgs[0]) {
      assert [] + StructuredRelay(msgs[1..], doneAt - 1, text).responses
             == StructuredRelay(msgs[1..], doneAt - 1, text).responses;
    }
  }

  lemma IndexPastHead(head: seq<Response>, rest: seq<Response>, k: nat)
    requires k < |rest| - 1
    ensures |head| + k < |head + rest| - 1 && (head + rest)[|head| + k] == rest[k]
  {
  }

  /** What the first message adds to the accumulator. */
  lemma AccumulatedHead(m: LineMsg, text: string)
    ensures IsDeltaLine(m) ==> Concat(DeltaOf(m)) == TextDelta(m.ev).value
    ensures !IsDeltaLine(m) ==> text + Concat(DeltaOf(m)) == text
  {
  }

  /** The first message, when it is a delta, is numbered 0 and its
      accumulated text is its own. */
  lemma FirstPosition(msgs: seq<LineMsg>, text: string)
    requires msgs != [] && IsDeltaLine(msgs[0])
    ensures Deltas(msgs[..0]) == []
    ensures text + DeltaTexts(msgs, 1) == text + Concat(DeltaOf(msgs[0]))
  {
    ShiftDeltas(msgs, 1);
    assert msgs[1..][..0] == [];
  }

  /** Numbering and accumulated text of message `i` in terms of those of
      message `i - 1` of the rest. */
  lemma ShiftPosition(msgs: seq<LineMsg>, text: string, i: nat)
    requires 1 <= i < |msgs|
    ensures |Deltas(msgs[..i])| == |DeltaOf(msgs[0])| + |Deltas(msgs[1..][..i - 1])|
    ensures text + DeltaTexts(msgs, i + 1) == text + Concat(DeltaOf(msgs[0])) + DeltaTexts(msgs[1..], i)
  {
    ShiftDeltas(msgs, i);
    ShiftDeltas(msgs, i + 1);
  }

  /** The deltas of the first `n` messages: those of the head, then those of
      the next `n - 1`. */
  lemma ShiftDeltas(msgs: seq<LineMsg>, n: nat)
    requires 1 <= n <= |msgs|
    ensures Deltas(msgs[..n]) == DeltaOf(msgs[0]) + Deltas(msgs[1..][..n - 1])
    ensures DeltaTexts(msgs, n) == Concat(DeltaOf(msgs[0])) + DeltaTexts(msgs[1..], n - 1)
  {
    assert msgs[..n][0] == msgs[0];
    assert msgs[..n][1..] == msgs[1..][..n - 1];
    ConcatAppend(DeltaOf(msgs[0]), Deltas(msgs[1..][..n - 1]));
  }

  /** Past a first message that does not stop the decoder, the delta taken
      at `i` is the one taken at `i - 1` of the rest. */
  lemma ShiftSentAt(msgs: seq<LineMsg>, doneAt: nat, i: nat)
    requires 0 < i && msgs != [] && doneAt > 0
    requires !IsResult(msgs[0]) && !msgs[0].ScanError?
    ensures SentAt(msgs, doneAt, i) <==> SentAt(msgs[1..], doneAt - 1, i - 1)
  {
    if i <= |msgs| {
      assert forall k :: 0 <= k < i - 1 ==> msgs[1..][k] == msgs[k + 1];
    }
  }

  /** The message at which the decoder stops of its own accord: the first
      `result` event or scanner error. */
  predicate FirstStopAt(msgs: seq<LineMsg>, j: nat) {
    j < |msgs| && (IsResult(msgs[j]) || msgs[j].ScanError?)
    && forall i :: 0 <= i < j ==> !IsResult(msgs[i]) && !msgs[i].ScanError?
  }

  /** The stream ends in Done exactly when a `result` event is the first
      stopping message and is received before the context wins. */
  lemma {:induction false} StructuredDoneIffResult(msgs: seq<LineMsg>, doneAt: nat, text: string)
    ensures var rs := StructuredRelay(msgs, doneAt, text).responses;
            rs[|rs| - 1] == EmptyDone
            <==> exists j: nat :: j < doneAt && FirstStopAt(msgs, j) && IsResult(msgs[j])
    decreases |msgs|
  {
    var rs := StructuredRelay(msgs, doneAt, text).responses;
    if doneAt == 0 || msgs == [] {
    } else {
      var m := msgs[0];
      if m.ScanError? || IsResult(m) {
        assert FirstStopAt(msgs, 0);
        forall j: nat | FirstStopAt(msgs, j) ensures j == 0 { }
      } else {
        var text' := if m.Line? && TextDelta(m.ev).Some? then text + TextDelta(m.ev).value else text;
        StructuredDoneIffResult(msgs[1..], doneAt - 1, text');
        var rest := StructuredRelay(msgs[1..], doneAt - 1, text').responses;
        assert rs[|rs| - 1] == rest[|rest| - 1];
        ShiftFirstStop(msgs);
      }
    }
  }

  lemma ShiftFirstStop(msgs: seq<LineMsg>)
    requires msgs != [] && !IsResult(msgs[0]) && !msgs[0].ScanError?
    ensures forall j: nat :: FirstStopAt(msgs, j) <==> j > 0 && FirstStopAt(msgs[1..], j - 1)
  {
    forall j: nat
      ensures FirstStopAt(msgs, j) <==> j > 0 && FirstStopAt(msgs[1..], j - 1)
    {
      if j > 0 && j <= |msgs| {
        assert forall i :: 0 <= i < j - 1 ==> msgs[1..][i] == msgs[i + 1];
      }
    }
  }

  /** When the agent's output ends without a `result` event the stream
      never reaches Done: the closed channel yields nothing decodable, so
      the loop keeps receiving until the timeout fires. */
  lemma NoResultNoDone(lines: seq<ClaudeEvent>, doneAt: nat)
    requires forall k :: 0 <= k < |lines| ==> !(lines[k].Decoded? && lines[k].kind == "result")
    ensures var r := StructuredRelay(ScannerMessages(lines, None), doneAt, "");
            r.responses[|r.responses| - 1] == ErrorResponse(TimedOut) && r.exit == GracefulShutdown
  {
    var msgs := ScannerMessages(lines, None);
    assert forall k :: 0 <= k < |msgs| ==> !IsResult(msgs[k]) && !msgs[k].ScanError?;
    StructuredEndsInTimeout(msgs, doneAt, "");
  }

  lemma {:induction false} StructuredEndsInTimeout(msgs: seq<LineMsg>, doneAt: nat, text: string)
    requires forall k :: 0 <= k < |msgs| ==> !IsResult(msgs[k]) && !msgs[k].ScanError?
    ensures var r := StructuredRelay(msgs, doneAt, text);
            r.responses[|r.responses| - 1] == ErrorResponse(TimedOut) && r.exit == GracefulShutdown
    decreases |msgs|
  {
    if doneAt > 0 && msgs != [] {
      var m := msgs[0];
      var text' := if m.Line? && TextDelta(m.ev).Some? then text + TextDelta(m.ev).value else text;
      assert forall k :: 0 <= k < |msgs[1..]| ==> msgs[1..][k] == msgs[k + 1];
      StructuredEndsInTimeout(msgs[1..], doneAt - 1, text');
    }
  }

  /** Lines that send nothing leave the stream as it would have been without
      them: undecodable lines are skipped, and so is the closed channel. */
  lemma {:induction false} IgnoredSkipped(a: seq<LineMsg>, m: LineMsg, b: seq<LineMsg>, doneAt: nat, text: string)
    requires Ignored(m)
    ensures StructuredRelay(a + [m] + b, if doneAt <= |a| then doneAt else doneAt + 1, text)
            == StructuredRelay(a + b, doneAt, text)
    decreases |a|
  {
    var d := if doneAt <= |a| then doneAt else doneAt + 1;
    if doneAt == 0 {
    } else if a == [] {
      assert a + [m] + b == [m] + b && ([m] + b)[1..] == b && a + b == b;
    } else {
      var h := a[0];
      assert (a + [m] + b)[0] == h && (a + b)[0] == h;
      assert (a + [m] + b)[1..] == a[1..] + [m] + b;
      assert (a + b)[1..] == a[1..] + b;
      var text' := if h.Line? && TextDelta(h.ev).Some? then text + TextDelta(h.ev).value else text;
      IgnoredSkipped(a[1..], m, b, doneAt - 1, text');
    }
  }

  /** A text delta event carrying `t`. */
  function DeltaLine(t: string): ClaudeEvent {
    Decoded("stream_event", "", Some(StreamEvent("content_block_delta", Some(Delta("text_delta", t)))), "")
  }

  const ResultLine := Decoded("result", "success", None, "")

  /** Deltas "a" and "b" followed by the result event stream "a", then "ab",
      then Done. */
  lemma StructuredExample(doneAt: nat)
    requires doneAt >= 3
    ensures StructuredRelay(ScannerMessages([DeltaLine("a"), DeltaLine("b"), ResultLine], None), doneAt, "").responses
            == [Response("a", false, ""), Response("ab", false, ""), EmptyDone]
  {
    var msgs := ScannerMessages([DeltaLine("a"), DeltaLine("b"), ResultLine], None);
    assert msgs[0] == Line(DeltaLine("a")) && msgs[1] == Line(DeltaLine("b")) && msgs[2] == Line(ResultLine);
    assert TextDelta(DeltaLine("a")) == Some("a");
    assert TextDelta(DeltaLine("b")) == Some("b");
    assert "" + "a" == "a" && "a" + "b" == "ab";
    StructuredStep(msgs, 0, doneAt, "");
    StructuredStep(msgs, 1, doneAt, "a");
    StructuredStep(msgs, 2, doneAt, "ab");
    assert msgs[0..] == msgs;
  }

  // ---------------------------------------------------------------------
  // Blocking and streaming agree

  /** A blocking call reports "translation timed out" exactly when the
      agent failed after the deadline had passed: no other failure's message
      can be mistaken for the timeout. */
  lemma TimeoutDistinct(e: TerminalEngine, req: Request, outcome: CommandOutcome)
    requires req.text != ""
    ensures e.Translate(req, outcome).err == Some(TimedOut) <==> outcome.CommandFailed? && outcome.deadlineExceeded
  {
    if outcome.CommandFailed? && !outcome.deadlineExceeded {
      assert TimedOut[2] == 'a';
      assert (AgentErrorPrefix + outcome.err)[2] == 'r';
    }
  }

  /** For an agent other than Claude Code whose stdout ends normally, the
      trimmed concatenation of the streamed texts is what the blocking call
      returns for the same output. */
  lemma RawStreamMatchesBlocking(e: TerminalEngine, req: Request, outs: seq<ReadOutcome>, doneAt: nat)
    requires req.text != ""
    requires StopOf(outs) == EOF
    requires doneAt > |ReaderMessages(outs)|
    ensures var rs := RawRelay(ReaderMessages(outs), doneAt, StreamFlavor).responses;
            && rs[|rs| - 1] == EmptyDone
            && e.Translate(req, Exited(BytesRead(outs))).response == Response(TrimSpace(Joined(rs)), true, "")
  {
    RawStreamOfReads(outs, doneAt, StreamFlavor);
  }
}
