# tons translation engines, modelled in Dafny

tons is a desktop translator. It sends each request (text, source and target
language, prompt template, optional system prompt) to one of three kinds of
engine. Every engine answers a blocking `Translate` with one `Response`, and
`TranslateStream` with a channel of `Response`s.

- **Terminal agents** (`internal/engine/terminal.go`). A CLI agent (Claude Code,
  Gemini CLI, Codex or a custom command) is run once per request. Its stdout
  is either trimmed as a whole or relayed while it runs. Claude Code's
  stream-json lines are decoded; every other agent's stdout is relayed as raw
  chunks.
- **The older terminal helpers** (`internal/engine/terminal_base.go`). They
  run the same scheme, but errors are folded into the Response, messages are
  capitalised, and a timeout kills the process at once.
- **Yzma** (`internal/engine/yzma.go`). An embedded llama model is loaded
  lazily and guarded by a one-slot gate. It generates token pieces until EOS,
  the token budget, cancellation or a refusing callback.
- **Ollama** (`internal/engine/ollama.go`). One generate request per
  translation goes to a local Ollama server, and the server's responses are
  relayed.
- **The settings** (`internal/config`). Defaults, validating setters that fall
  back to a default, and selectors for the chosen terminal agent.

The shared contract is in `Engine.dfy`:

- the request and response records;
- the stream discipline, under which every response but the last is a
  non-terminal delta and the last one is Done or carries an error;
- the error constructors and the sampling defaults;
- `BuildPrompt`, the one-pass placeholder substitution.

Concurrency is sequentialised. A reader goroutine becomes a function of what
its reads returned. A coordinator `select` becomes a loop over the messages it
received, with `doneAt` (the number of messages taken before the context arm
wins) as the one scheduling choice. Everything outside the program is a
parameter of the operation that uses it:

- what a command printed or how it failed;
- what the native library sampled;
- what the Ollama server sent.

Layout, one module per file:

- `Wrappers.dfy`: Option and Result.
- `Strings.dfy`: `TrimSpace` over the white-space set of `unicode.IsSpace`, and concatenation.
- `Engine.dfy`: `engine.go`.
- `AgentOutput.dfy`: the raw stdout relay, which both terminal variants share.
- `Terminal.dfy`: `terminal.go`.
- `TerminalBase.dfy`: `terminal_base.go`.
- `Yzma.dfy`: `yzma.go`.
- `Ollama.dfy`: `ollama.go`.
- `Configuration.dfy`: `internal/config/{engine,prompt,general}.go`. One Go
  type spans these three files.

For Claude Code, the predefined arguments ask the agent for
`--output-format stream-json`. The blocking `Translate` therefore returns
those JSON lines, trimmed. The model keeps this behaviour as written.

## Model

| member | source | states |
|---|---|---|
| Engine.ErrorResponse | internal/engine/engine.go:38-40 | the response is terminal, Done, has empty text and carries exactly the given message |
| Engine.ErrorResponsef | internal/engine/engine.go:43-45 | as ErrorResponse, with the message being the format prefix followed by the operand |
| Engine.DefaultSamplingConfig | internal/engine/engine.go:55-61 | temperature 0.7, top-p 0.9, 512 tokens |
| Engine.PrependOpen | internal/engine/engine.go:18-35 | putting a non-terminal delta in front keeps a stream open, and keeps a well-formed stream well formed |
| Engine.MatchAt | internal/engine/engine.go:74-78 | the replacer matches a placeholder at a position only if the text there starts with it, and it matches one whenever some placeholder starts there |
| Engine.BuildPrompt | internal/engine/engine.go:73-79 | one left-to-right scan of the template: empty gives empty, a placeholder at the front is replaced by its value, and otherwise the first character is kept; NoPlaceholderUnchanged, SubstituteAround, ValueNotExpandedAgain and TemplateWithSlots state the whole pass |
| Engine.NoPlaceholderUnchanged | internal/engine/engine.go:73-79 | a template containing none of the three placeholders comes back unchanged |
| Engine.SubstituteAround | internal/engine/engine.go:74-78 | in `a + placeholder + b`, the placeholder becomes its value and `a` and `b` are filled independently (single left-to-right pass) |
| Engine.ValueNotExpandedAgain | internal/engine/engine.go:74-78 | substituted values are not scanned again: a text that is itself `{{source_lang}}` comes out literally |
| Engine.TemplateWithSlots | internal/engine/engine.go:73-79 | three placeholders between brace-free literals are each replaced by their values, in place, and the literals kept |
| Engine.BuildPromptExample | internal/engine/engine.go:73-79 | the template "Translate {{text}}" + " from {{source_lang}}" + " to {{target_lang}}" fills to "Translate " + text + " from " + source + " to " + target |
| Engine.JoinedChunks | internal/engine/engine.go:18-35 | the texts of one delta per chunk concatenate to the chunks |
| Strings.TrimSpace | internal/engine/terminal.go:176 | `strings.TrimSpace`, as every blocking Translate applies it (also terminal_base.go:45 and ollama.go:140): the result is an infix of the input with only white space cut at either end, and it neither starts nor ends with white space |
| AgentOutput.ReaderMessages | internal/engine/terminal.go:320-337 | the reader only ever sends non-empty chunks |
| AgentOutput.ReadPipe | internal/engine/terminal.go:320-337 | the reader loop sends one chunk per non-empty read in read order, then at the first error the error (unless EOF) and the close |
| AgentOutput.RawRelay | internal/engine/terminal.go:339-358 | every relay is a well-formed stream: deltas, then exactly one of Done on close, the read error, or the timeout |
| AgentOutput.RelayRaw | internal/engine/terminal.go:339-358 | the coordinator loop sends exactly RawRelay's responses and ends the process as it says, and its output is well formed |
| AgentOutput.RawRelayClosedForm | internal/engine/terminal.go:339-358 | the relay forwards the leading chunks received before the context wins, in order, and then ends as the next message (or the timeout) dictates |
| AgentOutput.RawRelayJoined | internal/engine/terminal.go:339-358 | the forwarded texts concatenate to the chunks received before the context won |
| AgentOutput.ReaderChunks | internal/engine/terminal.go:320-337 | the reader's chunks concatenate to the bytes read up to the first error, and the close or read error sits right after them |
| AgentOutput.RawStreamOfReads | internal/engine/terminal.go:320-358 | with a live context, the streamed texts concatenate to the bytes read; EOF gives Done and reaps, a read error gives its message and reaps, a still-open pipe gives the timeout and the variant's shutdown |
| AgentOutput.DataBeforeReadError | internal/engine/terminal.go:326-335 | bytes returned by a read that also failed are forwarded before the read-error response |
| Terminal.ConfigFor | internal/engine/terminal.go:84-92 | a known type gets its predefined config; an unknown type runs itself as the command with `-p` and 60 s |
| Terminal.TimeoutLastWins | internal/engine/terminal.go:62-66 | the timeout keeps its initial value unless an option sets it, and then the last `WithTerminalTimeout` wins |
| Terminal.ArgsLastWins | internal/engine/terminal.go:69-73 | the arguments keep their initial value unless an option sets them, and then the last `WithTerminalArgs` wins |
| Terminal.CommandLastWins | internal/engine/terminal.go:76-80 | the command keeps its initial value unless an option sets it, and then the last `WithTerminalCommand` wins |
| Terminal.TerminalEngine.constructor | internal/engine/terminal.go:83-104 | the name is the type string, and the config is the predefined or fallback one with the options applied in order (also `NewClaudeCode`/`NewGeminiCLI`/`NewCodex`, terminal.go:406-418) |
| Terminal.TerminalEngine.Custom | internal/engine/terminal.go:107-122 | the given command and arguments with a 60 s timeout, then the options in order |
| Terminal.TerminalEngine.Name | internal/engine/terminal.go:124-126 | the engine's stored name: the type string for a predefined engine, the given name for a custom one (by the constructors' contracts) |
| Terminal.TerminalEngine.Close | internal/engine/terminal.go:136-138 | never fails |
| Terminal.TerminalEngine.BuildArgs | internal/engine/terminal.go:141-152 | a copy of the base arguments, then `--system-prompt sp` exactly when the agent is Claude Code and sp is non-empty, then the prompt last; length +1 or +3 |
| Terminal.TerminalEngine.Translate | internal/engine/terminal.go:155-177 | empty text gives {"" Done} and runs nothing; otherwise the agent runs with the built prompt and args; success gives the trimmed stdout, a deadline "translation timed out", any other failure "terminal agent error: …" |
| Terminal.TerminalEngine.TranslateStream | internal/engine/terminal.go:194-240 | empty text streams one {"" Done}; pipe and start failures stream one error; otherwise the JSON-line decoder for Claude Code and the raw relay for every other agent; always well formed |
| Terminal.ScannerMessages | internal/engine/terminal.go:251-264 | the scanner sends every line in order, then its error if any, then the close |
| Terminal.TextDelta | internal/engine/terminal.go:292-300 | text is taken only from a decoded `stream_event` line, and is never empty |
| Terminal.StructuredRelay | internal/engine/terminal.go:265-308 | the JSON-line decoder's output is always a well-formed stream |
| Terminal.StreamClaudeCodeOutput | internal/engine/terminal.go:243-309 | the decoding loop sends exactly StructuredRelay's responses from an empty accumulator |
| Terminal.StructuredGrowing | internal/engine/terminal.go:292-300 | the texts sent before the terminal response form a strictly growing prefix chain, all extending the starting accumulator |
| Terminal.StructuredAccumulates | internal/engine/terminal.go:265-298 | every text delta the decoder takes (before the context wins and before any result or scan error) is sent as the response numbered by the deltas before it, carrying the starting text followed by all delta text received up to and including it |
| Terminal.StructuredSendsOnlyDeltas | internal/engine/terminal.go:265-298 | conversely, every response before the terminal one is sent for such a delta and carries exactly that accumulated text |
| Terminal.StructuredDoneIffResult | internal/engine/terminal.go:301-305 | the stream ends in Done exactly when a `result` line is the first stopping message and the context has not won before it |
| Terminal.NoResultNoDone | internal/engine/terminal.go:272-278 | output that ends without a `result` line never yields Done: the stream ends in the timeout and the graceful shutdown |
| Terminal.StructuredEndsInTimeout | internal/engine/terminal.go:268-271 | without a result or a scan error, the decoder ends with "translation timed out" |
| Terminal.IgnoredSkipped | internal/engine/terminal.go:286-290 | a malformed or irrelevant line changes nothing in the stream |
| Terminal.StructuredExample | internal/engine/terminal.go:292-305 | deltas "a", "b" and a result stream "a", "ab", then Done |
| Terminal.TimeoutDistinct | internal/engine/terminal.go:166-171 | a blocking call's error is "translation timed out" exactly when the agent failed after the deadline; no agent-error message equals it |
| Terminal.RawStreamMatchesBlocking | internal/engine/terminal.go:312-359 | for a non-Claude agent whose stdout ends normally, the streamed texts, joined and trimmed, are the blocking result |
| TerminalBase.CommandArgs | internal/engine/terminal_base.go:35 | the base arguments followed by the prompt as the last element |
| TerminalBase.TerminalTranslate | internal/engine/terminal_base.go:25-46 | always Done; empty text runs nothing; success trims stdout; timeout "Translation timed out"; other failures "Terminal agent error: …" |
| TerminalBase.BlockingMatchesStream | internal/engine/terminal_base.go:100-120 | the blocking helper's text is the stream's texts trimmed, and on timeout the stream's last response is the blocking one |
| TerminalBase.TerminalTranslateStream | internal/engine/terminal_base.go:49-124 | empty text streams one {"" Done}; pipe and start failures one error each; otherwise the raw relay with capitalised messages; always well formed |
| TerminalBase.TimeoutKills | internal/engine/terminal_base.go:102-105 | when the context wins, the process is killed without the graceful step and "Translation timed out" ends the stream |
| Yzma.SamplingLastWins | internal/engine/yzma.go:33-37 | the sampling configuration keeps its default unless an option sets it, and then the last `WithYzmaSampling` wins |
| Yzma.ContextSizeLastWins | internal/engine/yzma.go:40-44 | the context size keeps its default unless an option sets it, and then the last `WithYzmaContextSize` wins |
| Yzma.Yzma.constructor | internal/engine/yzma.go:47-58 | default sampling, context 2048, empty gate, no model, uninitialized, then the options |
| Yzma.Yzma.Name | internal/engine/yzma.go:61-63 | the name is "yzma" |
| Yzma.Yzma.Initialize | internal/engine/yzma.go:72-92 | idempotent once initialized; a failed load returns its error and changes nothing; a successful one stores model and vocabulary |
| Yzma.Yzma.Close | internal/engine/yzma.go:95-106 | never fails; a loaded model is forgotten and the engine uninitialized; with no model nothing changes |
| Yzma.Yzma.AcquireModel | internal/engine/yzma.go:110-117 | the slot is taken only when empty; a done context returns its error and leaves the gate as it was |
| Yzma.Yzma.Release | internal/engine/yzma.go:112 | empties the gate and changes nothing else |
| Yzma.Piece | internal/engine/yzma.go:163-176 | the callback receives a step's piece only for a non-EOS token with non-empty text |
| Yzma.Generate | internal/engine/yzma.go:153-184 | at most MaxTokens steps; the context is checked before each; pieces handed over are exactly those of the steps taken; an error is the context's or a decode error; a refusal stops with no error |
| Yzma.Generation0 | internal/engine/yzma.go:123-147 | a setup failure returns its error before any step |
| Yzma.PiecesNonEmpty | internal/engine/yzma.go:168-170 | zero-length pieces are never delivered |
| Yzma.EosNeverDelivered | internal/engine/yzma.go:160-166 | no sampled token precedes EOS, and EOS is never handed to the callback |
| Yzma.StopsOnlyForReason | internal/engine/yzma.go:153-184 | a run that ends before the budget without error or refusal ended on EOS |
| Yzma.RunsToEosOrBudget | internal/engine/yzma.go:153-184 | with nothing failing, generation runs to EOS or to MaxTokens, and a non-positive budget samples nothing |
| Yzma.Yzma.GenerateTokens | internal/engine/yzma.go:123-185 | the loop returns exactly the generation Generate specifies over the model's output for the given prompt |
| Yzma.TranslateResult | internal/engine/yzma.go:206-220 | success is the concatenated pieces, Done; on error the partial text is kept beside "yzma error: …" when non-empty, otherwise an empty response |
| Yzma.StreamAfter | internal/engine/yzma.go:244-263 | one delta per piece sent, then exactly one error or Done; the texts concatenate to the pieces sent |
| Yzma.StreamMatchesBlocking | internal/engine/yzma.go:188-263 | with a callback that never refuses, the stream's texts are the blocking text and both fail together with the same message |
| Yzma.Yzma.Translate | internal/engine/yzma.go:188-221 | empty text returns at once without loading; load and acquire failures are prefixed; otherwise the engine is initialized, holding the freshly loaded model and vocabulary or the ones it already had, and the result is TranslateResult of the generation for `BuildPrompt(req.prompt, req.text, req.sourceLang, req.targetLang)`; the gate is released |
| Yzma.Yzma.TranslateStream | internal/engine/yzma.go:224-266 | loads before looking at the text; a load failure gives no channel and changes nothing; a successful load stores its model and vocabulary, an initialized engine keeps its own; then {"" Done}, the acquire error, or StreamAfter of the generation for the prompt built from the request; the gate is released |
| Ollama.HostLastWins | internal/engine/ollama.go:26-31 | the host option sets only the host, the last one winning |
| Ollama.TimeoutLastWins | internal/engine/ollama.go:33-38 | the timeout option sets only the timeout, the last one winning |
| Ollama.SamplingLastWins | internal/engine/ollama.go:40-45 | the sampling option sets only the sampling, the last one winning |
| Ollama.ClientBase | internal/engine/ollama.go:60-63 | an unparsable host falls back to http://localhost:11434 |
| Ollama.OllamaEngine.constructor | internal/engine/ollama.go:48-74 | host http://localhost:11434, 120 s, default sampling, then the options in order; the client uses ClientBase |
| Ollama.OllamaEngine.WithHost | internal/engine/ollama.go:78-80 | the defaults with only the host set |
| Ollama.OllamaEngine.Name | internal/engine/ollama.go:83-85 | "ollama:" followed by the model name |
| Ollama.OllamaEngine.Close | internal/engine/ollama.go:97-99 | never fails |
| Ollama.OllamaEngine.BuildGenerateRequest | internal/engine/ollama.go:102-112 | model and prompt, and options with exactly the keys temperature, top_p and num_predict taken from the sampling settings |
| Ollama.FailureMessage | internal/engine/ollama.go:133-138 | a context past its deadline gives "translation timed out", anything else "ollama error: …" |
| Ollama.TranslateResult | internal/engine/ollama.go:128-140 | success is the trimmed concatenation of all streamed texts, Done; failure is an empty response with FailureMessage |
| Ollama.OllamaEngine.Translate | internal/engine/ollama.go:115-141 | empty text sends nothing; otherwise the request for the built prompt, the texts collected in order, and TranslateResult |
| Ollama.Relayed | internal/engine/ollama.go:162-168 | each server response is forwarded as {Text: response, Done: done}, in arrival order |
| Ollama.StreamOf | internal/engine/ollama.go:157-178 | the forwarded responses, cut where the callback sees the context done, then at most one error; no response before the last carries an error |
| Ollama.RelayKeepsWellFormed | internal/engine/ollama.go:162-168 | a server stream that ends with its only Done reaches the consumer well formed |
| Ollama.FailureEndsStream | internal/engine/ollama.go:172-177 | any failure ends the stream with one error response, after the responses forwarded unchanged |
| Ollama.StreamMatchesBlocking | internal/engine/ollama.go:115-182 | with a live context, the blocking text is the streamed texts joined and trimmed, and a failed stream ends with the blocking error |
| Ollama.OllamaEngine.TranslateStream | internal/engine/ollama.go:144-182 | empty text streams one {"" Done}; otherwise exactly StreamOf of the call |
| Ollama.OllamaEngine.GetModels | internal/engine/ollama.go:192-211 | one model per listed entry, same length and order, or the listing's error and nil |
| Ollama.OllamaModels | internal/engine/ollama.go:214-237 | one name per listed model, same length and order, or the error and nil |
| Configuration.NormalizeEngineType | internal/config/engine.go:94-99 | the stored type is always valid, equals the argument exactly when it is valid, and is "internal" otherwise |
| Configuration.NormalizeAgent | internal/config/engine.go:107-112 | the stored agent is always valid, equals the argument exactly when it is valid, and is "claude-code" otherwise |
| Configuration.NormalizeTheme | internal/config/general.go:28-33 | the stored theme is always valid, equals the argument exactly when it is valid, and is "system" otherwise |
| Configuration.NormalizeIdempotent | internal/config/engine.go:94-112 | setting the stored value again stores the same value |
| Configuration.DefaultEngineConfig | internal/config/engine.go:60-87 | internal engine, context 2048, Claude Code selected, claude/gemini/codex with 60 s, Ollama at localhost:11434 with llama3.2 and 120 s |
| Configuration.DefaultGeneralConfig | internal/config/general.go:19-24 | theme and language "system" |
| Configuration.DefaultPromptConfig | internal/config/prompt.go:21-26 | the default template and system prompt |
| Configuration.DefaultPromptFilled | internal/config/prompt.go:4-9 | filling the default template puts source, target and text where their placeholders are and keeps the rest |
| Configuration.DefaultPromptPlaceholdersOnce | internal/config/prompt.go:4-9 | each of the three placeholders occurs exactly once in the default template |
| Configuration.SelectedAgent | internal/config/engine.go:116-130 | the record of the selected agent, the Claude Code record for any other value |
| Configuration.SecondsToDuration | internal/config/engine.go:133-136 | seconds times one second, exact while it fits in int64 and wrapped otherwise |
| Configuration.DurationOverflows | internal/config/engine.go:133-136 | ten billion seconds wrap to a negative duration |
| Configuration.Config.Default | internal/config/config.go:18-24 | the three default sections |
| Configuration.Config.SetEngineType | internal/config/engine.go:90-100 | only the engine type changes, to its normalised value |
| Configuration.Config.SetTerminalAgent | internal/config/engine.go:103-113 | only the selected agent changes, to its normalised value |
| Configuration.Config.GetSelectedTerminalAgent | internal/config/engine.go:116-130 | the SelectedAgent record |
| Configuration.Config.GetSelectedTerminalAgentTimeout | internal/config/engine.go:133-136 | the selected agent's seconds as a duration |
| Configuration.Config.GetSelectedTerminalAgentExecutable | internal/config/engine.go:139-142 | the selected agent's executable |
| Configuration.Config.GetSelectedTerminalAgentArgs | internal/config/engine.go:145-153 | nil for nil arguments, otherwise a new slice equal element by element |
| Configuration.Config.SetOllamaHost | internal/config/engine.go:156-161 | only the Ollama host changes |
| Configuration.Config.SetOllamaModel | internal/config/engine.go:164-169 | only the Ollama model changes |
| Configuration.Config.SetInternalModelPath | internal/config/engine.go:172-177 | only the internal model path changes |
| Configuration.Config.SetPrompt | internal/config/prompt.go:29-34 | only the template changes |
| Configuration.Config.SetSystemPrompt | internal/config/prompt.go:37-42 | only the system prompt changes |
| Configuration.Config.ResetPrompt | internal/config/prompt.go:45-51 | the prompt section becomes the default, nothing else changes, and a second reset changes nothing |
| Configuration.Config.SetPromptConfig | internal/config/prompt.go:54-59 | the whole prompt section is replaced and nothing else |
| Configuration.Config.SetTheme | internal/config/general.go:27-34 | only the theme changes, to its normalised value |
| Configuration.Config.SetLanguage | internal/config/general.go:37-39 | only the language changes, to the argument verbatim |

## Left out

- Processes, pipes, `exec.LookPath` and `os.Stat` are not modelled, so neither are the `Available` methods or `AvailableTerminalEngines`, which also depends on map iteration order. What a command printed, how it failed and whether its pipe or start failed are parameters.
- `gracefulShutdown` (SIGTERM, a 3-second wait, then kill) is not modelled; it is the `GracefulShutdown` exit of a relay.
- Goroutines and channels are sequentialised. Only the scheduling choice of which `select` arm wins is kept, as `doneAt`. Blocking sends and the single close of each channel are not modelled.
- The reader's 1024-byte buffer is not modelled: a chunk is whatever one read returned. Bytes are characters.
- JSON decoding of Claude Code lines and `bufio.Scanner` line splitting are not modelled; the decoded events (with a `Malformed` case) and the scanner's error are given.
- The native llama library is not modelled: loading, tokenising, the sampler chain, `Decode` and `TokenToPiece`. What the model produces for a prompt is a given function from the prompt to a sequence of steps, applied to the prompt the engine builds. Pieces longer than the 256-byte buffer are not modelled.
- Yzma.Yzma.Translate: requires the gate to be empty on entry. Concurrent callers, and the mutex around loading, are not modelled, so the blocking wait for a busy gate (`MustWait`) is not followed.
- Yzma.Yzma.TranslateStream: requires the gate to be empty on entry, for the same reason.
- The Ollama HTTP client, the transport settings, the per-request timeout and `url.Parse` are not modelled. What `Generate` and `List` returned, and whether the host parses, are given. The RFC 3339 formatting of a model's modification time is not modelled; the text is given.
- Temperature and top-p are `float32` in the program and are kept as reals, because they are only passed through.
- Strings are sequences of characters, not UTF-8 bytes, so `strings.TrimSpace` works on decoded characters.
- The functional options are a datatype of their three (or two) cases, not closures.
- The `slog` logging calls are not modelled.
- `internal/config/config.go` is not part of this model, apart from `Default()`. Loading, saving and resetting the settings file are file I/O and JSON.
- The Go mutexes that most setters, the getters and `Initialize` take are not modelled; the setters are plain field updates.
- The per-agent files `terminal_claude.go`, `terminal_gemini.go` and `terminal_codex.go` are not part of this model; they only hold constant configurations and call into `terminal_base.go`.
- `terminalTranslate` builds its arguments with `append(cfg.Args, prompt)`, which can write into the shared backing array of `cfg.Args`; this aliasing is not modelled.
