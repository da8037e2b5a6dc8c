/** The Ollama engine of internal/engine/ollama.go: a client of a local
    Ollama server that sends one generate request per translation, with the
    sampling settings as request options, and relays the server's responses.

    The HTTP client is not part of the model. What `Generate` delivered to
    the callback and the error it returned are a `GenerateCall`; what `List`
    returned is a `Result`. */
module Ollama {
  import opened Wrappers
  import opened Strings
  import opened Engine

  const DefaultHost := "http://localhost:11434"
  const Second := 1_000_000_000
  const DefaultTimeout := 120 * Second
  const TimedOut := "translation timed out"
  const ErrorPrefix := "ollama error: "

  datatype OllamaOption = WithOllamaHost(host: string) | WithOllamaTimeout(timeout: int) | WithOllamaSampling(sampling: SamplingConfig)

  /** The fields the options may set. */
  datatype Settings = Settings(host: string, timeout: int, sampling: SamplingConfig)

  function ApplyOption(opt: OllamaOption, s: Settings): Settings {
    match opt
    case WithOllamaHost(h) => s.(host := h)
    case WithOllamaTimeout(t) => s.(timeout := t)
    case WithOllamaSampling(c) => s.(sampling := c)
  }

  function ApplyOptions(s: Settings, opts: seq<OllamaOption>): Settings
    decreases |opts|
  {
    if opts == [] then s else ApplyOption(opts[|opts| - 1], ApplyOptions(s, opts[..|opts| - 1]))
  }

  /** The host keeps its default unless an option sets it, and then the
      last such option wins. */
  lemma {:induction false} HostLastWins(s: Settings, opts: seq<OllamaOption>)
    ensures (forall k :: 0 <= k < |opts| ==> !opts[k].WithOllamaHost?) ==> ApplyOptions(s, opts).host == s.host
    ensures forall j :: (0 <= j < |opts| && opts[j].WithOllamaHost?
                         && forall k :: j < k < |opts| ==> !opts[k].WithOllamaHost?) ==> ApplyOptions(s, opts).host == opts[j].host
    decreases |opts|
  {
    if opts != [] {
      var init := opts[..|opts| - 1];
      HostLastWins(s, init);
      assert forall k :: 0 <= k < |init| ==> init[k] == opts[k];
    }
  }

  /** The timeout keeps its default unless an option sets it, and then the
      last such option wins. */
  lemma {:induction false} TimeoutLastWins(s: Settings, opts: seq<OllamaOption>)
    ensures (forall k :: 0 <= k < |opts| ==> !opts[k].WithOllamaTimeout?) ==> ApplyOptions(s, opts).timeout == s.timeout
    ensures forall j :: (0 <= j < |opts| && opts[j].WithOllamaTimeout?
                         && forall k :: j < k < |opts| ==> !opts[k].WithOllamaTimeout?) ==> ApplyOptions(s, opts).timeout == opts[j].timeout
    decreases |opts|
  {
    if opts != [] {
      var init := opts[..|opts| - 1];
      TimeoutLastWins(s, init);
      assert forall k :: 0 <= k < |init| ==> init[k] == opts[k];
    }
  }

  /** The sampling configuration keeps its default unless an option sets
      it, and then the last such option wins. */
  lemma {:induction false} SamplingLastWins(s: Settings, opts: seq<OllamaOption>)
    ensures (forall k :: 0 <= k < |opts| ==> !opts[k].WithOllamaSampling?) ==> ApplyOptions(s, opts).sampling == s.sampling
    ensures forall j :: (0 <= j < |opts| && opts[j].WithOllamaSampling?
                         && forall k :: j < k < |opts| ==> !opts[k].WithOllamaSampling?) ==> ApplyOptions(s, opts).sampling == opts[j].sampling
    decreases |opts|
  {
    if opts != [] {
      var init := opts[..|opts| - 1];
      SamplingLastWins(s, init);
      var r := ApplyOptions(s, opts);
      assert r == ApplyOption(opts[|opts| - 1], ApplyOptions(s, init));
      forall j | 0 <= j < |opts| && opts[j].WithOllamaSampling?
                 && forall k :: j < k < |opts| ==> !opts[k].WithOllamaSampling?
        ensures r.sampling == opts[j].sampling
      {
        if j < |opts| - 1 {
          assert init[j] == opts[j];
          assert forall k :: j < k < |init| ==> init[k] == opts[k];
        }
      }
      if forall k :: 0 <= k < |opts| ==> !opts[k].WithOllamaSampling? {
        assert forall k :: 0 <= k < |init| ==> init[k] == opts[k];
      }
    }
  }

  /** The base URL the API client talks to: the host when it parses as a
      URL, the default host otherwise. */
  function ClientBase(host: string, parses: bool): (base: string)
    ensures parses ==> base == host
    ensures !parses ==> base == DefaultHost
  {
    if parses then host else DefaultHost
  }

  /** One value of the request's options map. */
  datatype OptionValue = Real(r: real) | Int(i: int)

  datatype GenerateRequest = GenerateRequest(model: string, prompt: string, options: map<string, OptionValue>)

  /** One streamed `api.GenerateResponse`. */
  datatype GenerateResponse = GenerateResponse(response: string, done: bool)

  /** What `client.Generate` did when the callback accepts everything: the
      responses it delivered, in order, and the error it returned. */
  datatype GenerateCall = GenerateCall(responses: seq<GenerateResponse>, err: Option<string>)

  /** One entry of the `List` response. The RFC 3339 formatting of the
      modification time is done by the time library and is given here as
      text. */
  datatype ListedModel = ListedModel(name: string, modifiedAt: string, size: int)

  /** `Model`, as `GetModels` returns it. */
  datatype Model = Model(name: string, modifiedAt: string, size: int)

  /** The message of a failed generation: the timeout when the request's
      context ran out, the client's error otherwise. */
  function FailureMessage(err: string, expired: bool): (m: string)
    ensures expired ==> m == TimedOut
    ensures !expired ==> m == ErrorPrefix + err
  {
    if expired then TimedOut else ErrorPrefix + err
  }

  /** What the blocking call returns for a non-empty request. */
  function TranslateResult(call: GenerateCall, expired: bool): (r: (Response, Option<string>))
    ensures call.err.None? ==> r == (Response(TrimSpace(Concat(Texts(call.responses))), true, ""), None)
    ensures call.err.Some? ==> r == (NoResponse, Some(FailureMessage(call.err.value, expired)))
  {
    if call.err.Some? then (NoResponse, Some(FailureMessage(call.err.value, expired)))
    else (Response(TrimSpace(Concat(Texts(call.responses))), true, ""), None)
  }

  /** The texts the server streamed. */
  function Texts(rs: seq<GenerateResponse>): (ts: seq<string>)
    ensures |ts| == |rs| && forall k :: 0 <= k < |rs| ==> ts[k] == rs[k].response
  {
    seq(|rs|, k requires 0 <= k < |rs| => rs[k].response)
  }

  /** The server's responses, forwarded one for one. */
  function Relayed(rs: seq<GenerateResponse>): (out: seq<Response>)
    ensures |out| == |rs|
    ensures forall k :: 0 <= k < |rs| ==> out[k] == Response(rs[k].response, rs[k].done, "")
  {
    seq(|rs|, k requires 0 <= k < |rs| => Response(rs[k].response, rs[k].done, ""))
  }

  /** The streaming goroutine for a non-empty request. The callback checks
      the context before each send: when it is done after `doneAt`
      callbacks, the callback returns the context's error and the client
      returns it. A failure adds one error response; a success adds nothing
      after the server's own responses. The context counts as expired when
      it is done by the time `Generate` returns and its error is the
      deadline. */
  function StreamOf(call: GenerateCall, doneAt: nat, ctxErr: CtxErr): (out: seq<Response>)
    ensures doneAt < |call.responses| ==> |out| == doneAt + 1
    ensures doneAt >= |call.responses| ==> |out| == |call.responses| + (if call.err.Some? then 1 else 0)
    ensures forall k :: 0 <= k < |out| - 1 ==> out[k].error == ""
  {
    var rs := call.responses;
    if doneAt < |rs| then
      Relayed(rs[..doneAt]) + [ErrorResponse(FailureMessage(ctxErr.Message(), ctxErr == DeadlineExceeded))]
    else if call.err.Some? then
      Relayed(rs) + [ErrorResponse(FailureMessage(call.err.value, doneAt == |rs| && ctxErr == DeadlineExceeded))]
    else Relayed(rs)
  }

  /** A server stream that is itself well formed (only its last response is
      Done) reaches the consumer well formed when nothing fails. */
  lemma RelayKeepsWellFormed(call: GenerateCall, doneAt: nat, ctxErr: CtxErr)
    requires doneAt >= |call.responses| && call.err.None?
    requires |call.responses| > 0 && call.responses[|call.responses| - 1].done
    requires forall k :: 0 <= k < |call.responses| - 1 ==> !call.responses[k].done
    ensures WellFormedStream(StreamOf(call, doneAt, ctxErr))
  {
  }

  /** Any failure ends the stream with exactly one error response, and the
      server's responses before it are forwarded unchanged. */
  lemma FailureEndsStream(call: GenerateCall, doneAt: nat, ctxErr: CtxErr)
    requires doneAt < |call.responses| || call.err.Some?
    ensures var out := StreamOf(call, doneAt, ctxErr);
            && |out| > 0 && out[|out| - 1].done && out[|out| - 1].error != ""
            && out[..|out| - 1] == Relayed(call.responses[..|out| - 1])
  {
    var out := StreamOf(call, doneAt, ctxErr);
    var rs := call.responses;
    if doneAt < |rs| {
      assert out[..|out| - 1] == Relayed(rs[..doneAt]);
    } else {
      assert out[..|out| - 1] == Relayed(rs);
      assert rs[..|rs|] == rs;
    }
  }

  lemma {:induction false} JoinedRelayed(rs: seq<GenerateResponse>)
    ensures Joined(Relayed(rs)) == Concat(Texts(rs))
    decreases |rs|
  {
    if rs != [] {
      var init := rs[..|rs| - 1];
      assert Relayed(rs)[..|rs| - 1] == Relayed(init);
      assert Texts(rs)[..|rs| - 1] == Texts(init);
      JoinedRelayed(init);
    }
  }

  /** When the context stays live, the stream and the blocking call agree:
      the blocking text is the stream's texts joined and trimmed, and a
      failing stream's last response carries the blocking call's error. */
  lemma StreamMatchesBlocking(call: GenerateCall, doneAt: nat, ctxErr: CtxErr)
    requires doneAt > |call.responses|
    ensures var out := StreamOf(call, doneAt, ctxErr);
            var (resp, err) := TranslateResult(call, false);
            && (err.None? ==> out == Relayed(call.responses) && resp.text == TrimSpace(Joined(out)))
            && (err.Some? ==> out[|out| - 1] == ErrorResponse(err.value))
  {
    JoinedRelayed(call.responses);
  }

  class OllamaEngine {
    var host: string
    var model: string
    var timeout: int
    var sampling: SamplingConfig
    /** The base URL the API client was built with. */
    var clientBase: string

    /** `NewOllama`: default host, a 120-second timeout and default sampling,
        then the options in order; a host that does not parse as a URL makes
        the client fall back to the default host. */
    constructor (model: string, opts: seq<OllamaOption>, hostParses: bool)
      ensures this.model == model
      ensures Settings(host, timeout, sampling) == ApplyOptions(Settings(DefaultHost, DefaultTimeout, DefaultSamplingConfig()), opts)
      ensures clientBase == ClientBase(host, hostParses)
    {
      this.model := model;
      host := DefaultHost;
      timeout := DefaultTimeout;
      sampling := DefaultSamplingConfig();
      clientBase := DefaultHost;
      new;
      var i := 0;
      while i < |opts|
        invariant 0 <= i <= |opts| && this.model == model
        invariant Settings(host, timeout, sampling) == ApplyOptions(Settings(DefaultHost, DefaultTimeout, DefaultSamplingConfig()), opts[..i])
      {
        assert opts[..i + 1][..i] == opts[..i];
        var s := ApplyOption(opts[i], Settings(host, timeout, sampling));
        host, timeout, sampling := s.host, s.timeout, s.sampling;
        i := i + 1;
      }
      assert opts[..i] == opts;
      clientBase := ClientBase(host, hostParses);
    }

    /** `NewOllamaWithHost`: `NewOllama` with the host option alone. */
    constructor WithHost(host: string, model: string, hostParses: bool)
      ensures this.host == host && this.model == model
      ensures timeout == DefaultTimeout && sampling == DefaultSamplingConfig()
      ensures clientBase == ClientBase(host, hostParses)
    {
      this.host := host;
      this.model := model;
      timeout := DefaultTimeout;
      sampling := DefaultSamplingConfig();
      clientBase := ClientBase(host, hostParses);
    }

    /** The engine's name: "ollama:" followed by the model name. */
    function Name(): (n: string)
      reads this
      ensures |n| == 7 + |model| && n[..7] == "ollama:" && n[7..] == model
    {
      "ollama:" + model
    }

    /** `buildGenerateRequest`: the model, the prompt, and exactly the three
        sampling options under Ollama's names. */
    function BuildGenerateRequest(prompt: string): (r: GenerateRequest)
      reads this
      ensures r.model == model && r.prompt == prompt
      ensures r.options.Keys == {"temperature", "top_p", "num_predict"}
      ensures r.options["temperature"] == Real(sampling.temperature)
      ensures r.options["top_p"] == Real(sampling.topP)
      ensures r.options["num_predict"] == Int(sampling.maxTokens)
    {
      GenerateRequest(model, prompt,
                      map["temperature" := Real(sampling.temperature),
                          "top_p" := Real(sampling.topP),
                          "num_predict" := Int(sampling.maxTokens)])
    }

    /** `Translate`: `{"" Done}` for empty text without a request; otherwise
        the generate request for the built prompt, whose streamed texts are
        collected by the callback and trimmed. `expired` says whether the
        request's context had run out when the client failed. */
    method Translate(req: Request, call: GenerateCall, expired: bool)
      returns (resp: Response, err: Option<string>, sent: Option<GenerateRequest>)
      ensures req.text == "" ==> resp == EmptyDone && err == None && sent == None
      ensures req.text != "" ==> sent == Some(BuildGenerateRequest(BuildPrompt(req.prompt, req.text, req.sourceLang, req.targetLang)))
      ensures req.text != "" ==> (resp, err) == TranslateResult(call, expired)
    {
      if req.text == "" {
        return EmptyDone, None, None;
      }
      sent := Some(BuildGenerateRequest(BuildPrompt(req.prompt, req.text, req.sourceLang, req.targetLang)));
      var result := "";
      var i := 0;
      while i < |call.responses|
        invariant 0 <= i <= |call.responses|
        invariant result == Concat(Texts(call.responses[..i]))
      {
        assert Texts(call.responses[..i + 1]) == Texts(call.responses[..i]) + [call.responses[i].response];
        result := result + call.responses[i].response;
        i := i + 1;
      }
      assert call.responses[..i] == call.responses;
      if call.err.Some? {
        return NoResponse, Some(FailureMessage(call.err.value, expired)), sent;
      }
      return Response(TrimSpace(result), true, ""), None, sent;
    }

    /** `TranslateStream`: `{"" Done}` for empty text; otherwise the server's
        responses relayed as they come, until the callback finds the context
        done, followed by an error response when the call failed. */
    method TranslateStream(req: Request, call: GenerateCall, doneAt: nat, ctxErr: CtxErr)
      returns (stream: seq<Response>, sent: Option<GenerateRequest>)
      ensures req.text == "" ==> stream == [EmptyDone] && sent == None
      ensures req.text != "" ==> sent == Some(BuildGenerateRequest(BuildPrompt(req.prompt, req.text, req.sourceLang, req.targetLang)))
      ensures req.text != "" ==> stream == StreamOf(call, doneAt, ctxErr)
    {
      if req.text == "" {
        return [EmptyDone], None;
      }
      sent := Some(BuildGenerateRequest(BuildPrompt(req.prompt, req.text, req.sourceLang, req.targetLang)));
      var rs := call.responses;
      stream := [];
      var i := 0;
      while i < |rs|
        invariant 0 <= i <= |rs| && i <= doneAt
        invariant stream == Relayed(rs[..i])
      {
        if i == doneAt {
          stream := stream + [ErrorResponse(FailureMessage(ctxErr.Message(), ctxErr == DeadlineExceeded))];
          return;
        }
        assert Relayed(rs[..i + 1]) == Relayed(rs[..i]) + [Response(rs[i].response, rs[i].done, "")];
        stream := stream + [Response(rs[i].response, rs[i].done, "")];
        i := i + 1;
      }
      assert rs[..i] == rs;
      if call.err.Some? {
        stream := stream + [ErrorResponse(FailureMessage(call.err.value, doneAt == |rs| && ctxErr == DeadlineExceeded))];
      }
    }

    /** `Close`: nothing to release. */
    method Close() returns (err: Option<string>)
      ensures err == None
    {
      return None;
    }

    /** `GetModels`: the listed models, one for one and in order, or the
        listing's error and no slice. */
    method GetModels(list: Result<seq<ListedModel>>) returns (models: array?<Model>, err: Option<string>)
      ensures list.Failure? ==> models == null && err == Some(list.error)
      ensures list.Success? ==> err == None && models != null && fresh(models)
      ensures list.Success? && models != null ==> models.Length == |list.value|
      ensures list.Success? && models != null && models.Length == |list.value| ==>
                forall k :: 0 <= k < |list.value| ==>
                  models[k] == Model(list.value[k].name, list.value[k].modifiedAt, list.value[k].size)
    {
      if list.Failure? {
        return null, Some(list.error);
      }
      var ms := list.value;
      var a := new Model[|ms|];
      var i := 0;
      while i < |ms|
        invariant 0 <= i <= |ms|
        invariant forall k :: 0 <= k < i ==> a[k] == Model(ms[k].name, ms[k].modifiedAt, ms[k].size)
      {
        a[i] := Model(ms[i].name, ms[i].modifiedAt, ms[i].size);
        i := i + 1;
      }
      return a, None;
    }
  }

  /** `OllamaModels`: the names of the models a host lists, in order. A host
      that does not parse as a URL is queried at the default host; `base`
      is the host actually queried. */
  method OllamaModels(host: string, hostParses: bool, list: Result<seq<ListedModel>>)
    returns (names: array?<string>, err: Option<string>, base: string)
    ensures base == ClientBase(host, hostParses)
    ensures list.Failure? ==> names == null && err == Some(list.error)
    ensures list.Success? ==> err == None && names != null && fresh(names)
    ensures list.Success? && names != null ==> names.Length == |list.value|
    ensures list.Success? && names != null && names.Length == |list.value| ==>
              forall k :: 0 <= k < |list.value| ==> names[k] == list.value[k].name
  {
    base := ClientBase(host, hostParses);
    if list.Failure? {
      return null, Some(list.error), base;
    }
    var ms := list.value;
    var a := new string[|ms|];
    var i := 0;
    while i < |ms|
      invariant 0 <= i <= |ms|
      invariant forall k :: 0 <= k < i ==> a[k] == ms[k].name
    {
      a[i] := ms[i].name;
      i := i + 1;
    }
    return a, None, base;
  }
}
