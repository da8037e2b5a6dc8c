/** The embedded engine of internal/engine/yzma.go: a local model loaded on
    first use, guarded by a capacity-one gate, generating tokens until the
    end-of-sequence token, the token budget, a cancellation or a refusal of
    the piece callback.

    The native library calls are not part of the model. Loading the model is
    an outcome given to `Initialize`. What the model makes of a prompt is a
    parameter `native`, and the sampling loop reads, for each step of
    `native(prompt)`, a `NativeStep`: whether the context was done at the check, the token the
    sampler drew, the bytes `TokenToPiece` wrote for it, and the error
    `Decode` returned when it was fed back. */
module Yzma {
  import opened Wrappers
  import opened Strings
  import opened Engine

  const DefaultNCtx := 2048
  const ErrorPrefix := "yzma error: "
  const AcquireErrorPrefix := "yzma error: failed to acquire model: "

  datatype YzmaOption = WithYzmaSampling(sampling: SamplingConfig) | WithYzmaContextSize(size: int)

  /** The fields the options may set. */
  datatype Settings = Settings(sampling: SamplingConfig, contextSize: int)

  function ApplyOption(opt: YzmaOption, s: Settings): Settings {
    match opt
    case WithYzmaSampling(c) => s.(sampling := c)
    case WithYzmaContextSize(n) => s.(contextSize := n)
  }

  function ApplyOptions(s: Settings, opts: seq<YzmaOption>): Settings
    decreases |opts|
  {
    if opts == [] then s else ApplyOption(opts[|opts| - 1], ApplyOptions(s, opts[..|opts| - 1]))
  }

  /** The sampling configuration keeps its default unless an option sets
      it, and then the last such option wins. */
  lemma {:induction false} SamplingLastWins(s: Settings, opts: seq<YzmaOption>)
    ensures (forall k :: 0 <= k < |opts| ==> !opts[k].WithYzmaSampling?) ==> ApplyOptions(s, opts).sampling == s.sampling
    ensures forall j :: (0 <= j < |opts| && opts[j].WithYzmaSampling?
                         && forall k :: j < k < |opts| ==> !opts[k].WithYzmaSampling?) ==> ApplyOptions(s, opts).sampling == opts[j].sampling
    decreases |opts|
  {
    if opts != [] {
      var init := opts[..|opts| - 1];
      SamplingLastWins(s, init);
      var r := ApplyOptions(s, opts);
      assert r == ApplyOption(opts[|opts| - 1], ApplyOptions(s, init));
      forall j | 0 <= j < |opts| && opts[j].WithYzmaSampling?
                 && forall k :: j < k < |opts| ==> !opts[k].WithYzmaSampling?
        ensures r.sampling == opts[j].sampling
      {
        if j < |opts| - 1 {
          assert init[j] == opts[j];
          assert forall k :: j < k < |init| ==> init[k] == opts[k];
        }
      }
      if forall k :: 0 <= k < |opts| ==> !opts[k].WithYzmaSampling? {
        assert forall k :: 0 <= k < |init| ==> init[k] == opts[k];
      }
    }
  }

  /** The context size keeps its default unless an option sets it, and then
      the last such option wins. */
  lemma {:induction false} ContextSizeLastWins(s: Settings, opts: seq<YzmaOption>)
    ensures (forall k :: 0 <= k < |opts| ==> !opts[k].WithYzmaContextSize?) ==> ApplyOptions(s, opts).contextSize == s.contextSize
    ensures forall j :: (0 <= j < |opts| && opts[j].WithYzmaContextSize?
                         && forall k :: j < k < |opts| ==> !opts[k].WithYzmaContextSize?) ==> ApplyOptions(s, opts).contextSize == opts[j].size
    decreases |opts|
  {
    if opts != [] {
      var init := opts[..|opts| - 1];
      ContextSizeLastWins(s, init);
      var r := ApplyOptions(s, opts);
      assert r == ApplyOption(opts[|opts| - 1], ApplyOptions(s, init));
      forall j | 0 <= j < |opts| && opts[j].WithYzmaContextSize?
                 && forall k :: j < k < |opts| ==> !opts[k].WithYzmaContextSize?
        ensures r.contextSize == opts[j].size
      {
        if j < |opts| - 1 {
          assert init[j] == opts[j];
          assert forall k :: j < k < |init| ==> init[k] == opts[k];
        }
      }
      if forall k :: 0 <= k < |opts| ==> !opts[k].WithYzmaContextSize? {
        assert forall k :: 0 <= k < |init| ==> init[k] == opts[k];
      }
    }
  }

  /** What `ModelLoadFromFile` (and `ModelGetVocab`) gave back. */
  datatype LoadOutcome = Loaded(model: nat, vocab: nat) | LoadFailed(err: string)

  /** The two arms of `acquireModel`'s select: the send into the gate, or
      the context's error. */
  datatype Acquire = Acquired | AcquireFailed(err: CtxErr) | MustWait

  // ---------------------------------------------------------------------
  // The generation loop

  /** One iteration of the sampling loop as the native library saw it. */
  datatype NativeStep = NativeStep(cancelled: Option<CtxErr>, token: int, piece: string, decodeErr: Option<string>)

  /** What one step hands to the callback: the piece of a token other than
      EOS, when it is not empty. */
  function Piece(s: NativeStep, eos: int): (p: seq<string>)
    ensures |p| <= 1 && (|p| == 1 ==> p[0] == s.piece && p[0] != "" && s.token != eos)
  {
    if s.token != eos && s.piece != "" then [s.piece] else []
  }

  /** The pieces of steps `k` up to `n`. */
  function PiecesBetween(step: nat -> NativeStep, eos: int, k: nat, n: nat): seq<string>
    decreases n - k
  {
    if n <= k then [] else Piece(step(k), eos) + PiecesBetween(step, eos, k + 1, n)
  }

  /** What a run of the loop did: the pieces passed to the callback, whether
      the callback refused the last of them, the error returned, and how many
      tokens were sampled. */
  datatype Generation = Generation(offered: seq<string>, refused: bool, err: Option<string>, sampled: nat)

  /** The loop from step `k`, with `acc` already passed to the callback.
      `refuseAt` is the index of the piece the callback answers false to, if
      any. */
  function Generate(step: nat -> NativeStep, eos: int, maxTokens: int, refuseAt: Option<nat>,
                    k: nat, acc: seq<string>): (g: Generation)
    ensures k <= g.sampled && (k < maxTokens ==> g.sampled <= maxTokens)
    ensures g.offered == acc + PiecesBetween(step, eos, k, g.sampled)
    ensures forall i :: k <= i < g.sampled ==> step(i).cancelled.None?
    ensures forall i :: k <= i < g.sampled - 1 ==> step(i).token != eos && step(i).decodeErr.None?
    ensures g.refused ==> g.err.None? && |g.offered| > |acc| && refuseAt == Some(|g.offered| - 1)
    ensures !g.refused && refuseAt.Some? && refuseAt.value >= |acc| ==> refuseAt.value >= |g.offered|
    ensures g.err.Some? ==> || (g.sampled < maxTokens && step(g.sampled).cancelled.Some?
                                && g.err.value == step(g.sampled).cancelled.value.Message())
                            || (g.sampled > k && step(g.sampled - 1).decodeErr == g.err)
    decreases if k < maxTokens then maxTokens - k else 0
  {
    if k >= maxTokens then Generation(acc, false, None, k)
    else
      var s := step(k);
      if s.cancelled.Some? then Generation(acc, false, Some(s.cancelled.value.Message()), k)
      else if s.token == eos then Generation(acc, false, None, k + 1)
      else if s.piece != "" && refuseAt == Some(|acc|) then Generation(acc + [s.piece], true, None, k + 1)
      else
        var acc' := acc + Piece(s, eos);
        if s.decodeErr.Some? then Generation(acc', false, s.decodeErr, k + 1)
        else Generate(step, eos, maxTokens, refuseAt, k + 1, acc')
  }

  /** The whole generation: the setup error, if any, or the loop from the
      first step. */
  function Generation0(setupErr: Option<string>, step: nat -> NativeStep, eos: int, maxTokens: int,
                       refuseAt: Option<nat>): (g: Generation)
    ensures setupErr.Some? ==> g == Generation([], false, setupErr, 0)
    ensures g.refused ==> refuseAt == Some(|g.offered| - 1)
  {
    if setupErr.Some? then Generation([], false, setupErr, 0)
    else Generate(step, eos, maxTokens, refuseAt, 0, [])
  }

  /** Every piece handed to the callback is non-empty. */
  lemma {:induction false} PiecesNonEmpty(step: nat -> NativeStep, eos: int, k: nat, n: nat)
    ensures forall p :: p in PiecesBetween(step, eos, k, n) ==> p != ""
    decreases n - k
  {
    if k < n {
      PiecesNonEmpty(step, eos, k + 1, n);
    }
  }

  /** The EOS token is never handed to the callback, and no sampled token
      comes after it. */
  lemma EosNeverDelivered(step: nat -> NativeStep, eos: int, maxTokens: int, refuseAt: Option<nat>)
    ensures var g := Generate(step, eos, maxTokens, refuseAt, 0, []);
            && (forall i :: 0 <= i < g.sampled - 1 ==> step(i).token != eos)
            && g.offered == PiecesBetween(step, eos, 0, g.sampled)
            && (forall p :: p in g.offered ==> p != "")
  {
    var g := Generate(step, eos, maxTokens, refuseAt, 0, []);
    PiecesNonEmpty(step, eos, 0, g.sampled);
  }

  /** With a callback that never refuses and a library that never fails,
      the loop runs to EOS or to the token budget: a non-positive budget
      samples nothing. */
  lemma RunsToEosOrBudget(step: nat -> NativeStep, eos: int, maxTokens: int)
    requires forall i :: 0 <= i < maxTokens ==> step(i).cancelled.None? && step(i).decodeErr.None?
    ensures var g := Generate(step, eos, maxTokens, None, 0, []);
            && g.err.None? && !g.refused
            && (maxTokens <= 0 ==> g.sampled == 0 && g.offered == [])
            && (g.sampled < maxTokens ==> g.sampled > 0 && step(g.sampled - 1).token == eos)
  {
    var g := Generate(step, eos, maxTokens, None, 0, []);
    if maxTokens > 0 && g.sampled < maxTokens {
      StopsOnlyForReason(step, eos, maxTokens, None, 0, []);
    }
  }

  /** A run that ends before the budget without an error or a refusal ended
      on the EOS token, sampled at or after step `k`. */
  predicate EndedOnEos(step: nat -> NativeStep, eos: int, maxTokens: int, k: nat, g: Generation) {
    g.sampled < maxTokens && g.err.None? && !g.refused ==> g.sampled > k && step(g.sampled - 1).token == eos
  }

  /** The loop stops early only on EOS. */
  lemma {:induction false} StopsOnlyForReason(step: nat -> NativeStep, eos: int, maxTokens: int,
                                              refuseAt: Option<nat>, k: nat, acc: seq<string>)
    requires k < maxTokens
    ensures EndedOnEos(step, eos, maxTokens, k, Generate(step, eos, maxTokens, refuseAt, k, acc))
    decreases maxTokens - k
  {
    var s := step(k);
    GenerateFirst(step, eos, maxTokens, refuseAt, k, acc);
    if s.cancelled.None? && s.token != eos && !(s.piece != "" && refuseAt == Some(|acc|)) && s.decodeErr.None?
       && k + 1 < maxTokens {
      StopsOnlyForReason(step, eos, maxTokens, refuseAt, k + 1, acc + Piece(s, eos));
    }
  }

  /** The first step of the loop, case by case. */
  lemma GenerateFirst(step: nat -> NativeStep, eos: int, maxTokens: int, refuseAt: Option<nat>,
                      k: nat, acc: seq<string>)
    requires k < maxTokens
    ensures var s := step(k);
            var g := Generate(step, eos, maxTokens, refuseAt, k, acc);
            var refuses := s.cancelled.None? && s.token != eos && s.piece != "" && refuseAt == Some(|acc|);
            var plain := s.cancelled.None? && s.token != eos && !(s.piece != "" && refuseAt == Some(|acc|));
            && (s.cancelled.Some? ==> g.err.Some?)
            && (s.cancelled.None? && s.token == eos ==> g.sampled == k + 1 && g.err.None? && !g.refused)
            && (refuses ==> g.refused)
            && (plain && s.decodeErr.Some? ==> g.err.Some?)
            && (plain && s.decodeErr.None? ==> g == Generate(step, eos, maxTokens, refuseAt, k + 1, acc + Piece(s, eos)))
            && (plain && s.decodeErr.None? && k + 1 == maxTokens ==> g.sampled == maxTokens)
  {
  }

  // ---------------------------------------------------------------------
  // The engine

  /** `Translate`'s answer for a finished generation: the pieces
      concatenated, kept beside the error when there are any. */
  function TranslateResult(g: Generation): (r: (Response, Option<string>))
    ensures g.err.None? ==> r == (Response(Concat(g.offered), true, ""), None)
    ensures g.err.Some? ==> r.1 == Some(ErrorPrefix + g.err.value)
    ensures g.err.Some? && Concat(g.offered) != "" ==> r.0 == Response(Concat(g.offered), true, "")
    ensures g.err.Some? && Concat(g.offered) == "" ==> r.0 == NoResponse
  {
    var text := Concat(g.offered);
    if g.err.Some? then
      if |text| > 0 then (Response(text, true, ""), Some(ErrorPrefix + g.err.value))
      else (NoResponse, Some(ErrorPrefix + g.err.value))
    else (Response(text, true, ""), None)
  }

  /** The pieces the streaming callback actually sent: all of them but a
      refused one. */
  function Sent(g: Generation): seq<string> {
    if g.refused && |g.offered| > 0 then g.offered[..|g.offered| - 1] else g.offered
  }

  /** What the streaming goroutine sends after a generation: one delta per
      piece sent, then the error or Done. A refusal, which happens only when
      the context wins over a send, still ends in Done. */
  function StreamAfter(g: Generation): (rs: seq<Response>)
    ensures WellFormedStream(rs)
    ensures Joined(rs) == Concat(Sent(g))
  {
    var deltas := ChunkResponses(Sent(g));
    var last := if g.err.Some? then ErrorResponsef(ErrorPrefix, g.err.value) else EmptyDone;
    JoinedChunks(Sent(g));
    JoinedAppend(deltas, [last]);
    assert Joined([last]) == "";
    assert Joined(deltas + [last]) == Joined(deltas) + "";
    deltas + [last]
  }

  /** With a callback that never refuses, the stream's texts add up to what
      the blocking call returns, and the stream fails exactly when it does. */
  lemma StreamMatchesBlocking(g: Generation)
    requires !g.refused
    ensures var rs := StreamAfter(g);
            var (resp, err) := TranslateResult(g);
            && (err.None? ==> resp.text == Joined(rs) && rs[|rs| - 1] == EmptyDone)
            && (err.Some? ==> rs[|rs| - 1] == ErrorResponse(err.value) && (resp.text == "" || resp.text == Joined(rs)))
  {
  }

  class Yzma {
    var modelPath: string
    var sampling: SamplingConfig
    var contextSize: int
    var model: nat
    var vocab: nat
    var initialized: bool
    /** The number of tokens in the capacity-one `inUse` channel. */
    var inUse: nat

    /** The gate holds at most one token, and an engine that is not
        initialized holds no model. */
    predicate Valid()
      reads this
    {
      inUse <= 1 && (!initialized ==> model == 0 && vocab == 0)
    }

    /** `NewYzma`: default sampling, a 2048-token context, an empty gate and
        no model, then the options in order. */
    constructor (modelPath: string, opts: seq<YzmaOption>)
      ensures Valid()
      ensures this.modelPath == modelPath
      ensures Settings(sampling, contextSize) == ApplyOptions(Settings(DefaultSamplingConfig(), DefaultNCtx), opts)
      ensures model == 0 && vocab == 0 && !initialized && inUse == 0
    {
      this.modelPath := modelPath;
      sampling := DefaultSamplingConfig();
      contextSize := DefaultNCtx;
      model := 0;
      vocab := 0;
      initialized := false;
      inUse := 0;
      new;
      var i := 0;
      while i < |opts|
        invariant 0 <= i <= |opts|
        invariant this.modelPath == modelPath && model == 0 && vocab == 0 && !initialized && inUse == 0
        invariant Settings(sampling, contextSize) == ApplyOptions(Settings(DefaultSamplingConfig(), DefaultNCtx), opts[..i])
      {
        assert opts[..i + 1][..i] == opts[..i];
        var s := ApplyOption(opts[i], Settings(sampling, contextSize));
        sampling := s.sampling;
        contextSize := s.contextSize;
        i := i + 1;
      }
      assert opts[..i] == opts;
    }

    function Name(): (n: string)
      ensures n == "yzma"
    {
      "yzma"
    }

    /** `Initialize`: nothing happens once initialized; otherwise the model
        is loaded, and a failed load leaves the engine uninitialized. */
    method Initialize(load: LoadOutcome) returns (err: Option<string>)
      requires Valid()
      modifies this
      ensures Valid()
      ensures old(initialized) ==> err == None && unchanged(this)
      ensures !old(initialized) && load.LoadFailed? ==> err == Some(load.err) && unchanged(this)
      ensures !old(initialized) && load.Loaded?
              ==> err == None && initialized && model == load.model && vocab == load.vocab
      ensures modelPath == old(modelPath) && sampling == old(sampling) && contextSize == old(contextSize)
      ensures inUse == old(inUse)
    {
      if initialized {
        return None;
      }
      match load
      case LoadFailed(e) =>
        return Some(e);
      case Loaded(m, v) =>
        model := m;
        vocab := v;
        initialized := true;
        return None;
    }

    /** `Close`: frees a loaded model and forgets it; with no model it does
        nothing. It never fails. */
    method Close() returns (err: Option<string>)
      requires Valid()
      modifies this
      ensures Valid()
      ensures err == None
      ensures old(model) != 0 ==> model == 0 && vocab == 0 && !initialized
      ensures old(model) == 0 ==> unchanged(this)
      ensures modelPath == old(modelPath) && sampling == old(sampling) && contextSize == old(contextSize)
      ensures inUse == old(inUse)
    {
      if model != 0 {
        model := 0;
        vocab := 0;
        initialized := false;
      }
      return None;
    }

    /** `acquireModel`: the select between putting a token into the gate,
        possible only when it is empty, and the context's error.
        `ctxDone` is the context's error if it is done; `preferCtx` is the
        arm the select picks when both are ready. */
    method AcquireModel(ctxDone: Option<CtxErr>, preferCtx: bool) returns (r: Acquire)
      requires Valid()
      modifies this
      ensures Valid()
      ensures old(inUse) == 0 && (ctxDone.None? || !preferCtx) ==> r == Acquired && inUse == 1
      ensures ctxDone.Some? && (old(inUse) == 1 || preferCtx) ==> r == AcquireFailed(ctxDone.value) && inUse == old(inUse)
      ensures old(inUse) == 1 && ctxDone.None? ==> r == MustWait && inUse == old(inUse)
      ensures modelPath == old(modelPath) && sampling == old(sampling) && contextSize == old(contextSize)
      ensures model == old(model) && vocab == old(vocab) && initialized == old(initialized)
    {
      var gateReady := inUse == 0;
      if gateReady && (ctxDone.None? || !preferCtx) {
        inUse := inUse + 1;
        return Acquired;
      } else if ctxDone.Some? {
        return AcquireFailed(ctxDone.value);
      } else {
        return MustWait;
      }
    }

    /** The release function `acquireModel` returns: it takes the token out
        of the gate. */
    method Release()
      requires Valid() && inUse == 1
      modifies this
      ensures Valid()
      ensures inUse == 0
      ensures modelPath == old(modelPath) && sampling == old(sampling) && contextSize == old(contextSize)
      ensures model == old(model) && vocab == old(vocab) && initialized == old(initialized)
    {
      inUse := 0;
    }

    /** `generateTokens`: the setup (`InitFromModel`, the prompt's `Decode`)
        fails with `setupErr`, or the sampling loop runs for at most
        `MaxTokens` steps over what the model produces for `prompt`. */
    method GenerateTokens(setupErr: Option<string>, prompt: string, native: string -> nat -> NativeStep,
                          eos: int, refuseAt: Option<nat>)
      returns (g: Generation)
      ensures g == Generation0(setupErr, native(prompt), eos, sampling.maxTokens, refuseAt)
    {
      var step := native(prompt);
      if setupErr.Some? {
        return Generation([], false, setupErr, 0);
      }
      var maxTokens := sampling.maxTokens;
      var offered: seq<string> := [];
      var k: nat := 0;
      while k < maxTokens
        invariant Generate(step, eos, maxTokens, refuseAt, 0, []) == Generate(step, eos, maxTokens, refuseAt, k, offered)
        decreases maxTokens - k
      {
        var s := step(k);
        if s.cancelled.Some? {
          return Generation(offered, false, Some(s.cancelled.value.Message()), k);
        }
        if s.token == eos {
          return Generation(offered, false, None, k + 1);
        }
        assert Piece(s, eos) == if s.piece != "" then [s.piece] else [];
        if s.piece != "" {
          if refuseAt == Some(|offered|) {
            return Generation(offered + [s.piece], true, None, k + 1);
          }
          offered := offered + [s.piece];
        } else {
          assert offered + Piece(s, eos) == offered;
        }
        if s.decodeErr.Some? {
          return Generation(offered, false, s.decodeErr, k + 1);
        }
        k := k + 1;
      }
      return Generation(offered, false, None, k);
    }

    /** `Translate`. Empty text returns at once without loading anything.
        Otherwise the model is loaded if need be, the gate acquired, the
        pieces collected, the gate released, and the collected text returned
        even beside an error when there is some. */
    method Translate(req: Request, load: LoadOutcome, ctxDone: Option<CtxErr>, preferCtx: bool,
                     setupErr: Option<string>, native: string -> nat -> NativeStep, eos: int)
      returns (resp: Response, err: Option<string>)
      requires Valid() && inUse == 0
      modifies this
      ensures Valid() && inUse == 0
      ensures req.text == "" ==> resp == EmptyDone && err == None && unchanged(this)
      ensures req.text != "" && !old(initialized) && load.LoadFailed?
              ==> resp == NoResponse && err == Some(ErrorPrefix + load.err) && unchanged(this)
      ensures req.text != "" && (old(initialized) || load.Loaded?) && ctxDone.Some? && preferCtx
              ==> resp == NoResponse && err == Some(AcquireErrorPrefix + ctxDone.value.Message())
      ensures req.text != "" && (old(initialized) || load.Loaded?) ==> initialized
      ensures req.text != "" && !old(initialized) && load.Loaded? ==> model == load.model && vocab == load.vocab
      ensures old(initialized) ==> model == old(model) && vocab == old(vocab) && initialized
      ensures req.text != "" && (old(initialized) || load.Loaded?) && (ctxDone.None? || !preferCtx)
              ==> var prompt := BuildPrompt(req.prompt, req.text, req.sourceLang, req.targetLang);
                  (resp, err) == TranslateResult(Generation0(setupErr, native(prompt), eos, sampling.maxTokens, None))
      ensures modelPath == old(modelPath) && sampling == old(sampling) && contextSize == old(contextSize)
    {
      if req.text == "" {
        return EmptyDone, None;
      }
      var initErr := Initialize(load);
      if initErr.Some? {
        return NoResponse, Some(ErrorPrefix + initErr.value);
      }
      var prompt := BuildPrompt(req.prompt, req.text, req.sourceLang, req.targetLang);
      var acquired := AcquireModel(ctxDone, preferCtx);
      if acquired.AcquireFailed? {
        return NoResponse, Some(AcquireErrorPrefix + acquired.err.Message());
      }
      var g := GenerateTokens(setupErr, prompt, native, eos, None);
      Release();
      resp, err := TranslateResult(g).0, TranslateResult(g).1;
    }

    /** `TranslateStream`. The model is loaded first, even for empty text,
        and a load failure is returned instead of a channel. The goroutine
        then sends `{"" Done}` for empty text, the acquire error, or one
        delta per piece followed by the error or Done. */
    method TranslateStream(req: Request, load: LoadOutcome, ctxDone: Option<CtxErr>, preferCtx: bool,
                           setupErr: Option<string>, native: string -> nat -> NativeStep, eos: int, refuseAt: Option<nat>)
      returns (initErr: Option<string>, stream: seq<Response>)
      requires Valid() && inUse == 0
      modifies this
      ensures Valid() && inUse == 0
      ensures !old(initialized) && load.LoadFailed? ==> initErr == Some(ErrorPrefix + load.err) && stream == []
      ensures !old(initialized) && load.LoadFailed? ==> unchanged(this)
      ensures !old(initialized) && load.Loaded? ==> model == load.model && vocab == load.vocab
      ensures old(initialized) ==> model == old(model) && vocab == old(vocab) && initialized
      ensures initErr.None? ==> initialized && WellFormedStream(stream)
      ensures (old(initialized) || load.Loaded?) && req.text == "" ==> initErr == None && stream == [EmptyDone]
      ensures (old(initialized) || load.Loaded?) && req.text != "" && ctxDone.Some? && preferCtx
              ==> initErr == None && stream == [ErrorResponsef(AcquireErrorPrefix, ctxDone.value.Message())]
      ensures (old(initialized) || load.Loaded?) && req.text != "" && (ctxDone.None? || !preferCtx)
              ==> var prompt := BuildPrompt(req.prompt, req.text, req.sourceLang, req.targetLang);
                  initErr == None && stream == StreamAfter(Generation0(setupErr, native(prompt), eos, sampling.maxTokens, refuseAt))
      ensures modelPath == old(modelPath) && sampling == old(sampling) && contextSize == old(contextSize)
    {
      var e := Initialize(load);
      if e.Some? {
        return Some(ErrorPrefix + e.value), [];
      }
      initErr := None;
      if req.text == "" {
        stream := [EmptyDone];
        return;
      }
      var prompt := BuildPrompt(req.prompt, req.text, req.sourceLang, req.targetLang);
      var acquired := AcquireModel(ctxDone, preferCtx);
      if acquired.AcquireFailed? {
        stream := [ErrorResponsef(AcquireErrorPrefix, acquired.err.Message())];
        return;
      }
      var g := GenerateTokens(setupErr, prompt, native, eos, refuseAt);
      Release();
      stream := StreamAfter(g);
    }
  }
}
