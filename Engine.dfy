/** The engine contract (internal/engine/engine.go): requests, responses, the
    stream discipline every engine follows, sampling defaults and the prompt
    builder shared by all three engines. */
module Engine {
  import opened Strings
  import opened Wrappers

  /** One translation request. */
  datatype Request = Request(text: string, sourceLang: string, targetLang: string,
                             prompt: string, systemPrompt: string)

  /** One response; `error` is "" when Go's `Error` field is unset. */
  datatype Response = Response(text: string, done: bool, error: string)

  /** A response after which nothing more is sent: Done, or an error set
      whatever Done says. */
  predicate IsTerminal(r: Response) {
    r.done || r.error != ""
  }

  /** The stream discipline: every response but the last is a non-terminal
      delta, and the last one is terminal. */
  predicate WellFormedStream(rs: seq<Response>) {
    |rs| > 0 && IsTerminal(rs[|rs| - 1])
    && forall i :: 0 <= i < |rs| - 1 ==> !IsTerminal(rs[i])
  }

  /** A stream still being produced: nothing terminal has been sent yet. */
  predicate OpenStream(rs: seq<Response>) {
    forall i :: 0 <= i < |rs| ==> !IsTerminal(rs[i])
  }

  /** The response every engine sends for a request with empty text. */
  const EmptyDone := Response("", true, "")

  /** `Response{}`, returned beside a Go error. */
  const NoResponse := Response("", false, "")

  /** All the texts of a stream, in order. */
  function Joined(rs: seq<Response>): (r: string)
    ensures |rs| == 1 ==> r == rs[0].text
  {
    if rs == [] then "" else Joined(rs[..|rs| - 1]) + rs[|rs| - 1].text
  }

  lemma {:induction false} JoinedAppend(a: seq<Response>, b: seq<Response>)
    ensures Joined(a + b) == Joined(a) + Joined(b)
    decreases |b|
  {
    if b == [] {
      assert a + b == a;
    } else {
      var b' := b[..|b| - 1];
      assert (a + b)[..|a + b| - 1] == a + b';
      JoinedAppend(a, b');
    }
  }

  /** Extending an open stream by one response keeps the discipline. */
  lemma PrependOpen(r: Response, rest: seq<Response>)
    requires !IsTerminal(r)
    ensures OpenStream(rest) ==> OpenStream([r] + rest)
    ensures WellFormedStream(rest) ==> WellFormedStream([r] + rest)
  {
  }

  /** One non-terminal response per chunk of text, in order. */
  function ChunkResponses(cs: seq<string>): (rs: seq<Response>)
    ensures |rs| == |cs| && OpenStream(rs)
    ensures forall k :: 0 <= k < |cs| ==> rs[k] == Response(cs[k], false, "")
  {
    seq(|cs|, k requires 0 <= k < |cs| => Response(cs[k], false, ""))
  }

  /** The texts of the chunk responses add up to the chunks. */
  lemma {:induction false} JoinedChunks(cs: seq<string>)
    ensures Joined(ChunkResponses(cs)) == Concat(cs)
    decreases |cs|
  {
    if cs != [] {
      var init := cs[..|cs| - 1];
      assert ChunkResponses(cs)[..|cs| - 1] == ChunkResponses(init);
      JoinedChunks(init);
    }
  }

  /** `ErrorResponse`: a terminal response that carries only the message. */
  function ErrorResponse(err: string): (r: Response)
    ensures IsTerminal(r) && r.done
    ensures r.text == "" && r.error == err
  {
    Response("", true, err)
  }

  /** `ErrorResponsef` with the only format shape the engines use, a fixed
      prefix followed by one `%v` operand, so the message is `prefix + arg`. */
  function ErrorResponsef(prefix: string, arg: string): (r: Response)
    ensures IsTerminal(r) && r.done
    ensures r.text == "" && r.error == prefix + arg
  {
    ErrorResponse(prefix + arg)
  }

  /** Sampling parameters. Temperature and TopP are float32 in the source;
      they are only passed through, so they are kept as reals here. */
  datatype SamplingConfig = SamplingConfig(temperature: real, topP: real, maxTokens: int)

  function DefaultSamplingConfig(): (c: SamplingConfig)
    ensures c.temperature == 0.7 && c.topP == 0.9 && c.maxTokens == 512
  {
    SamplingConfig(0.7, 0.9, 512)
  }

  /** The two errors a Go context reports once it is done. */
  datatype CtxErr = Canceled | DeadlineExceeded {
    function Message(): string {
      match this
      case Canceled => "context canceled"
      case DeadlineExceeded => "context deadline exceeded"
    }
  }

  // ---------------------------------------------------------------------
  // BuildPrompt

  const TextPlaceholder := "{{text}}"
  const SourcePlaceholder := "{{source_lang}}"
  const TargetPlaceholder := "{{target_lang}}"

  predicate IsPlaceholder(p: string) {
    p == TextPlaceholder || p == SourcePlaceholder || p == TargetPlaceholder
  }

  predicate StartsWith(s: string, p: string) {
    |p| <= |s| && s[..|p|] == p
  }

  /** Some placeholder occurs in `t`, starting at some position. */
  predicate ContainsPlaceholder(t: string) {
    exists i :: 0 <= i < |t| && StartsWithPlaceholder(t[i..])
  }

  predicate StartsWithPlaceholder(s: string) {
    StartsWith(s, TextPlaceholder) || StartsWith(s, SourcePlaceholder) || StartsWith(s, TargetPlaceholder)
  }

  /** The value that replaces placeholder `p`. */
  function ValueFor(p: string, text: string, sourceLang: string, targetLang: string): string
    requires IsPlaceholder(p)
  {
    if p == TextPlaceholder then text
    else if p == SourcePlaceholder then sourceLang
    else targetLang
  }

  /** The placeholder that matches at the start of `s`, trying them in the
      replacer's argument order. */
  function MatchAt(s: string): (m: Option<string>)
    ensures m.Some? ==> IsPlaceholder(m.value) && StartsWith(s, m.value)
    ensures m.None? ==> !StartsWithPlaceholder(s)
  {
    if StartsWith(s, TextPlaceholder) then Some(TextPlaceholder)
    else if StartsWith(s, SourcePlaceholder) then Some(SourcePlaceholder)
    else if StartsWith(s, TargetPlaceholder) then Some(TargetPlaceholder)
    else None
  }

  /** `strings.NewReplacer("{{text}}", text, "{{source_lang}}", sourceLang,
      "{{target_lang}}", targetLang).Replace(template)`: one left-to-right
      scan; at each position a placeholder is replaced by its value and the
      scan resumes after it, otherwise one character is copied. Replaced
      values are never scanned again. */
  function BuildPrompt(template: string, text: string, sourceLang: string, targetLang: string): (r: string)
    ensures template == [] ==> r == []
    ensures template != [] && !StartsWithPlaceholder(template) ==> |r| > 0 && r[0] == template[0]
    ensures MatchAt(template).Some? ==> ValueFor(MatchAt(template).value, text, sourceLang, targetLang) <= r
    decreases |template|
  {
    if template == [] then []
    else match MatchAt(template)
      case Some(p) =>
        ValueFor(p, text, sourceLang, targetLang) + BuildPrompt(template[|p|..], text, sourceLang, targetLang)
      case None =>
        [template[0]] + BuildPrompt(template[1..], text, sourceLang, targetLang)
  }

  /** A template without any placeholder comes back unchanged. */
  lemma {:induction false} NoPlaceholderUnchanged(t: string, text: string, sourceLang: string, targetLang: string)
    requires !ContainsPlaceholder(t)
    ensures BuildPrompt(t, text, sourceLang, targetLang) == t
    decreases |t|
  {
    if t != [] {
      assert t[0..] == t;
      assert !StartsWithPlaceholder(t[0..]);
      forall i | 0 <= i < |t[1..]|
        ensures !StartsWithPlaceholder(t[1..][i..])
      {
        assert t[1..][i..] == t[i + 1..];
      }
      NoPlaceholderUnchanged(t[1..], text, sourceLang, targetLang);
    }
  }

  /** Every placeholder begins with "{{", so text without '{' has none. */
  lemma NoBraceNoPlaceholder(t: string)
    requires forall i :: 0 <= i < |t| ==> t[i] != '{'
    ensures !ContainsPlaceholder(t)
  {
    forall i | 0 <= i < |t|
      ensures !StartsWithPlaceholder(t[i..])
    {
      assert t[i..][0] == t[i];
    }
  }

  /** Past its leading "{{", no placeholder contains another '{'. */
  lemma PlaceholderShape(q: string)
    requires IsPlaceholder(q)
    ensures |q| >= 8 && q[0] == '{' && q[1] == '{'
    ensures forall k :: 2 <= k < |q| ==> q[k] != '{'
  {
  }

  /** A placeholder matched at the start of `a + p + b`, with `a` non-empty,
      lies wholly inside `a`: no match straddles into the placeholder `p`. */
  lemma NoStraddle(a: string, p: string, b: string, q: string)
    requires |a| > 0 && IsPlaceholder(p) && IsPlaceholder(q)
    requires StartsWith(a + p + b, q)
    ensures StartsWith(a, q)
  {
    PlaceholderShape(p);
    PlaceholderShape(q);
    var s := a + p + b;
    assert s[|a|] == p[0] == '{' && s[|a| + 1] == p[1] == '{';
    forall k | 2 <= k < |q|
      ensures s[k] != '{'
    {
      assert s[k] == s[..|q|][k] == q[k];
    }
    assert |q| <= |a|;
    assert a[..|q|] == s[..|q|];
  }

  /** A placeholder at the start of `p + b` is `p` itself: no placeholder is a
      prefix of another, they part at their third or fourth character. */
  lemma MatchAtPlaceholder(p: string, b: string)
    requires IsPlaceholder(p)
    ensures MatchAt(p + b) == Some(p)
  {
    var s := p + b;
    assert s[..|p|] == p;
    assert s[2] == p[2] && s[3] == p[3];
  }

  /** Prefixing a non-empty `a` to a placeholder does not change what matches
      at the start. */
  lemma MatchAtPrefix(a: string, p: string, b: string)
    requires |a| > 0 && IsPlaceholder(p)
    ensures MatchAt(a + p + b) == MatchAt(a)
  {
    var s := a + p + b;
    forall q | IsPlaceholder(q)
      ensures StartsWith(s, q) <==> StartsWith(a, q)
    {
      if StartsWith(s, q) { NoStraddle(a, p, b, q); }
      if StartsWith(a, q) { assert s[..|q|] == a[..|q|]; }
    }
  }

  /** How far one step of the scan advances over `s`. */
  function StepLength(s: string): (n: nat)
    ensures 1 <= n
  {
    match MatchAt(s) case Some(q) => |q| case None => 1
  }

  /** What one step of the scan emits for the front of `s`. */
  function StepOutput(s: string, text: string, sourceLang: string, targetLang: string): string
    requires s != []
  {
    match MatchAt(s)
    case Some(q) => ValueFor(q, text, sourceLang, targetLang)
    case None => [s[0]]
  }

  lemma BuildPromptStep(s: string, text: string, sourceLang: string, targetLang: string)
    requires s != []
    ensures StepLength(s) <= |s|
    ensures BuildPrompt(s, text, sourceLang, targetLang)
            == StepOutput(s, text, sourceLang, targetLang) + BuildPrompt(s[StepLength(s)..], text, sourceLang, targetLang)
  {
  }

  /** The scan is a single pass: a placeholder in the template is replaced by
      its value and the text around it is built independently, so a value
      that itself contains placeholder text is never expanded again. */
  lemma {:induction false} SubstituteAround(a: string, p: string, b: string,
                                            text: string, sourceLang: string, targetLang: string)
    requires IsPlaceholder(p)
    ensures BuildPrompt(a + p + b, text, sourceLang, targetLang)
            == BuildPrompt(a, text, sourceLang, targetLang)
               + ValueFor(p, text, sourceLang, targetLang)
               + BuildPrompt(b, text, sourceLang, targetLang)
    decreases |a|
  {
    if a == [] {
      SubstituteAtFront(p, b, text, sourceLang, targetLang);
      EmptyFront(a, p);
    } else {
      BuildPromptStep(a, text, sourceLang, targetLang);
      SubstituteAround(a[StepLength(a)..], p, b, text, sourceLang, targetLang);
      SubstituteStep(a, p, b, text, sourceLang, targetLang);
    }
  }

  /** The inductive step of SubstituteAround: the claim for what follows the
      first scan step over `a` gives the claim for `a`. */
  lemma SubstituteStep(a: string, p: string, b: string, text: string, sourceLang: string, targetLang: string)
    requires |a| > 0 && IsPlaceholder(p) && StepLength(a) <= |a|
    requires BuildPrompt(a[StepLength(a)..] + p + b, text, sourceLang, targetLang)
             == BuildPrompt(a[StepLength(a)..], text, sourceLang, targetLang)
                + ValueFor(p, text, sourceLang, targetLang)
                + BuildPrompt(b, text, sourceLang, targetLang)
    ensures BuildPrompt(a + p + b, text, sourceLang, targetLang)
            == BuildPrompt(a, text, sourceLang, targetLang)
               + ValueFor(p, text, sourceLang, targetLang)
               + BuildPrompt(b, text, sourceLang, targetLang)
  {
    var n := StepLength(a);
    StepOverPrefix(a, p, b, text, sourceLang, targetLang);
    BuildPromptStep(a, text, sourceLang, targetLang);
    Regroup(BuildPrompt(a + p + b, text, sourceLang, targetLang), BuildPrompt(a, text, sourceLang, targetLang),
            StepOutput(a, text, sourceLang, targetLang), BuildPrompt(a[n..], text, sourceLang, targetLang),
            ValueFor(p, text, sourceLang, targetLang), BuildPrompt(b, text, sourceLang, targetLang));
  }

  lemma EmptyFront(a: string, x: string)
    requires a == []
    ensures a + x == x
  {
  }

  /** Regrouping the pieces of one scan step. */
  lemma Regroup(whole: string, front: string, x: string, r: string, v: string, y: string)
    requires whole == x + (r + v + y) && front == x + r
    ensures whole == front + v + y
  {
  }

  lemma SubstituteAtFront(p: string, b: string, text: string, sourceLang: string, targetLang: string)
    requires IsPlaceholder(p)
    ensures BuildPrompt(p + b, text, sourceLang, targetLang)
            == ValueFor(p, text, sourceLang, targetLang) + BuildPrompt(b, text, sourceLang, targetLang)
  {
    MatchAtPlaceholder(p, b);
    BuildPromptStep(p + b, text, sourceLang, targetLang);
    assert (p + b)[|p|..] == b;
  }

  /** One step of the scan over `a + p + b`, with `a` non-empty, is the step
      over `a` alone. */
  lemma StepOverPrefix(a: string, p: string, b: string, text: string, sourceLang: string, targetLang: string)
    requires |a| > 0 && IsPlaceholder(p)
    ensures StepLength(a) <= |a|
    ensures BuildPrompt(a + p + b, text, sourceLang, targetLang)
            == StepOutput(a, text, sourceLang, targetLang)
               + BuildPrompt(a[StepLength(a)..] + p + b, text, sourceLang, targetLang)
  {
    var s := a + p + b;
    MatchAtPrefix(a, p, b);
    var n := StepLength(a);
    assert StepLength(s) == n;
    assert s[0] == a[0];
    assert StepOutput(s, text, sourceLang, targetLang) == StepOutput(a, text, sourceLang, targetLang);
    BuildPromptStep(s, text, sourceLang, targetLang);
    DropFront(a, p, b, n);
  }

  lemma DropFront(a: string, p: string, b: string, n: nat)
    requires n <= |a|
    ensures (a + p + b)[n..] == a[n..] + p + b
  {
  }

  /** Substituted text is not scanned again: even a value that is itself a
      placeholder comes out literally. */
  lemma ValueNotExpandedAgain(text: string, sourceLang: string, targetLang: string)
    ensures BuildPrompt(TextPlaceholder, text, sourceLang, targetLang) == text
    ensures BuildPrompt(TextPlaceholder, SourcePlaceholder, sourceLang, targetLang) == SourcePlaceholder
  {
    assert "" + TextPlaceholder + "" == TextPlaceholder;
    SubstituteAround("", TextPlaceholder, "", text, sourceLang, targetLang);
    SubstituteAround("", TextPlaceholder, "", SourcePlaceholder, sourceLang, targetLang);
  }

  /** The worked example of the prompt construction, for any values: with
      "hi", "en" and "ko" it reads "Translate hi from en to ko". */
  lemma BuildPromptExample(text: string, sourceLang: string, targetLang: string)
    ensures BuildPrompt("Translate {{text}}" + (" from {{source_lang}}" + " to {{target_lang}}"),
                        text, sourceLang, targetLang)
            == "Translate " + text + (" from " + sourceLang + (" to " + targetLang + ""))
  {
    ExampleTemplateShape();
    TemplateWithSlots("Translate ", TextPlaceholder, " from ", SourcePlaceholder, " to ", TargetPlaceholder, "",
                      text, sourceLang, targetLang);
  }

  /** The example template split into its literals and placeholders. */
  lemma ExampleTemplateShape()
    ensures "Translate {{text}}" + (" from {{source_lang}}" + " to {{target_lang}}")
            == "Translate " + TextPlaceholder + (" from " + SourcePlaceholder + (" to " + TargetPlaceholder + ""))
    ensures NoBrace("Translate ") && NoBrace(" from ") && NoBrace(" to ") && NoBrace("")
  {
    LiteralSplit("Translate ", TextPlaceholder, "Translate {{text}}");
    LiteralSplit(" from ", SourcePlaceholder, " from {{source_lang}}");
    LiteralSplit(" to ", TargetPlaceholder, " to {{target_lang}}");
    EmptyBack(" to " + TargetPlaceholder);
    ExampleLiterals();
  }

  /** Two literals concatenate to a third when the third is the first
      followed by the second, position by position. */
  lemma LiteralSplit(x: string, y: string, z: string)
    requires |z| == |x| + |y|
    requires forall i :: 0 <= i < |x| ==> z[i] == x[i]
    requires forall i :: 0 <= i < |y| ==> z[|x| + i] == y[i]
    ensures x + y == z
  {
  }

  lemma EmptyBack(x: string)
    ensures x + "" == x
  {
  }

  lemma ExampleLiterals()
    ensures NoBrace("Translate ") && NoBrace(" from ") && NoBrace(" to ") && NoBrace("")
  {
  }

  predicate NoBrace(t: string) {
    forall i :: 0 <= i < |t| ==> t[i] != '{'
  }

  /** A literal without '{' is its own prompt. */
  lemma LiteralUnchanged(t: string, text: string, sourceLang: string, targetLang: string)
    requires NoBrace(t)
    ensures BuildPrompt(t, text, sourceLang, targetLang) == t
  {
    NoBraceNoPlaceholder(t);
    NoPlaceholderUnchanged(t, text, sourceLang, targetLang);
  }

  /** A literal, a placeholder, then the rest of the template. */
  lemma SubstituteLiteral(a: string, p: string, b: string, text: string, sourceLang: string, targetLang: string)
    requires NoBrace(a) && IsPlaceholder(p)
    ensures BuildPrompt(a + p + b, text, sourceLang, targetLang)
            == a + ValueFor(p, text, sourceLang, targetLang) + BuildPrompt(b, text, sourceLang, targetLang)
  {
    LiteralUnchanged(a, text, sourceLang, targetLang);
    SubstituteAround(a, p, b, text, sourceLang, targetLang);
  }

  /** A template of three placeholders between brace-free literals is built
      slot by slot. */
  lemma TemplateWithSlots(a: string, p: string, b: string, q: string, c: string, r: string, d: string,
                          text: string, sourceLang: string, targetLang: string)
    requires NoBrace(a) && NoBrace(b) && NoBrace(c) && NoBrace(d)
    requires IsPlaceholder(p) && IsPlaceholder(q) && IsPlaceholder(r)
    ensures BuildPrompt(a + p + (b + q + (c + r + d)), text, sourceLang, targetLang)
            == a + ValueFor(p, text, sourceLang, targetLang)
               + (b + ValueFor(q, text, sourceLang, targetLang)
                  + (c + ValueFor(r, text, sourceLang, targetLang) + d))
  {
    LiteralUnchanged(d, text, sourceLang, targetLang);
    SubstituteLiteral(c, r, d, text, sourceLang, targetLang);
    var tail := c + r + d;
    SubstituteLiteral(b, q, tail, text, sourceLang, targetLang);
    SubstituteLiteral(a, p, b + q + tail, text, sourceLang, targetLang);
  }
}
