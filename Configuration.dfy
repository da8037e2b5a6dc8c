/** The settings of internal/config: defaults, validating enum setters that
    fall back to a default value, plain single-field setters, and selectors
    for the chosen terminal agent. Reading and writing the settings file is
    not part of the model. */
module Configuration {
  import opened Wrappers
  import opened Engine

  // ---------------------------------------------------------------------
  // Enumerations, which are Go string types: any string can be stored

  const EngineInternal := "internal"
  const EngineTerminalAgent := "terminal-agent"
  const EngineOllama := "ollama"

  const AgentClaudeCode := "claude-code"
  const AgentGeminiCLI := "gemini-cli"
  const AgentCodex := "codex"

  const ThemeLight := "light"
  const ThemeDark := "dark"
  const ThemeSystem := "system"

  predicate ValidEngineType(t: string) {
    t == EngineInternal || t == EngineTerminalAgent || t == EngineOllama
  }

  predicate ValidAgent(a: string) {
    a == AgentClaudeCode || a == AgentGeminiCLI || a == AgentCodex
  }

  predicate ValidTheme(t: string) {
    t == ThemeLight || t == ThemeDark || t == ThemeSystem
  }

  /** The value `SetEngineType` stores: the argument when it names an
      engine, "internal" otherwise. */
  function NormalizeEngineType(t: string): (r: string)
    ensures ValidEngineType(r)
    ensures ValidEngineType(t) <==> r == t
    ensures !ValidEngineType(t) ==> r == EngineInternal
  {
    if ValidEngineType(t) then t else EngineInternal
  }

  /** The value `SetTerminalAgent` stores: the argument when it names an
      agent, "claude-code" otherwise. */
  function NormalizeAgent(a: string): (r: string)
    ensures ValidAgent(r)
    ensures ValidAgent(a) <==> r == a
    ensures !ValidAgent(a) ==> r == AgentClaudeCode
  {
    if ValidAgent(a) then a else AgentClaudeCode
  }

  /** The value `SetTheme` stores: the argument when it names a theme,
      "system" otherwise. */
  function NormalizeTheme(t: string): (r: string)
    ensures ValidTheme(r)
    ensures ValidTheme(t) <==> r == t
    ensures !ValidTheme(t) ==> r == ThemeSystem
  {
    if ValidTheme(t) then t else ThemeSystem
  }

  /** Setting a stored value again stores the same value: each normalisation
      is idempotent. */
  lemma NormalizeIdempotent(t: string)
    ensures NormalizeEngineType(NormalizeEngineType(t)) == NormalizeEngineType(t)
    ensures NormalizeAgent(NormalizeAgent(t)) == NormalizeAgent(t)
    ensures NormalizeTheme(NormalizeTheme(t)) == NormalizeTheme(t)
  {
  }

  // ---------------------------------------------------------------------
  // Records

  datatype InternalConfig = InternalConfig(modelPath: string, contextSize: int)

  /** One agent's settings. `args` is `None` for a nil slice, which the
      argument getter keeps apart from an empty one. Timeouts are seconds. */
  datatype TerminalAgentOption = TerminalAgentOption(executable: string, args: Option<seq<string>>, timeout: int)

  datatype TerminalAgentConfig = TerminalAgentConfig(selected: string, claudeCode: TerminalAgentOption,
                                                     geminiCLI: TerminalAgentOption, codex: TerminalAgentOption)

  datatype OllamaConfig = OllamaConfig(host: string, model: string, timeout: int)

  datatype EngineConfig = EngineConfig(engineType: string, internal: InternalConfig,
                                       terminalAgent: TerminalAgentConfig, ollama: OllamaConfig)

  datatype PromptConfig = PromptConfig(template: string, systemPrompt: string)

  datatype GeneralConfig = GeneralConfig(theme: string, language: string)

  function DefaultEngineConfig(): (c: EngineConfig)
    ensures c.engineType == EngineInternal && ValidEngineType(c.engineType)
    ensures c.internal == InternalConfig("", 2048)
    ensures c.terminalAgent.selected == AgentClaudeCode && ValidAgent(c.terminalAgent.selected)
    ensures c.terminalAgent.claudeCode == TerminalAgentOption("claude", None, 60)
    ensures c.terminalAgent.geminiCLI == TerminalAgentOption("gemini", None, 60)
    ensures c.terminalAgent.codex == TerminalAgentOption("codex", None, 60)
    ensures c.ollama == OllamaConfig("http://localhost:11434", "llama3.2", 120)
  {
    EngineConfig(EngineInternal,
                 InternalConfig("", 2048),
                 TerminalAgentConfig(AgentClaudeCode,
                                     TerminalAgentOption("claude", None, 60),
                                     TerminalAgentOption("gemini", None, 60),
                                     TerminalAgentOption("codex", None, 60)),
                 OllamaConfig("http://localhost:11434", "llama3.2", 120))
  }

  function DefaultGeneralConfig(): (g: GeneralConfig)
    ensures g.theme == ThemeSystem && ValidTheme(g.theme) && g.language == "system"
  {
    GeneralConfig(ThemeSystem, "system")
  }

  // ---------------------------------------------------------------------
  // Prompts

  /** The literal text around the placeholders of the default template. */
  const PromptHead := "Translate the following text from "
  const PromptMiddle := " to "
  const PromptTail := ".\n" + "Keep the original formatting and tone.\n"
                      + ("Only return the translated text " + "without any explanations.\n")
                      + "\n" + "Text to translate:\n"

  /** The default template: the source language, the target language and
      the text, in that order, between brace-free literals. */
  const DefaultPrompt := PromptHead + SourcePlaceholder + (PromptMiddle + TargetPlaceholder + (PromptTail + TextPlaceholder))

  const DefaultSystemPrompt := "You are a professional translator. Translate accurately while preserving the original tone, style, and formatting. Only output the translation without explanations."

  function DefaultPromptConfig(): (p: PromptConfig)
    ensures p.template == DefaultPrompt && p.systemPrompt == DefaultSystemPrompt
  {
    PromptConfig(DefaultPrompt, DefaultSystemPrompt)
  }

  lemma NoBraceAppend(a: string, b: string)
    requires NoBrace(a) && NoBrace(b)
    ensures NoBrace(a + b)
  {
    assert forall i :: 0 <= i < |a + b| ==> (a + b)[i] == if i < |a| then a[i] else b[i - |a|];
  }

  lemma PromptLiterals()
    ensures NoBrace(PromptHead) && NoBrace(PromptMiddle) && NoBrace(PromptTail)
  {
    var l1 := ".\n";
    var l2 := "Keep the original formatting and tone.\n";
    var l3a := "Only return the translated text ";
    var l3b := "without any explanations.\n";
    assert NoBrace(l3a);
    assert NoBrace(l3b);
    NoBraceAppend(l3a, l3b);
    var l3 := l3a + l3b;
    var l4 := "\n";
    var l5 := "Text to translate:\n";
    assert NoBrace(l1);
    assert NoBrace(l2);
    assert NoBrace(l3);
    assert NoBrace(l4);
    assert NoBrace(l5);
    NoBraceAppend(l1, l2);
    NoBraceAppend(l1 + l2, l3);
    NoBraceAppend(l1 + l2 + l3, l4);
    NoBraceAppend(l1 + l2 + l3 + l4, l5);
  }

  /** Filling the default template puts each value where its placeholder
      was and keeps the surrounding text. */
  lemma DefaultPromptFilled(text: string, sourceLang: string, targetLang: string)
    ensures BuildPrompt(DefaultPrompt, text, sourceLang, targetLang)
            == PromptHead + sourceLang + (PromptMiddle + targetLang + (PromptTail + text))
  {
    PromptLiterals();
    assert NoBrace("");
    var head, mid, tail := PromptHead, PromptMiddle, PromptTail;
    assert tail + TextPlaceholder + "" == tail + TextPlaceholder;
    assert tail + text + "" == tail + text;
    TemplateWithSlots(head, SourcePlaceholder, mid, TargetPlaceholder, tail, TextPlaceholder, "",
                      text, sourceLang, targetLang);
  }

  /** The number of positions of `s` at which `p` starts. */
  function Occurrences(s: string, p: string): nat
    decreases |s|
  {
    if s == [] then 0 else (if StartsWith(s, p) then 1 else 0) + Occurrences(s[1..], p)
  }

  /** Every placeholder opens with two braces and has none after them. */
  lemma PlaceholderBraces(p: string)
    requires IsPlaceholder(p)
    ensures |p| > 4 && p[0] == '{' && p[1] == '{' && NoBrace(p[2..])
  {
  }

  /** No placeholder starts inside brace-free text. */
  lemma {:induction false} OccurrencesAfterLiteral(a: string, x: string, p: string)
    requires NoBrace(a) && |p| > 0 && p[0] == '{'
    ensures Occurrences(a + x, p) == Occurrences(x, p)
    decreases |a|
  {
    if a != [] {
      assert (a + x)[0] == a[0] != '{';
      StartsWithFirst(a + x, p);
      assert (a + x)[1..] == a[1..] + x;
      assert Occurrences(a + x, p) == Occurrences((a + x)[1..], p);
      assert NoBrace(a[1..]);
      OccurrencesAfterLiteral(a[1..], x, p);
    } else {
      assert a + x == x;
    }
  }

  lemma StartsWithFirst(s: string, p: string)
    requires |s| > 0 && |p| > 0
    ensures StartsWith(s, p) ==> s[0] == p[0]
  {
    if StartsWith(s, p) {
      assert s[..|p|][0] == s[0];
    }
  }

  /** The second to fourth characters of a string that starts with `p`. */
  lemma StartsWithChars(s: string, p: string)
    requires |s| > 3 && |p| > 3
    ensures StartsWith(s, p) ==> s[1] == p[1] && s[2] == p[2] && s[3] == p[3]
  {
    if StartsWith(s, p) {
      assert s[..|p|][1] == s[1] && s[..|p|][2] == s[2] && s[..|p|][3] == s[3];
    }
  }

  /** Two different placeholders already differ in their third or fourth
      character. */
  lemma PlaceholdersDiffer(ph: string, p: string)
    requires IsPlaceholder(ph) && IsPlaceholder(p) && ph != p
    ensures ph[2] != p[2] || ph[3] != p[3]
  {
  }

  /** A placeholder at the front counts once for itself and never for
      another placeholder, and no placeholder starts inside it. */
  lemma OccurrencesAfterPlaceholder(ph: string, x: string, p: string)
    requires IsPlaceholder(ph) && IsPlaceholder(p)
    ensures Occurrences(ph + x, p) == (if ph == p then 1 else 0) + Occurrences(x, p)
  {
    PlaceholderBraces(ph);
    PlaceholderBraces(p);
    if ph != p {
      PlaceholdersDiffer(ph, p);
    }
    OccurrencesAfterOpening(ph, x, p);
  }

  /** The same for any text that opens with two braces, has no brace after
      them, and already differs from `p` in its third or fourth character
      unless it is `p`. */
  lemma OccurrencesAfterOpening(ph: string, x: string, p: string)
    requires |p| > 4 && p[0] == '{' && p[1] == '{'
    requires |ph| > 4 && ph[0] == '{' && ph[1] == '{' && NoBrace(ph[2..])
    requires ph == p || ph[2] != p[2] || ph[3] != p[3]
    ensures Occurrences(ph + x, p) == (if ph == p then 1 else 0) + Occurrences(x, p)
  {
    var s := ph + x;
    assert s[1] == ph[1] && s[2] == ph[2] && s[3] == ph[3];
    StartsWithChars(s, p);
    if ph == p {
      assert s[..|ph|] == ph;
    }
    var t := s[1..];
    assert t == ph[1..] + x;
    assert ph[2..][0] == ph[2] != '{';
    assert t[1] == ph[2] && t[2] == ph[3] && t[3] == ph[4];
    StartsWithChars(t, p);
    assert s[2..] == ph[2..] + x;
    assert t[1..] == s[2..];
    OccurrencesAfterLiteral(ph[2..], x, p);
  }

  /** A brace-free literal followed by a placeholder counts as the
      placeholder alone. */
  lemma OccurrencesOfSlot(a: string, ph: string, x: string, p: string)
    requires NoBrace(a) && IsPlaceholder(ph) && IsPlaceholder(p)
    ensures Occurrences(a + ph + x, p) == (if ph == p then 1 else 0) + Occurrences(x, p)
  {
    assert a + ph + x == a + (ph + x);
    PlaceholderBraces(p);
    OccurrencesAfterLiteral(a, ph + x, p);
    OccurrencesAfterPlaceholder(ph, x, p);
  }

  /** Counting in a template of three slots between brace-free literals. */
  lemma OccurrencesInSlots(a: string, p1: string, b: string, p2: string, c: string, p3: string, p: string)
    requires NoBrace(a) && NoBrace(b) && NoBrace(c)
    requires IsPlaceholder(p1) && IsPlaceholder(p2) && IsPlaceholder(p3) && IsPlaceholder(p)
    ensures Occurrences(a + p1 + (b + p2 + (c + p3)), p)
            == (if p1 == p then 1 else 0) + (if p2 == p then 1 else 0) + (if p3 == p then 1 else 0)
  {
    assert c + p3 == c + p3 + [];
    OccurrencesOfSlot(c, p3, [], p);
    OccurrencesOfSlot(b, p2, c + p3, p);
    OccurrencesOfSlot(a, p1, b + p2 + (c + p3), p);
  }

  /** Each placeholder occurs in the default template exactly once. */
  lemma DefaultPromptPlaceholdersOnce(p: string)
    requires IsPlaceholder(p)
    ensures Occurrences(DefaultPrompt, p) == 1
  {
    PromptLiterals();
    var head, mid, tail := PromptHead, PromptMiddle, PromptTail;
    OccurrencesInSlots(head, SourcePlaceholder, mid, TargetPlaceholder, tail, TextPlaceholder, p);
  }

  // ---------------------------------------------------------------------
  // Selected terminal agent

  /** `GetSelectedTerminalAgent`: the record the selection names, the
      Claude Code record for anything else. */
  function SelectedAgent(t: TerminalAgentConfig): (o: TerminalAgentOption)
    ensures t.selected == AgentGeminiCLI ==> o == t.geminiCLI
    ensures t.selected == AgentCodex ==> o == t.codex
    ensures t.selected != AgentGeminiCLI && t.selected != AgentCodex ==> o == t.claudeCode
  {
    if t.selected == AgentClaudeCode then t.claudeCode
    else if t.selected == AgentGeminiCLI then t.geminiCLI
    else if t.selected == AgentCodex then t.codex
    else t.claudeCode
  }

  const Second := 1_000_000_000
  const TwoTo63 := 0x8000_0000_0000_0000
  const TwoTo64 := 0x1_0000_0000_0000_0000

  /** The int64 arithmetic of `time.Duration`: the value modulo 2^64, read
      as a signed number. */
  function WrapInt64(x: int): (r: int)
    ensures -TwoTo63 <= r < TwoTo63
    ensures (r - x) % TwoTo64 == 0
    ensures -TwoTo63 <= x < TwoTo63 ==> r == x
  {
    (x + TwoTo63) % TwoTo64 - TwoTo63
  }

  /** `time.Duration(seconds) * time.Second`: exact when the product fits
      in 64 bits, wrapped otherwise. */
  function SecondsToDuration(seconds: int): (d: int)
    ensures -TwoTo63 <= d < TwoTo63
    ensures -9_223_372_036 <= seconds <= 9_223_372_036 ==> d == seconds * Second
  {
    WrapInt64(seconds * Second)
  }

  /** Ten billion seconds do not fit: the duration comes out negative. */
  lemma DurationOverflows()
    ensures SecondsToDuration(10_000_000_000) < 0
  {
  }

  // ---------------------------------------------------------------------
  // The settings object

  class Config {
    var general: GeneralConfig
    var engine: EngineConfig
    var prompt: PromptConfig

    /** `Default()`: the three default sections. */
    constructor Default()
      ensures general == DefaultGeneralConfig() && engine == DefaultEngineConfig() && prompt == DefaultPromptConfig()
    {
      general := DefaultGeneralConfig();
      engine := DefaultEngineConfig();
      prompt := DefaultPromptConfig();
    }

    method SetEngineType(t: string)
      modifies this
      ensures engine == old(engine).(engineType := NormalizeEngineType(t))
      ensures general == old(general) && prompt == old(prompt)
    {
      engine := engine.(engineType := NormalizeEngineType(t));
    }

    method SetTerminalAgent(a: string)
      modifies this
      ensures engine == old(engine).(terminalAgent := old(engine).terminalAgent.(selected := NormalizeAgent(a)))
      ensures general == old(general) && prompt == old(prompt)
    {
      engine := engine.(terminalAgent := engine.terminalAgent.(selected := NormalizeAgent(a)));
    }

    function GetSelectedTerminalAgent(): (o: TerminalAgentOption)
      reads this
      ensures o == SelectedAgent(engine.terminalAgent)
    {
      SelectedAgent(engine.terminalAgent)
    }

    function GetSelectedTerminalAgentTimeout(): (d: int)
      reads this
      ensures d == SecondsToDuration(SelectedAgent(engine.terminalAgent).timeout)
    {
      SecondsToDuration(GetSelectedTerminalAgent().timeout)
    }

    function GetSelectedTerminalAgentExecutable(): (e: string)
      reads this
      ensures e == SelectedAgent(engine.terminalAgent).executable
    {
      GetSelectedTerminalAgent().executable
    }

    /** `GetSelectedTerminalAgentArgs`: nil for nil arguments, otherwise a
        new slice holding the same strings, so that the caller cannot alter
        the stored ones. */
    method GetSelectedTerminalAgentArgs() returns (args: array?<string>)
      ensures SelectedAgent(engine.terminalAgent).args.None? ==> args == null
      ensures SelectedAgent(engine.terminalAgent).args.Some? ==> args != null && fresh(args)
      ensures args != null ==> SelectedAgent(engine.terminalAgent).args == Some(args[..])
    {
      var agent := GetSelectedTerminalAgent();
      if agent.args.None? {
        return null;
      }
      var src := agent.args.value;
      args := new string[|src|];
      var i := 0;
      while i < |src|
        invariant 0 <= i <= |src|
        invariant forall k :: 0 <= k < i ==> args[k] == src[k]
      {
        args[i] := src[i];
        i := i + 1;
      }
      assert args[..] == src;
    }

    method SetOllamaHost(host: string)
      modifies this
      ensures engine == old(engine).(ollama := old(engine).ollama.(host := host))
      ensures general == old(general) && prompt == old(prompt)
    {
      engine := engine.(ollama := engine.ollama.(host := host));
    }

    method SetOllamaModel(model: string)
      modifies this
      ensures engine == old(engine).(ollama := old(engine).ollama.(model := model))
      ensures general == old(general) && prompt == old(prompt)
    {
      engine := engine.(ollama := engine.ollama.(model := model));
    }

    method SetInternalModelPath(path: string)
      modifies this
      ensures engine == old(engine).(internal := old(engine).internal.(modelPath := path))
      ensures general == old(general) && prompt == old(prompt)
    {
      engine := engine.(internal := engine.internal.(modelPath := path));
    }

    method SetPrompt(template: string)
      modifies this
      ensures prompt == old(prompt).(template := template)
      ensures general == old(general) && engine == old(engine)
    {
      prompt := prompt.(template := template);
    }

    method SetSystemPrompt(systemPrompt: string)
      modifies this
      ensures prompt == old(prompt).(systemPrompt := systemPrompt)
      ensures general == old(general) && engine == old(engine)
    {
      prompt := prompt.(systemPrompt := systemPrompt);
    }

    /** `ResetPrompt`: both prompt fields back to their defaults; a second
        reset changes nothing. */
    method ResetPrompt()
      modifies this
      ensures prompt == DefaultPromptConfig()
      ensures general == old(general) && engine == old(engine)
      ensures old(prompt) == DefaultPromptConfig() ==> unchanged(this)
    {
      prompt := prompt.(template := DefaultPrompt);
      prompt := prompt.(systemPrompt := DefaultSystemPrompt);
    }

    method SetPromptConfig(p: PromptConfig)
      modifies this
      ensures prompt == p
      ensures general == old(general) && engine == old(engine)
    {
      prompt := p;
    }

    method SetTheme(theme: string)
      modifies this
      ensures general == old(general).(theme := NormalizeTheme(theme))
      ensures engine == old(engine) && prompt == old(prompt)
    {
      general := general.(theme := NormalizeTheme(theme));
    }

    method SetLanguage(language: string)
      modifies this
      ensures general == old(general).(language := language)
      ensures engine == old(engine) && prompt == old(prompt)
    {
      general := general.(language := language);
    }
  }
}
