/**
 * The pure helpers of the command-line front end: the report's file name,
 * the test a typed location must pass, the model-name fallback for missing
 * API keys, the command-line model override and the progress bar. The
 * prompts, printing, file writing and key lookup around them are left to
 * the caller; key presence comes in as two booleans.
 */
module Cli {
  import opened Wrappers
  import opened Text
  import opened BaseAgent

  /* ---------- the report's file name ---------- */

  const FilePrefix := "food_truck_research_"
  const FileSuffix := ".md"

  /** `location.replace(" ", "_").replace(",", "").lower()` */
  function SafeLocation(location: string): string {
    Lower(RemoveChar(ReplaceChar(location, ' ', '_'), ','))
  }

  /** `f"food_truck_research_{safe_location}.md"` */
  function ReportFilename(location: string): string {
    FilePrefix + SafeLocation(location) + FileSuffix
  }

  /** Replacing one character by another leaves the count of any third character alone. */
  lemma {:induction false} ReplaceKeepsCount(s: string, a: char, b: char, c: char)
    requires c != a && c != b
    ensures Count(ReplaceChar(s, a, b), c) == Count(s, c)
    decreases |s|
  {
    if |s| > 0 {
      assert ReplaceChar(s, a, b)[1..] == ReplaceChar(s[1..], a, b);
      ReplaceKeepsCount(s[1..], a, b, c);
    }
  }

  /** Lower-casing never produces a space or a comma that was not there. */
  lemma LowerKeepsPunctuation(s: string, c: char)
    requires !('a' <= c <= 'z') && !('A' <= c <= 'Z')
    ensures c in Lower(s) <==> c in s
  {
    if c in Lower(s) {
      var i :| 0 <= i < |s| && Lower(s)[i] == c;
      assert s[i] == c;
    }
    if c in s {
      var i :| 0 <= i < |s| && s[i] == c;
      assert Lower(s)[i] == c;
    }
  }

  /**
   * The stem has no space and no comma and is lower-case; it is one
   * character shorter than the location for every comma removed.
   */
  lemma SafeLocationShape(location: string)
    ensures var stem := SafeLocation(location);
      && ' ' !in stem && ',' !in stem && IsLower(stem)
      && |stem| == |location| - Count(location, ',')
  {
    var replaced := ReplaceChar(location, ' ', '_');
    var removed := RemoveChar(replaced, ',');
    assert ' ' !in replaced;
    LowerKeepsPunctuation(removed, ' ');
    LowerKeepsPunctuation(removed, ',');
    LowerIsLower(removed);
    ReplaceKeepsCount(location, ' ', '_', ',');
  }

  /** A location that is already a stem is its own stem: deriving the name twice changes nothing. */
  lemma SafeLocationIdempotent(location: string)
    ensures SafeLocation(SafeLocation(location)) == SafeLocation(location)
  {
    var stem := SafeLocation(location);
    SafeLocationShape(location);
    assert ReplaceChar(stem, ' ', '_') == stem;
    RemoveAbsent(stem, ',');
    LowerOfLower(stem);
  }

  /** Removing a character that is absent changes nothing. */
  lemma {:induction false} RemoveAbsent(s: string, c: char)
    requires c !in s
    ensures RemoveChar(s, c) == s
    decreases |s|
  {
    if |s| > 0 {
      RemoveAbsent(s[1..], c);
      assert [s[0]] + s[1..] == s;
    }
  }

  /** The file name is the prefix, the stem and ".md", so the stem can be read back from it. */
  lemma FilenameCarriesStem(location: string)
    ensures var name := ReportFilename(location);
      && |name| == |FilePrefix| + |SafeLocation(location)| + |FileSuffix|
      && name[|FilePrefix|..|name| - |FileSuffix|] == SafeLocation(location)
      && name[..|FilePrefix|] == FilePrefix
  {
    ThreeParts(FilePrefix, SafeLocation(location), FileSuffix);
  }

  /** Case, spaces against underscores and commas are lost: "A, B" and "a B" share a file. */
  lemma FilenamesCollide()
    ensures ReportFilename("A, B") == ReportFilename("a B")
  {
    assert ReplaceChar("A, B", ' ', '_') == "A,_B";
    assert RemoveChar("A,_B", ',') == "A_B";
    assert Lower("A_B") == "a_b";
    assert ReplaceChar("a B", ' ', '_') == "a_B";
    RemoveAbsent("a_B", ',');
    assert Lower("a_B") == "a_b";
  }

  /* ---------- the location check ---------- */

  /**
   * One pass of `get_location_input`'s loop on a typed line: the stripped
   * line is accepted unless it is empty, has no comma, or splits on commas
   * into fewer than two pieces.
   */
  function CheckLocation(line: string): Option<string> {
    var location := Strip(line);
    if location == "" then None
    else if ',' !in location || |Split(location, ',')| < 2 then None
    else Some(location)
  }

  /**
   * A line is accepted exactly when it contains a comma (the emptiness and
   * piece-count tests add nothing), and what is accepted is the stripped line.
   */
  lemma AcceptedIffComma(line: string)
    ensures CheckLocation(line).Some? <==> ',' in line
    ensures CheckLocation(line).Some? ==> CheckLocation(line).value == Strip(line)
  {
    var location := Strip(line);
    assert !IsSpace(',');
    StripKeepsNonSpace(line, ',');
    SplitLength(location, ',');
  }

  /**
   * The loop over the lines typed, in order: the first accepted line, with
   * the number of lines read; None when every line is rejected.
   */
  method ReadLocation(lines: seq<string>) returns (location: Option<string>, read: nat)
    ensures read <= |lines|
    ensures forall k | 0 <= k < read - 1 :: ',' !in lines[k]
    ensures location.Some? ==> read > 0 && ',' in lines[read - 1] && location.value == Strip(lines[read - 1])
    ensures location.None? ==> read == |lines| && forall k | 0 <= k < |lines| :: ',' !in lines[k]
  {
    read := 0;
    location := None;
    while read < |lines|
      invariant read <= |lines|
      invariant forall k | 0 <= k < read :: ',' !in lines[k]
      decreases |lines| - read
    {
      var checked := CheckLocation(lines[read]);
      AcceptedIffComma(lines[read]);
      read := read + 1;
      if checked.Some? {
        location := checked;
        return;
      }
    }
  }

  /* ---------- the model name ---------- */

  const DefaultModel := "gpt-4"
  const ClaudeFallback := "claude-3-sonnet-20240229"

  /** `os.getenv("MODEL_NAME", "gpt-4")`: a set variable is used even when empty. */
  function ConfiguredModel(variable: Option<string>): string {
    if variable.Some? then variable.value else DefaultModel
  }

  /**
   * `get_model_config`'s fallback: a Claude name without an Anthropic key
   * becomes "gpt-4"; otherwise a GPT name without an OpenAI key becomes
   * the Claude fallback; any other name is kept.
   */
  function ModelFallback(modelName: string, hasOpenAiKey: bool, hasAnthropicKey: bool): string {
    if Contains(Lower(modelName), "claude") && !hasAnthropicKey then DefaultModel
    else if Contains(Lower(modelName), "gpt") && !hasOpenAiKey then ClaudeFallback
    else modelName
  }

  /** The Claude fallback is already lower-case. */
  lemma ClaudeFallbackIsLower()
    ensures Lower(ClaudeFallback) == ClaudeFallback
  {
    var a, b, c := "claude", "-3-sonnet-", "20240229";
    assert ClaudeFallback == a + b + c;
    LowerOfLower(a);
    LowerOfLower(b);
    LowerOfLower(c);
    LowerAppend(a, b);
    LowerAppend(a + b, c);
  }

  /** The Claude fallback has no 'p', and begins with "claude". */
  lemma ClaudeFallbackChars()
    ensures 'p' !in ClaudeFallback
    ensures ClaudeFallback == "" + "claude" + "-3-sonnet-20240229"
  {
    var a, b := "claude", "-3-sonnet-20240229";
    assert ClaudeFallback == a + b;
    assert 'p' !in a && 'p' !in b;
  }

  /** The Claude fallback names Claude and not GPT. */
  lemma ClaudeFallbackIsClaude()
    ensures Contains(Lower(ClaudeFallback), "claude") && !Contains(Lower(ClaudeFallback), "gpt")
  {
    ClaudeFallbackIsLower();
    ClaudeFallbackChars();
    ContainsInfix("", "claude", "-3-sonnet-20240229");
    AbsentChar(ClaudeFallback, "gpt", 1);
  }

  /** "gpt-4" names GPT and not Claude. */
  lemma DefaultModelIsNotClaude()
    ensures Contains(Lower(DefaultModel), "gpt") && !Contains(Lower(DefaultModel), "claude")
  {
    DefaultModelIsGpt();
    LowerOfLower(DefaultModel);
    AbsentChar(DefaultModel, "claude", 0);
  }

  /**
   * With at least one key present (else the program exits) and a name that
   * names GPT or Claude, the client built for the fallback name uses a
   * provider whose key is present; a name whose key is present is kept.
   */
  lemma FallbackHasKey(modelName: string, hasOpenAiKey: bool, hasAnthropicKey: bool)
    requires hasOpenAiKey || hasAnthropicKey
    requires Contains(Lower(modelName), "gpt") || Contains(Lower(modelName), "claude")
    ensures var client := InitializeLlm(ModelFallback(modelName, hasOpenAiKey, hasAnthropicKey));
      && (client.provider == OpenAI ==> hasOpenAiKey)
      && (client.provider == Anthropic ==> hasAnthropicKey)
    ensures InitializeLlm(modelName).provider == OpenAI && hasOpenAiKey && (hasAnthropicKey || !Contains(Lower(modelName), "claude"))
        ==> ModelFallback(modelName, hasOpenAiKey, hasAnthropicKey) == modelName
  {
    ClaudeFallbackIsClaude();
    DefaultModelIsNotClaude();
  }

  /** `if model: model_name = model`: a non-empty command-line model replaces the configured one, whatever the keys. */
  function EffectiveModel(configured: string, override: Option<string>): string {
    if override.Some? && override.value != "" then override.value else configured
  }

  /** What `main` does with its arguments. */
  datatype Mode = Interactive | CommandLine(location: string, model: Option<string>)

  /** `main`: a first argument is the location, a second the model; more are ignored. */
  function ParseArgs(argv: seq<string>): Mode {
    if |argv| > 1 then CommandLine(argv[1], if |argv| > 2 then Some(argv[2]) else None)
    else Interactive
  }

  /** An argument list for a mode, after the program name. */
  function ArgsFor(program: string, mode: Mode): seq<string> {
    match mode
    case Interactive => [program]
    case CommandLine(location, None) => [program, location]
    case CommandLine(location, Some(model)) => [program, location, model]
  }

  /** Every mode is reached by the argument list built for it, and arguments past the third change nothing. */
  lemma ArgsRoundTrip(program: string, mode: Mode, extra: seq<string>)
    ensures ParseArgs(ArgsFor(program, mode)) == mode
    ensures mode.CommandLine? && mode.model.Some? ==> ParseArgs(ArgsFor(program, mode) + extra) == mode
  {
  }

  /** A given, non-empty model argument wins over the configuration and the fallback. */
  lemma OverrideWins(argv: seq<string>, variable: Option<string>, hasOpenAiKey: bool, hasAnthropicKey: bool)
    requires |argv| > 2 && argv[2] != ""
    ensures var mode := ParseArgs(argv);
      EffectiveModel(ModelFallback(ConfiguredModel(variable), hasOpenAiKey, hasAnthropicKey), mode.model) == argv[2]
  {
  }

  /* ---------- the progress bar ---------- */

  /** `"▓" * current + "▒" * (total - current)` */
  function ProgressBar(current: int, total: int): string {
    Repeat('▓', current) + Repeat('▒', total - current)
  }

  /** The count of a character over a concatenation. */
  lemma {:induction false} CountAppend(a: string, b: string, c: char)
    ensures Count(a + b, c) == Count(a, c) + Count(b, c)
    decreases |a|
  {
    if |a| == 0 {
      assert a + b == b;
    } else {
      assert (a + b)[1..] == a[1..] + b;
      CountAppend(a[1..], b, c);
    }
  }

  /** `n` copies of `c` hold `c` exactly `n` times. */
  lemma {:induction false} CountRepeat(c: char, n: nat, d: char)
    ensures Count(Repeat(c, n), d) == if c == d then n else 0
    decreases n
  {
    if n > 0 {
      assert Repeat(c, n)[1..] == Repeat(c, n - 1);
      CountRepeat(c, n - 1, d);
    }
  }

  /**
   * For `0 <= current <= total` the bar is `total` wide, the first
   * `current` cells filled and the rest empty, so `current` can be read
   * back as the number of filled cells.
   */
  lemma ProgressBarShape(current: int, total: int)
    requires 0 <= current <= total
    ensures var bar := ProgressBar(current, total);
      && |bar| == total
      && (forall i | 0 <= i < |bar| :: bar[i] == if i < current then '▓' else '▒')
      && Count(bar, '▓') == current && Count(bar, '▒') == total - current
  {
    ProgressBarCounts(current, total, '▓');
    ProgressBarCounts(current, total, '▒');
  }

  /** The count of either bar character is the count of its run. */
  lemma ProgressBarCounts(current: int, total: int, c: char)
    requires 0 <= current <= total
    ensures Count(ProgressBar(current, total), c)
         == (if c == '▓' then current else 0) + (if c == '▒' then total - current else 0)
  {
    CountAppend(Repeat('▓', current), Repeat('▒', total - current), c);
    CountRepeat('▓', current, c);
    CountRepeat('▒', total - current, c);
  }

  /** Out of range, Python's rule for negative repeats applies: a negative side contributes nothing. */
  lemma ProgressBarOutOfRange(current: int, total: int)
    ensures current > total ==> |ProgressBar(current, total)| == if current < 0 then 0 else current
    ensures current < 0 ==> |ProgressBar(current, total)| == if total - current < 0 then 0 else total - current
  {
  }
}
