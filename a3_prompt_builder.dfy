/**
 * a3/prompt_builder.py: `build_prompt_body` assembles an agent's system
 * prompt from its `PromptConfig`.  Unlike src/llm/prompt_builder.py it keeps
 * the role as given, skips a missing instruction instead of failing, numbers
 * the examples inside one section, appends the configured reasoning strategy
 * after the content, and closes with the closing line only when there is an
 * input.  The strategies file the module loads at import time is the
 * `strategies` parameter.
 */
module A3PromptBuilder {
  import opened Wrappers
  import opened Strings
  import opened PromptConfigs
  import PromptBuilder

  // The lead-in of each section.
  const InstructionLead: string := "Your task is as follows:"
  const ContextLead: string := "Here's some background that may help you:\n"
  const ConstraintsLead: string := "Ensure your response follows these rules:"
  const ToneLead: string := "Follow these style and tone guidelines in your response:"
  const FormatLead: string := "Structure your response as follows:"
  const ExamplesLead: string := "Here are some examples to guide your response:"
  const GoalLead: string := "Your goal is to achieve the following outcome:\n"

  /**
   * `format_prompt_section`: the lead-in, a newline, and the string or the
   * list items one per line, each behind `prefix(i)` (i from 1) when a
   * prefix function is given and behind "- " otherwise.
   */
  function FormatPromptSection(leadIn: string, value: Section, prefix: Option<nat -> string>): string {
    leadIn + "\n" + match value
                    case Text(t) => t
                    case Lines(xs) => Join(PrefixedItems(xs, if prefix.Some? then prefix.value else Dash), "\n")
  }

  function RolePart(c: PromptConfig): seq<string> {
    if Given(c.role) then ["You are " + c.role.value + "."] else []
  }

  function SectionPart(leadIn: string, o: Option<Section>, prefix: Option<nat -> string>): seq<string> {
    if SectionGiven(o) then [FormatPromptSection(leadIn, o.value, prefix)] else []
  }

  function ContentPart(input: string): seq<string> {
    if input != "" then [ContentBlock(Strip(input))] else []
  }

  /** The strategy text, stripped, when the configured strategy is truthy, found, and its text is non-empty. */
  function StrategyPart(c: PromptConfig, strategies: map<string, string>): seq<string> {
    if Given(c.reasoningStrategy) && c.reasoningStrategy.value in strategies && strategies[c.reasoningStrategy.value] != ""
    then [Strip(strategies[c.reasoningStrategy.value])]
    else []
  }

  function ClosingPart(input: string): seq<string> {
    if input != "" then [ClosingLine] else []
  }

  /** Everything before the content block: role, instruction, context, constraints, tone, format, examples, goal. */
  function HeadParts(c: PromptConfig): seq<string> {
    RolePart(c)
    + SectionPart(InstructionLead, c.instruction, None)
    + TextPart(ContextLead, c.context)
    + SectionPart(ConstraintsLead, c.outputConstraints, None)
    + SectionPart(ToneLead, c.styleOrTone, None)
    + SectionPart(FormatLead, c.outputFormat, None)
    + SectionPart(ExamplesLead, c.examples, Some(ExamplePrefix))
    + TextPart(GoalLead, c.goal)
  }

  /** The parts of the prompt body, in order. */
  function BodyParts(c: PromptConfig, input: string, strategies: map<string, string>): seq<string> {
    HeadParts(c) + ContentPart(input) + StrategyPart(c, strategies) + ClosingPart(input)
  }

  /** One conditional section step: the section is appended exactly when the entry is truthy. */
  lemma SectionStep(before: seq<string>, after: seq<string>, leadIn: string, o: Option<Section>, prefix: Option<nat -> string>)
    requires SectionGiven(o) ==> after == before + [FormatPromptSection(leadIn, o.value, prefix)]
    requires !SectionGiven(o) ==> after == before
    ensures after == before + SectionPart(leadIn, o, prefix)
  {
  }

  /** The first half of `build_prompt_body`: the role and the seven sections, each only when truthy. */
  method AppendSections(c: PromptConfig) returns (parts: seq<string>)
    ensures parts == HeadParts(c)
  {
    parts := [];
    if Given(c.role) {
      parts := parts + ["You are " + c.role.value + "."];
    }
    ghost var p1 := parts;
    if SectionGiven(c.instruction) {
      parts := parts + [FormatPromptSection(InstructionLead, c.instruction.value, None)];
    }
    SectionStep(p1, parts, InstructionLead, c.instruction, None);
    ghost var p2 := parts;
    if Given(c.context) {
      parts := parts + [ContextLead + c.context.value];
    }
    TextStep(p2, parts, ContextLead, c.context);
    ghost var p3 := parts;
    if SectionGiven(c.outputConstraints) {
      parts := parts + [FormatPromptSection(ConstraintsLead, c.outputConstraints.value, None)];
    }
    SectionStep(p3, parts, ConstraintsLead, c.outputConstraints, None);
    ghost var p4 := parts;
    if SectionGiven(c.styleOrTone) {
      parts := parts + [FormatPromptSection(ToneLead, c.styleOrTone.value, None)];
    }
    SectionStep(p4, parts, ToneLead, c.styleOrTone, None);
    ghost var p5 := parts;
    if SectionGiven(c.outputFormat) {
      parts := parts + [FormatPromptSection(FormatLead, c.outputFormat.value, None)];
    }
    SectionStep(p5, parts, FormatLead, c.outputFormat, None);
    ghost var p6 := parts;
    if SectionGiven(c.examples) {
      parts := parts + [FormatPromptSection(ExamplesLead, c.examples.value, Some(ExamplePrefix))];
    }
    SectionStep(p6, parts, ExamplesLead, c.examples, Some(ExamplePrefix));
    ghost var p7 := parts;
    if Given(c.goal) {
      parts := parts + [GoalLead + c.goal.value];
    }
    TextStep(p7, parts, GoalLead, c.goal);
    HeadAssembled(c, p1, p2, p3, p4, p5, p6, p7, parts);
  }

  /** The prompt body: the parts joined by blank lines. */
  function PromptBody(c: PromptConfig, input: string, strategies: map<string, string>): string {
    Join(BodyParts(c, input, strategies), "\n\n")
  }

  /** `build_prompt_body`: the sections, then the content, the strategy and the closing line, joined by blank lines. */
  method BuildPromptBody(c: PromptConfig, input: string, strategies: map<string, string>) returns (body: string)
    ensures body == PromptBody(c, input, strategies)
  {
    var parts := AppendSections(c);
    ghost var head := parts;
    if input != "" {
      parts := parts + [ContentBlock(Strip(input))];
    }
    AppendIf(head, parts, input != "", ContentBlock(Strip(input)));
    ghost var p9 := parts;
    if Given(c.reasoningStrategy) {
      var strategyPrompt := if c.reasoningStrategy.value in strategies then strategies[c.reasoningStrategy.value] else "";
      if strategyPrompt != "" {
        parts := parts + [Strip(strategyPrompt)];
      }
    }
    StrategyStep(p9, parts, c, strategies);
    ghost var p10 := parts;
    if input != "" {
      parts := parts + [ClosingLine];
    }
    AppendIf(p10, parts, input != "", ClosingLine);
    Assemble(head, p9, p10, parts, c, input, strategies);
    body := Join(parts, "\n\n");
  }

  /** The role step and the seven section steps put together give the head. */
  lemma HeadAssembled(c: PromptConfig, p1: seq<string>, p2: seq<string>, p3: seq<string>, p4: seq<string>,
                      p5: seq<string>, p6: seq<string>, p7: seq<string>, head: seq<string>)
    requires Given(c.role) ==> p1 == ["You are " + c.role.value + "."]
    requires !Given(c.role) ==> p1 == []
    requires p2 == p1 + SectionPart(InstructionLead, c.instruction, None)
    requires p3 == p2 + TextPart(ContextLead, c.context)
    requires p4 == p3 + SectionPart(ConstraintsLead, c.outputConstraints, None)
    requires p5 == p4 + SectionPart(ToneLead, c.styleOrTone, None)
    requires p6 == p5 + SectionPart(FormatLead, c.outputFormat, None)
    requires p7 == p6 + SectionPart(ExamplesLead, c.examples, Some(ExamplePrefix))
    requires head == p7 + TextPart(GoalLead, c.goal)
    ensures head == HeadParts(c)
  {
    assert p1 == RolePart(c);
  }

  /** The strategy step: the stripped text is appended exactly when the strategy is truthy, found and non-empty. */
  lemma StrategyStep(before: seq<string>, after: seq<string>, c: PromptConfig, strategies: map<string, string>)
    requires Given(c.reasoningStrategy) && c.reasoningStrategy.value in strategies && strategies[c.reasoningStrategy.value] != ""
             ==> after == before + [Strip(strategies[c.reasoningStrategy.value])]
    requires !(Given(c.reasoningStrategy) && c.reasoningStrategy.value in strategies && strategies[c.reasoningStrategy.value] != "")
             ==> after == before
    ensures after == before + StrategyPart(c, strategies)
  {
  }

  /** The three tail steps put together give the body's parts. */
  lemma Assemble(head: seq<string>, p9: seq<string>, p10: seq<string>, parts: seq<string>,
                 c: PromptConfig, input: string, strategies: map<string, string>)
    requires head == HeadParts(c)
    requires p9 == head + (if input != "" then [ContentBlock(Strip(input))] else [])
    requires p10 == p9 + StrategyPart(c, strategies)
    requires parts == p10 + (if input != "" then [ClosingLine] else [])
    ensures parts == BodyParts(c, input, strategies)
  {
  }

  /** A configuration with nothing set and no input gives the empty prompt. */
  lemma EmptyConfigEmptyBody(strategies: map<string, string>)
    ensures BodyParts(EmptyConfig, "", strategies) == []
    ensures Join(BodyParts(EmptyConfig, "", strategies), "\n\n") == ""
  {
  }

  /** The role is inserted as given, not stripped or lowered, and opens the prompt. */
  lemma RoleOpensBody(c: PromptConfig, input: string, strategies: map<string, string>)
    requires Given(c.role)
    ensures var parts := BodyParts(c, input, strategies);
            var body := Join(parts, "\n\n");
            && parts[0] == "You are " + c.role.value + "."
            && |body| >= |parts[0]| && body[..|parts[0]|] == parts[0]
  {
    JoinStartsWithFirst(BodyParts(c, input, strategies), "\n\n");
  }

  /**
   * The role sentence, when given, comes first; a truthy instruction
   * follows it directly, and a given context comes right after the
   * instruction, or right after the role when there is no instruction.
   */
  lemma RoleInstructionContextOrder(c: PromptConfig, input: string, strategies: map<string, string>)
    ensures Given(c.role) ==> |BodyParts(c, input, strategies)| > 0
                              && BodyParts(c, input, strategies)[0] == "You are " + c.role.value + "."
    ensures SectionGiven(c.instruction) ==>
              var k := OneIf(Given(c.role));
              |BodyParts(c, input, strategies)| > k
              && BodyParts(c, input, strategies)[k] == FormatPromptSection(InstructionLead, c.instruction.value, None)
    ensures Given(c.context) ==>
              var k := OneIf(Given(c.role)) + OneIf(SectionGiven(c.instruction));
              |BodyParts(c, input, strategies)| > k && BodyParts(c, input, strategies)[k] == ContextLead + c.context.value
  {
    var k, m := OneIf(Given(c.role)), OneIf(SectionGiven(c.instruction));
    assert |RolePart(c)| == k && |SectionPart(InstructionLead, c.instruction, None)| == m;
    if Given(c.context) {
      FrontPart(c, input, strategies, k + m);
    }
    if Given(c.role) {
      FrontPart(c, input, strategies, 0);
    }
    if SectionGiven(c.instruction) {
      FrontPart(c, input, strategies, k);
    }
  }

  /** A body's part at index n, among the role's, the instruction's and the context's parts, is that entry's. */
  lemma FrontPart(c: PromptConfig, input: string, strategies: map<string, string>, n: int)
    requires 0 <= n < |RolePart(c) + SectionPart(InstructionLead, c.instruction, None) + TextPart(ContextLead, c.context)|
    ensures |BodyParts(c, input, strategies)| > n
    ensures BodyParts(c, input, strategies)[n]
         == (RolePart(c) + SectionPart(InstructionLead, c.instruction, None) + TextPart(ContextLead, c.context))[n]
  {
    FrontKept(RolePart(c), SectionPart(InstructionLead, c.instruction, None), TextPart(ContextLead, c.context),
              SectionPart(ConstraintsLead, c.outputConstraints, None), SectionPart(ToneLead, c.styleOrTone, None),
              SectionPart(FormatLead, c.outputFormat, None), SectionPart(ExamplesLead, c.examples, Some(ExamplePrefix)),
              TextPart(GoalLead, c.goal), ContentPart(input), StrategyPart(c, strategies), ClosingPart(input), n);
  }

  /** An empty instruction is skipped: the body is the one without an instruction. */
  lemma EmptyInstructionSkipped(c: PromptConfig, input: string, strategies: map<string, string>)
    requires !SectionGiven(c.instruction)
    ensures BodyParts(c, input, strategies) == BodyParts(c.(instruction := None), input, strategies)
  {
    var d := c.(instruction := None);
    assert SectionPart(InstructionLead, c.instruction, None) == [] == SectionPart(InstructionLead, d.instruction, None);
    assert RolePart(c) == RolePart(d) && StrategyPart(c, strategies) == StrategyPart(d, strategies);
    assert HeadParts(c) == HeadParts(d);
  }

  /**
   * A non-empty input adds exactly two parts: the content block with the
   * stripped input, before the strategy text, and the closing line at the
   * very end.  Without input neither appears.
   */
  lemma InputAddsContentAndClosing(c: PromptConfig, input: string, strategies: map<string, string>)
    requires input != ""
    ensures var without, m := BodyParts(c, "", strategies), |StrategyPart(c, strategies)|;
            && |without| >= m
            && BodyParts(c, input, strategies)
               == without[..|without| - m] + [ContentBlock(Strip(input))] + without[|without| - m..] + [ClosingLine]
  {
    var without := BodyParts(c, "", strategies);
    var s := StrategyPart(c, strategies);
    assert without == HeadParts(c) + s;
    assert without[..|without| - |s|] == HeadParts(c);
    assert without[|without| - |s|..] == s;
  }

  /**
   * A configured strategy whose text is found and non-empty is appended,
   * stripped, after the content block: it is the last part without input
   * and the one before the closing line with input.
   */
  lemma StrategyAfterContent(c: PromptConfig, input: string, strategies: map<string, string>)
    requires Given(c.reasoningStrategy) && c.reasoningStrategy.value in strategies
    requires strategies[c.reasoningStrategy.value] != ""
    ensures var parts, text := BodyParts(c, input, strategies), Strip(strategies[c.reasoningStrategy.value]);
            && (input == "" ==> |parts| >= 1 && parts[|parts| - 1] == text)
            && (input != "" ==> |parts| >= 3 && parts[|parts| - 2] == text && parts[|parts| - 3] == ContentBlock(Strip(input)))
  {
    var text := Strip(strategies[c.reasoningStrategy.value]);
    var head := HeadParts(c);
    assert StrategyPart(c, strategies) == [text];
    if input == "" {
      assert BodyParts(c, input, strategies) == head + [] + [text] + [];
      TailParts(head, [], text, []);
    } else {
      var block := ContentBlock(Strip(input));
      assert BodyParts(c, input, strategies) == head + [block] + [text] + [ClosingLine];
      TailParts(head, [block], text, [ClosingLine]);
    }
  }

  /** The strategy block sits between the content and the closing blocks, each of them one part or none. */
  lemma TailParts(head: seq<string>, content: seq<string>, strategy: string, closing: seq<string>)
    requires |content| == |closing| <= 1
    ensures var parts := head + content + [strategy] + closing;
            && (closing == [] ==> |parts| >= 1 && parts[|parts| - 1] == strategy)
            && (closing != [] ==> |parts| >= 3 && parts[|parts| - 2] == strategy && parts[|parts| - 3] == content[0])
  {
  }

  /** Without a numbering prefix a section is formatted exactly as src/llm/prompt_builder.py formats it. */
  lemma FormatAgreesWithoutPrefix(leadIn: string, value: Section)
    ensures FormatPromptSection(leadIn, value, None) == PromptBuilder.FormatPromptSection(leadIn, value)
  {
  }

  /**
   * The examples section numbers its items from 1: it opens with the
   * lead-in, a newline, "Example 1:", a newline and the first example, and
   * ends with the last example behind its own number.
   */
  lemma ExamplesNumberedFromOne(xs: seq<string>)
    requires |xs| > 0
    ensures var f, first := FormatPromptSection(ExamplesLead, Lines(xs), Some(ExamplePrefix)), ExamplesLead + "\n" + ExamplePrefix(1) + xs[0];
            |f| >= |first| && f[..|first|] == first
    ensures var f, last := FormatPromptSection(ExamplesLead, Lines(xs), Some(ExamplePrefix)), ExamplePrefix(|xs|) + xs[|xs| - 1];
            |f| >= |last| && f[|f| - |last|..] == last
  {
    ExamplesSectionOpening(xs);
    ExamplesSectionClosing(xs);
  }

  lemma ExamplesSectionOpening(xs: seq<string>)
    requires |xs| > 0
    ensures var f, first := FormatPromptSection(ExamplesLead, Lines(xs), Some(ExamplePrefix)), ExamplesLead + "\n" + ExamplePrefix(1) + xs[0];
            |f| >= |first| && f[..|first|] == first
  {
    var items := PrefixedItems(xs, ExamplePrefix);
    var j := Join(items, "\n");
    JoinStartsWithFirst(items, "\n");
    var lead := ExamplesLead + "\n";
    var f := FormatPromptSection(ExamplesLead, Lines(xs), Some(ExamplePrefix));
    assert f == lead + j;
    assert items[0] == ExamplePrefix(1) + xs[0];
    assert f[..|lead| + |items[0]|] == lead + j[..|items[0]|];
  }

  lemma ExamplesSectionClosing(xs: seq<string>)
    requires |xs| > 0
    ensures var f, last := FormatPromptSection(ExamplesLead, Lines(xs), Some(ExamplePrefix)), ExamplePrefix(|xs|) + xs[|xs| - 1];
            |f| >= |last| && f[|f| - |last|..] == last
  {
    var items := PrefixedItems(xs, ExamplePrefix);
    var j := Join(items, "\n");
    JoinEndsWithLast(items, "\n");
    var f := FormatPromptSection(ExamplesLead, Lines(xs), Some(ExamplePrefix));
    assert f == ExamplesLead + "\n" + j;
    assert items[|xs| - 1] == ExamplePrefix(|xs|) + xs[|xs| - 1];
    assert f[|f| - |items[|xs| - 1]|..] == j[|j| - |items[|xs| - 1]|..];
  }
}
