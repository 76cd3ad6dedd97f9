/**
 * src/llm/prompt_builder.py: `build_prompt_from_config` assembles a prompt
 * from a configuration dictionary, section by section in a fixed order,
 * and rejects a configuration without an instruction.
 */
module PromptBuilder {
  import opened Wrappers
  import opened Strings
  import opened PromptConfigs

  const MissingInstruction: string := "Missing required field: 'instruction'"

  // The lead-in of each section.
  const InstructionLead: string := "Your task is as follows:"
  const ContextLead: string := "Here’s some background that may help you:\n"
  const ConstraintsLead: string := "Ensure your response follows these rules:"
  const ToneLead: string := "Follow these style and tone guidelines in your response:"
  const FormatLead: string := "Structure your response as follows:"
  const ExamplesHeader: string := "Here are some examples to guide your response:"
  const GoalLead: string := "Your goal is to achieve the following outcome:\n"

  /** `lowercase_first_char`: only the first character is lowered; "" is returned as it is. */
  function LowercaseFirstChar(text: string): (r: string)
    ensures |r| == |text|
    ensures |text| > 0 ==> r[0] == ToLower(text[0]) && r[1..] == text[1..]
  {
    if text == "" then text else [ToLower(text[0])] + text[1..]
  }

  /** `format_prompt_section`: the lead-in, a newline, and the string or the "- item" lines. */
  function FormatPromptSection(leadIn: string, value: Section): string {
    leadIn + "\n" + match value
                    case Text(t) => t
                    case Lines(xs) => Join(PrefixedItems(xs, Dash), "\n")
  }

  /** The role sentence, with the role stripped and its first character lowered. */
  function RoleSentence(role: string): string {
    "You are " + LowercaseFirstChar(Strip(role)) + "."
  }

  /** The examples as their own parts: "Example i:", a newline and the example, numbered from 1. */
  function ExampleParts(xs: seq<string>): seq<string> {
    PrefixedItems(xs, ExamplePrefix)
  }

  // The parts each configuration entry contributes; an entry that is not truthy contributes none.

  function RolePart(c: PromptConfig): seq<string> {
    if Given(c.role) then [RoleSentence(c.role.value)] else []
  }

  function SectionPart(leadIn: string, o: Option<Section>): seq<string> {
    if SectionGiven(o) then [FormatPromptSection(leadIn, o.value)] else []
  }

  function ExamplesPart(o: Option<Section>): seq<string> {
    if !SectionGiven(o) then []
    else match o.value
         case Lines(xs) => [ExamplesHeader] + ExampleParts(xs)
         case Text(t) => [ExamplesHeader, t]
  }

  function ContentPart(input: string): seq<string> {
    if input != "" then [ContentBlock(Strip(input))] else []
  }

  /**
   * The parts of the prompt of a configuration that has an instruction, in
   * the order role, instruction, context, constraints, tone, format,
   * examples, goal, content, closing line.
   */
  function PromptParts(c: PromptConfig, input: string): seq<string>
    requires SectionGiven(c.instruction)
  {
    RolePart(c)
    + [FormatPromptSection(InstructionLead, c.instruction.value)]
    + TextPart(ContextLead, c.context)
    + SectionPart(ConstraintsLead, c.outputConstraints)
    + SectionPart(ToneLead, c.styleOrTone)
    + SectionPart(FormatLead, c.outputFormat)
    + ExamplesPart(c.examples)
    + TextPart(GoalLead, c.goal)
    + ContentPart(input)
    + [ClosingLine]
  }

  /**
   * `build_prompt_from_config`: a `ValueError` when the instruction is
   * missing or empty; otherwise the prompt parts joined by blank lines.
   */
  method BuildPromptFromConfig(c: PromptConfig, input: string) returns (r: Result<string, string>)
    ensures !SectionGiven(c.instruction) ==> r == Failure(MissingInstruction)
    ensures SectionGiven(c.instruction) ==> r == Success(Join(PromptParts(c, input), "\n\n"))
  {
    var parts: seq<string> := [];
    if Given(c.role) {
      parts := parts + [RoleSentence(c.role.value)];
    }
    if !SectionGiven(c.instruction) {
      return Failure(MissingInstruction);
    }
    assert parts == RolePart(c);
    parts := parts + [FormatPromptSection(InstructionLead, c.instruction.value)];
    parts := AppendText(parts, ContextLead, c.context);
    parts := AppendSection(parts, ConstraintsLead, c.outputConstraints);
    parts := AppendSection(parts, ToneLead, c.styleOrTone);
    parts := AppendSection(parts, FormatLead, c.outputFormat);
    parts := AppendExamples(parts, c.examples);
    parts := AppendText(parts, GoalLead, c.goal);
    ghost var beforeContent := parts;
    if input != "" {
      parts := parts + [ContentBlock(Strip(input))];
    }
    assert parts == beforeContent + ContentPart(input);
    parts := parts + [ClosingLine];
    r := Success(Join(parts, "\n\n"));
  }

  /** `if value: parts.append(lead + value)`. */
  method AppendText(parts: seq<string>, lead: string, o: Option<string>) returns (r: seq<string>)
    ensures r == parts + TextPart(lead, o)
  {
    r := parts;
    if Given(o) {
      r := r + [lead + o.value];
    }
  }

  /** `if value: parts.append(format_prompt_section(lead_in, value))`. */
  method AppendSection(parts: seq<string>, leadIn: string, o: Option<Section>) returns (r: seq<string>)
    ensures r == parts + SectionPart(leadIn, o)
  {
    r := parts;
    if SectionGiven(o) {
      r := r + [FormatPromptSection(leadIn, o.value)];
    }
  }

  /** The examples step of `build_prompt_from_config`: the header, then one part per example. */
  method AppendExamples(parts: seq<string>, examples: Option<Section>) returns (r: seq<string>)
    ensures r == parts + ExamplesPart(examples)
  {
    r := parts;
    if SectionGiven(examples) {
      r := r + [ExamplesHeader];
      match examples.value {
        case Lines(xs) =>
          var before := r;
          var i := 0;
          while i < |xs|
            invariant 0 <= i <= |xs|
            invariant r == before + ExampleParts(xs)[..i]
          {
            r := r + [ExamplePrefix(i + 1) + xs[i]];
            i := i + 1;
          }
          assert ExampleParts(xs)[..|xs|] == ExampleParts(xs);
        case Text(t) =>
          r := r + [t];
      }
    }
  }

  /** Every successful prompt ends with the closing line. */
  lemma PromptEndsWithClosingLine(c: PromptConfig, input: string)
    requires SectionGiven(c.instruction)
    ensures var p := Join(PromptParts(c, input), "\n\n");
            |p| >= |ClosingLine| && p[|p| - |ClosingLine|..] == ClosingLine
  {
    JoinEndsWithLast(PromptParts(c, input), "\n\n");
  }

  /** The prompt opens with the role sentence when a role is given, and with the instruction otherwise. */
  lemma PromptOpening(c: PromptConfig, input: string)
    requires SectionGiven(c.instruction)
    ensures var p, first := Join(PromptParts(c, input), "\n\n"), PromptParts(c, input)[0];
            && first == (if Given(c.role) then RoleSentence(c.role.value)
                         else FormatPromptSection(InstructionLead, c.instruction.value))
            && |p| >= |first| && p[..|first|] == first
  {
    JoinStartsWithFirst(PromptParts(c, input), "\n\n");
  }

  /**
   * A non-empty input adds exactly the content block, holding the stripped
   * input, just before the closing line; every other part is as without it.
   */
  lemma InputAddsContentBlock(c: PromptConfig, input: string)
    requires SectionGiven(c.instruction) && input != ""
    ensures var without := PromptParts(c, "");
            PromptParts(c, input) == without[..|without| - 1] + [ContentBlock(Strip(input)), ClosingLine]
  {
    var without := PromptParts(c, "");
    assert without[..|without| - 1] + [ClosingLine] == without;
  }

  /**
   * The role sentence, when given, comes first; the instruction section
   * follows it directly, and a given context comes right after the
   * instruction, so the role precedes the context.
   */
  lemma RoleInstructionContextOrder(c: PromptConfig, input: string)
    requires SectionGiven(c.instruction)
    ensures Given(c.role) ==> |PromptParts(c, input)| > 0 && PromptParts(c, input)[0] == RoleSentence(c.role.value)
    ensures var k := OneIf(Given(c.role));
            |PromptParts(c, input)| > k
            && PromptParts(c, input)[k] == FormatPromptSection(InstructionLead, c.instruction.value)
    ensures Given(c.context) ==>
              var k := OneIf(Given(c.role));
              |PromptParts(c, input)| > k + 1 && PromptParts(c, input)[k + 1] == ContextLead + c.context.value
  {
    RoleFirst(c, input);
    InstructionAfterRole(c, input);
    ContextAfterInstruction(c, input);
  }

  lemma RoleFirst(c: PromptConfig, input: string)
    requires SectionGiven(c.instruction)
    ensures Given(c.role) ==> |PromptParts(c, input)| > 0 && PromptParts(c, input)[0] == RoleSentence(c.role.value)
  {
    if Given(c.role) {
      FrontPart(c, input, 0);
    }
  }

  lemma InstructionAfterRole(c: PromptConfig, input: string)
    requires SectionGiven(c.instruction)
    ensures var k := OneIf(Given(c.role));
            |PromptParts(c, input)| > k
            && PromptParts(c, input)[k] == FormatPromptSection(InstructionLead, c.instruction.value)
  {
    var k := OneIf(Given(c.role));
    assert |RolePart(c)| == k;
    FrontPart(c, input, k);
  }

  lemma ContextAfterInstruction(c: PromptConfig, input: string)
    requires SectionGiven(c.instruction)
    ensures Given(c.context) ==>
              var k := OneIf(Given(c.role));
              |PromptParts(c, input)| > k + 1 && PromptParts(c, input)[k + 1] == ContextLead + c.context.value
  {
    if Given(c.context) {
      var k := OneIf(Given(c.role));
      var r, ins, ctx := RolePart(c), [FormatPromptSection(InstructionLead, c.instruction.value)], TextPart(ContextLead, c.context);
      assert |r| == k && ctx == [ContextLead + c.context.value];
      assert (r + ins + ctx)[k + 1] == ctx[0];
      FrontPart(c, input, k + 1);
    }
  }

  /** A prompt's part at index n, among the role's, the instruction's and the context's parts, is that entry's. */
  lemma FrontPart(c: PromptConfig, input: string, n: int)
    requires SectionGiven(c.instruction)
    requires 0 <= n < |RolePart(c)| + 1 + |TextPart(ContextLead, c.context)|
    ensures |PromptParts(c, input)| > n
    ensures PromptParts(c, input)[n]
         == (RolePart(c) + [FormatPromptSection(InstructionLead, c.instruction.value)] + TextPart(ContextLead, c.context))[n]
  {
    FrontKept(RolePart(c), [FormatPromptSection(InstructionLead, c.instruction.value)], TextPart(ContextLead, c.context),
              SectionPart(ConstraintsLead, c.outputConstraints), SectionPart(ToneLead, c.styleOrTone),
              SectionPart(FormatLead, c.outputFormat), ExamplesPart(c.examples), TextPart(GoalLead, c.goal),
              ContentPart(input), [ClosingLine], [], n);
  }

  /**
   * A given goal is the last section: it comes right before the content
   * block when there is an input, and right before the closing line
   * otherwise.
   */
  lemma GoalIsLastSection(c: PromptConfig, input: string)
    requires SectionGiven(c.instruction) && Given(c.goal)
    ensures var parts, m := PromptParts(c, input), OneIf(input != "");
            && |parts| >= m + 2
            && parts[|parts| - 2 - m] == GoalLead + c.goal.value
            && (input != "" ==> parts[|parts| - 2] == ContentBlock(Strip(input)))
  {
    var r, ins, ctx := RolePart(c), [FormatPromptSection(InstructionLead, c.instruction.value)], TextPart(ContextLead, c.context);
    var s1, s2, s3 := SectionPart(ConstraintsLead, c.outputConstraints), SectionPart(ToneLead, c.styleOrTone), SectionPart(FormatLead, c.outputFormat);
    var ex, goal, content := ExamplesPart(c.examples), TextPart(GoalLead, c.goal), ContentPart(input);
    var m := OneIf(input != "");
    assert |content| == m && goal == [GoalLead + c.goal.value];
    assert PromptParts(c, input) == r + ins + ctx + s1 + s2 + s3 + ex + goal + content + [ClosingLine];
    BackKept(r, ins, ctx, s1, s2, s3, ex, goal, content, [ClosingLine], 0);
    if input != "" {
      BackKept(r, ins, ctx, s1, s2, s3, ex, goal, content, [ClosingLine], 1);
    }
  }

  /** How many parts a prompt has: one per truthy entry, one per example, the instruction and the closing line. */
  function PartCount(c: PromptConfig, input: string): nat {
    OneIf(Given(c.role)) + 1 + OneIf(Given(c.context)) + OneIf(SectionGiven(c.outputConstraints))
    + OneIf(SectionGiven(c.styleOrTone)) + OneIf(SectionGiven(c.outputFormat))
    + (if SectionGiven(c.examples) && c.examples.value.Lines? then 1 + |c.examples.value.lines|
       else 2 * OneIf(SectionGiven(c.examples)))
    + OneIf(Given(c.goal)) + OneIf(input != "") + 1
  }

  /** A section is emitted only when its entry is truthy: the parts number exactly as counted. */
  lemma PromptPartCount(c: PromptConfig, input: string)
    requires SectionGiven(c.instruction)
    ensures |PromptParts(c, input)| == PartCount(c, input)
  {
    PartLengths(c, input);
    assert |RolePart(c)| == OneIf(Given(c.role));
    TextPartLength(ContextLead, c.context);
    TextPartLength(GoalLead, c.goal);
    SectionPartLength(ConstraintsLead, c.outputConstraints);
    SectionPartLength(ToneLead, c.styleOrTone);
    SectionPartLength(FormatLead, c.outputFormat);
    ExamplesPartLength(c.examples);
    assert |ContentPart(input)| == OneIf(input != "");
  }

  /** The parts' count is the sum of what each entry contributes. */
  lemma PartLengths(c: PromptConfig, input: string)
    requires SectionGiven(c.instruction)
    ensures |PromptParts(c, input)|
        == |RolePart(c)| + 1
           + |TextPart(ContextLead, c.context)|
           + |SectionPart(ConstraintsLead, c.outputConstraints)|
           + |SectionPart(ToneLead, c.styleOrTone)|
           + |SectionPart(FormatLead, c.outputFormat)|
           + |ExamplesPart(c.examples)|
           + |TextPart(GoalLead, c.goal)|
           + |ContentPart(input)| + 1
  {
  }

  lemma SectionPartLength(leadIn: string, o: Option<Section>)
    ensures |SectionPart(leadIn, o)| == OneIf(SectionGiven(o))
  {
  }

  lemma ExamplesPartLength(o: Option<Section>)
    ensures |ExamplesPart(o)| == (if SectionGiven(o) && o.value.Lines? then 1 + |o.value.lines| else 2 * OneIf(SectionGiven(o)))
  {
  }

  /** With only an instruction and no input the prompt is the instruction section and the closing line. */
  lemma MinimalPrompt(instruction: Section)
    requires SectionGiven(Some(instruction))
    ensures var c := EmptyConfig.(instruction := Some(instruction));
            Join(PromptParts(c, ""), "\n\n") == FormatPromptSection(InstructionLead, instruction) + "\n\n" + ClosingLine
  {
    var c := EmptyConfig.(instruction := Some(instruction));
    var f := FormatPromptSection(InstructionLead, instruction);
    assert PromptParts(c, "") == [f, ClosingLine];
    assert [f, ClosingLine][..1] == [f];
  }

  /** Lowering the first character twice is lowering it once. */
  lemma LowercaseFirstCharIdempotent(text: string)
    ensures LowercaseFirstChar(LowercaseFirstChar(text)) == LowercaseFirstChar(text)
  {
  }
}
