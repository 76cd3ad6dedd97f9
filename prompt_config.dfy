/**
 * The prompt configuration both prompt builders read (the dictionary keys of
 * src/llm/prompt_builder.py and the `PromptConfig` class of a3/classes.py),
 * and the pieces of text both builders produce the same way.
 */
module PromptConfigs {
  import opened Wrappers
  import opened Strings

  /** A section value: one string, or a list of strings rendered one per line. */
  datatype Section = Text(text: string) | Lines(lines: seq<string>)

  /**
   * The configuration; an absent key is `None`.  `context`, `goal`, `role`
   * and `reasoning_strategy` are strings, the other sections a string or a
   * list of strings.
   */
  datatype PromptConfig = PromptConfig(
    role: Option<string>,
    instruction: Option<Section>,
    context: Option<string>,
    outputConstraints: Option<Section>,
    styleOrTone: Option<Section>,
    outputFormat: Option<Section>,
    examples: Option<Section>,
    goal: Option<string>,
    reasoningStrategy: Option<string>)

  /** The configuration with nothing set. */
  const EmptyConfig: PromptConfig := PromptConfig(None, None, None, None, None, None, None, None, None)

  /** Python truthiness of an optional string: present and non-empty. */
  predicate Given(o: Option<string>) {
    o.Some? && o.value != ""
  }

  /** Python truthiness of an optional section: a non-empty string or a non-empty list. */
  predicate SectionGiven(o: Option<Section>) {
    match o
    case None => false
    case Some(Text(t)) => t != ""
    case Some(Lines(xs)) => xs != []
  }

  /** A text entry's part: its lead-in and the text, when the text is truthy. */
  function TextPart(lead: string, o: Option<string>): seq<string> {
    if Given(o) then [lead + o.value] else []
  }

  /** 1 for a truthy entry, 0 otherwise. */
  function OneIf(b: bool): nat {
    if b then 1 else 0
  }

  lemma TextPartLength(lead: string, o: Option<string>)
    ensures |TextPart(lead, o)| == OneIf(Given(o))
  {
  }

  /** One conditional text step: the part is appended exactly when the entry is truthy. */
  lemma TextStep(before: seq<string>, after: seq<string>, lead: string, o: Option<string>)
    requires Given(o) ==> after == before + [lead + o.value]
    requires !Given(o) ==> after == before
    ensures after == before + TextPart(lead, o)
  {
  }

  /** An append guarded by a condition. */
  lemma AppendIf(before: seq<string>, after: seq<string>, cond: bool, x: string)
    requires cond ==> after == before + [x]
    requires !cond ==> after == before
    ensures after == before + (if cond then [x] else [])
  {
  }

  /**
   * The first three entries' parts stay in front whatever five entries
   * follow them, and whatever two or three further blocks follow those.
   */
  lemma FrontKept(a: seq<string>, b: seq<string>, c: seq<string>, d: seq<string>,
                  e: seq<string>, f: seq<string>, g: seq<string>, h: seq<string>,
                  x: seq<string>, y: seq<string>, z: seq<string>, n: int)
    requires 0 <= n < |a + b + c|
    ensures |a + b + c + d + e + f + g + h| > n
    ensures (a + b + c + d + e + f + g + h + x + y)[n] == (a + b + c)[n]
    ensures ((a + b + c + d + e + f + g + h) + x + y + z)[n] == (a + b + c)[n]
  {
  }

  /** The last three entries' parts stay at the back whatever seven entries precede them. */
  lemma BackKept(a: seq<string>, b: seq<string>, c: seq<string>, d: seq<string>, e: seq<string>,
                 f: seq<string>, g: seq<string>, h: seq<string>, i: seq<string>, j: seq<string>, n: int)
    requires 0 <= n < |h + i + j|
    ensures var all := a + b + c + d + e + f + g + h + i + j;
            |all| >= |h + i + j| && all[|all| - |h + i + j| + n] == (h + i + j)[n]
  {
  }

  /** Each list item with its prefix, the prefix numbered from 1 (`enumerate(value, 1)`). */
  function PrefixedItems(items: seq<string>, prefix: nat -> string): (r: seq<string>)
    ensures |r| == |items|
    ensures forall i :: 0 <= i < |items| ==> r[i] == prefix(i + 1) + items[i]
  {
    seq(|items|, i requires 0 <= i < |items| => prefix(i + 1) + items[i])
  }

  /** The bullet every list item gets when no numbering prefix is asked for. */
  function Dash(i: nat): string {
    "- "
  }

  /** The numbering prefix of the examples section: "Example i:" and a newline. */
  function ExamplePrefix(i: nat): string {
    "Example " + NatToString(i) + ":\n"
  }

  /** The block that carries the input text, already stripped, between the content markers. */
  function ContentBlock(text: string): string {
    "Here is the content you need to work with:\n<<<BEGIN CONTENT>>>\n```\n" + text + "\n```\n<<<END CONTENT>>>"
  }

  const ClosingLine: string := "Now perform the task as instructed above."

  /**
   * Distinct items get distinct example labels: the prefix of item i
   * names i and no other number.
   */
  lemma ExamplePrefixesDistinct(i: nat, j: nat)
    requires i != j
    ensures ExamplePrefix(i) != ExamplePrefix(j)
  {
    var x, y := NatToString(i), NatToString(j);
    NatToStringInjective(i, j);
    if |x| == |y| {
      var k :| 0 <= k < |x| && x[k] != y[k];
      assert ExamplePrefix(i)[8 + k] == x[k];
      assert ExamplePrefix(j)[8 + k] == y[k];
    } else {
      assert |ExamplePrefix(i)| != |ExamplePrefix(j)|;
    }
  }
}
