/**
 * The scenario record and the Markdown text that `Generate` (docgen.go)
 * appends for it, and the document that the appended blocks make up.
 */
module Markdown {
  import opened Seqs
  import opened Strings
  import opened PodSpecs
  import opened Format

  /** One `docgenerator:pod` marker value: a documented scenario. */
  datatype Rule = Rule(
    scenario: string,
    successStates: seq<string>,
    failedStates: seq<string>,
    failureReason: string,
    hasInitContainer: string,
    hasVolume: string)

  const Title: string := "POD CONDITION TESTS"

  /** The level-1 heading that opens the document. */
  const Heading: string := "# " + Title + "\n\n"

  /** Separator of the success-state chain. */
  const SuccessSeparator: string := " -> "

  /** Separator of the failed states, exactly as docgen.go writes it (space before the comma). */
  const FailedSeparator: string := " ,"

  /** Text in front of the scenario name. */
  const ScenarioLabel: string := "### Scenario: "

  /** Text between the scenario name and the payload. */
  const PodSpecFence: string := "\n\n**PodSpec**:\n```sh\n"

  /** Text between the payload and the success chain. */
  const SuccessLead: string := "\n```\n\n- For the above pod spec, " + "pod successfully transitions to **"

  /** Text after a state list. */
  const StatesEnd: string := "** states\n"

  /** Text in front of the failed states. */
  const FailureLead: string := "- Fails to transition to **"

  /** Text between the failed states and the reason. */
  const ReasonLead: string := "** states\n\n" + "**Reason for failure**: "

  /** What follows the success text of a record that lists no failed state. */
  const SuccessClose: string := "\n\n"

  /** The format of the document heading. */
  const HeadingFormat: string := "# %s\n\n"

  /** The success template, with holes for the scenario, the payload and the success chain. */
  const Template: string := ScenarioLabel + "%s" + PodSpecFence + "%s" + SuccessLead + "%s" + StatesEnd

  /** The failure template, with holes for the failed states and the reason. */
  const TemplateFailure: string := FailureLead + "%s" + ReasonLead + "%s" + "\n"

  /** The success template filled in: scenario, payload in a fenced block, success chain. */
  function SuccessText(rule: Rule): string
  {
    ScenarioLabel + rule.scenario + PodSpecFence + PodSpec(rule.hasInitContainer, rule.hasVolume)
    + SuccessLead + Join(rule.successStates, SuccessSeparator) + StatesEnd
  }

  /** The failure template filled in: failed states and the reason. */
  function FailureText(rule: Rule): string
  {
    FailureLead + Join(rule.failedStates, FailedSeparator) + ReasonLead + rule.failureReason + "\n"
  }

  /** The block appended for one record: the mode is chosen by whether any failed state is listed. */
  function Block(rule: Rule): string
  {
    if |rule.failedStates| != 0 then SuccessText(rule) + FailureText(rule)
    else SuccessText(rule) + SuccessClose
  }

  /** The block of each record, one entry per record. */
  function BlockTexts(rules: seq<Rule>): (r: seq<string>)
    ensures |r| == |rules|
  {
    seq(|rules|, k requires 0 <= k < |rules| => Block(rules[k]))
  }

  /** The blocks of the records, in order. */
  function Blocks(rules: seq<Rule>): string
  {
    Concat(BlockTexts(rules))
  }

  /** The whole buffer once the given records have been appended. */
  function Document(rules: seq<Rule>): string
  {
    Heading + Blocks(rules)
  }

  /** The records of all roots: root order, then the order within each root. */
  function Flatten(roots: seq<seq<Rule>>): seq<Rule>
  {
    if roots == [] then [] else Flatten(roots[..|roots| - 1]) + roots[|roots| - 1]
  }

  /** The document that all roots produce. */
  function Render(roots: seq<seq<Rule>>): string
  {
    Document(Flatten(roots))
  }

  // ----- one block -----

  /** The heading is the heading format filled with the title. */
  lemma HeadingIsSprintf()
    ensures Heading == Sprintf(HeadingFormat, [Title])
  {
    var texts := ["# ", "\n\n"];
    assert texts[1..] == ["\n\n"];
    assert Holes(texts) == HeadingFormat;
    assert Plain(texts);
    SprintfFillsHoles(texts, [Title]);
    assert Filled(texts, [Title]) == "# " + (Title + "\n\n");
    AppendAssoc("# ", Title, "\n\n");
  }

  /** The fixed texts of the success template around the payload hold no `%`. */
  lemma SuccessTextsPlain()
    ensures '%' !in ScenarioLabel && '%' !in PodSpecFence && '%' !in StatesEnd + SuccessClose
  {
  }

  /** The text in front of the success chain holds no `%`. */
  lemma SuccessLeadPlain()
    ensures '%' !in SuccessLead
  {
  }

  /** The fixed texts of the failure template hold no `%`. */
  lemma FailureTextsPlain()
    ensures '%' !in StatesEnd + FailureLead && '%' !in ReasonLead && '%' !in "\n"
  {
  }

  /** The fixed texts of the templates hold no `%`, so their only verbs are the holes. */
  lemma TemplateTextsPlain()
    ensures Plain([ScenarioLabel, PodSpecFence, SuccessLead, StatesEnd + SuccessClose])
    ensures Plain([ScenarioLabel, PodSpecFence, SuccessLead, StatesEnd + FailureLead, ReasonLead, "\n"])
  {
    SuccessTextsPlain();
    SuccessLeadPlain();
    FailureTextsPlain();
  }

  /**
   * Each block is exactly what `fmt.Sprintf` makes of the templates: the
   * success template and the failure template with five arguments when a
   * failed state is listed, the success template and two newlines with
   * three arguments otherwise.
   */
  lemma BlockIsSprintf(rule: Rule)
    ensures |rule.failedStates| != 0 ==>
      Block(rule) == Sprintf(Template + TemplateFailure,
                             [rule.scenario, PodSpec(rule.hasInitContainer, rule.hasVolume),
                              Join(rule.successStates, " -> "), Join(rule.failedStates, " ,"), rule.failureReason])
    ensures |rule.failedStates| == 0 ==>
      Block(rule) == Sprintf(Template + "\n\n",
                             [rule.scenario, PodSpec(rule.hasInitContainer, rule.hasVolume),
                              Join(rule.successStates, " -> ")])
  {
    var payload := PodSpec(rule.hasInitContainer, rule.hasVolume);
    var chain := Join(rule.successStates, SuccessSeparator);
    TemplateTextsPlain();
    if |rule.failedStates| != 0 {
      var failed := Join(rule.failedStates, FailedSeparator);
      var texts := [ScenarioLabel, PodSpecFence, SuccessLead, StatesEnd + FailureLead, ReasonLead, "\n"];
      HolesOfSix(ScenarioLabel, PodSpecFence, SuccessLead, StatesEnd, FailureLead, ReasonLead, "\n");
      SprintfFillsHoles(texts, [rule.scenario, payload, chain, failed, rule.failureReason]);
      FilledOfSix(ScenarioLabel, PodSpecFence, SuccessLead, StatesEnd, FailureLead, ReasonLead, "\n",
                  rule.scenario, payload, chain, failed, rule.failureReason);
    } else {
      var texts := [ScenarioLabel, PodSpecFence, SuccessLead, StatesEnd + SuccessClose];
      HolesOfFour(ScenarioLabel, PodSpecFence, SuccessLead, StatesEnd + SuccessClose);
      AppendAssoc(ScenarioLabel + "%s" + PodSpecFence + "%s" + SuccessLead + "%s", StatesEnd, SuccessClose);
      SprintfFillsHoles(texts, [rule.scenario, payload, chain]);
      FilledOfFour(ScenarioLabel, PodSpecFence, SuccessLead, StatesEnd + SuccessClose, rule.scenario, payload, chain);
      AppendAssoc(ScenarioLabel + rule.scenario + PodSpecFence + payload + SuccessLead + chain, StatesEnd, SuccessClose);
    }
  }

  /** Every block opens with the scenario heading, and the payload for its two flags follows in a fenced block. */
  lemma BlockOpensWithScenarioAndPayload(rule: Rule)
    ensures HasPrefix(Block(rule), ScenarioLabel + rule.scenario + PodSpecFence + PodSpec(rule.hasInitContainer, rule.hasVolume))
  {
    var head := ScenarioLabel + rule.scenario + PodSpecFence + PodSpec(rule.hasInitContainer, rule.hasVolume);
    var chain := SuccessLead + Join(rule.successStates, SuccessSeparator) + StatesEnd;
    var close := if |rule.failedStates| != 0 then FailureText(rule) else SuccessClose;
    AppendAssoc(head, SuccessLead, Join(rule.successStates, SuccessSeparator));
    AppendAssoc(head, SuccessLead + Join(rule.successStates, SuccessSeparator), StatesEnd);
    assert SuccessText(rule) == head + chain;
    AppendAssoc(head, chain, close);
    PrefixOfAppend(head, chain + close);
  }

  /** In success mode the failure reason plays no part: any reason gives the same block. */
  lemma SuccessBlockIgnoresFailureReason(rule: Rule, reason: string)
    requires rule.failedStates == []
    ensures Block(rule.(failureReason := reason)) == Block(rule)
  {
  }

  /** In success mode the block is the success text followed by two more newlines. */
  lemma SuccessBlockEndsWithBlankLines(rule: Rule)
    requires rule.failedStates == []
    ensures HasSuffix(Block(rule), StatesEnd + SuccessClose)
  {
    var front := ScenarioLabel + rule.scenario + PodSpecFence + PodSpec(rule.hasInitContainer, rule.hasVolume)
      + SuccessLead + Join(rule.successStates, SuccessSeparator);
    AppendAssoc(front, StatesEnd, SuccessClose);
    SuffixOfAppend(front, StatesEnd + SuccessClose);
  }

  /**
   * In failure mode the block is the success-mode block of the same record
   * without its two closing newlines, followed by the failure text.
   */
  lemma FailureBlockExtendsSuccessBlock(rule: Rule)
    requires rule.failedStates != []
    ensures var success := Block(rule.(failedStates := []));
            |success| >= 2 && Block(rule) == success[..|success| - 2] + FailureText(rule)
  {
    var s := SuccessText(rule);
    assert SuccessText(rule.(failedStates := [])) == s;
    PrefixOfAppend(s, SuccessClose);
  }

  /** In failure mode the block ends with the reason line. */
  lemma FailureBlockEndsWithReason(rule: Rule)
    requires rule.failedStates != []
    ensures HasSuffix(Block(rule), rule.failureReason + "\n")
  {
    var front := FailureLead + Join(rule.failedStates, FailedSeparator) + ReasonLead;
    AppendAssoc(front, rule.failureReason, "\n");
    AppendAssoc(SuccessText(rule), front, rule.failureReason + "\n");
    SuffixOfAppend(SuccessText(rule) + front, rule.failureReason + "\n");
  }

  /** Every failed state occurs in the failure sentence, where `Join` places it. */
  lemma FailureTextListsState(rule: Rule, k: nat)
    requires k < |rule.failedStates|
    ensures OccursAt(FailureText(rule), rule.failedStates[k],
                     |FailureLead| + TotalLength(rule.failedStates[..k]) + k * |FailedSeparator|)
  {
    var joined := Join(rule.failedStates, FailedSeparator);
    var state := rule.failedStates[k];
    var j := TotalLength(rule.failedStates[..k]) + k * |FailedSeparator|;
    JoinHoldsElement(rule.failedStates, FailedSeparator, k);
    OccursAfter(FailureLead, joined, state, j);
    OccursBefore(FailureLead + joined, state, |FailureLead| + j, ReasonLead);
    OccursBefore(FailureLead + joined + ReasonLead, state, |FailureLead| + j, rule.failureReason);
    OccursBefore(FailureLead + joined + ReasonLead + rule.failureReason, state, |FailureLead| + j, "\n");
  }

  /** In failure mode every failed state occurs in the block, inside the failure sentence that follows the success text. */
  lemma FailureBlockListsState(rule: Rule, k: nat)
    requires k < |rule.failedStates|
    ensures OccursAt(Block(rule), rule.failedStates[k],
                     |SuccessText(rule)| + |FailureLead| + TotalLength(rule.failedStates[..k]) + k * |FailedSeparator|)
  {
    FailureTextListsState(rule, k);
    OccursAfter(SuccessText(rule), FailureText(rule), rule.failedStates[k],
                |FailureLead| + TotalLength(rule.failedStates[..k]) + k * |FailedSeparator|);
  }

  /** The record `{basic, [Pending, Running], no failures, init container, no volume}`. */
  lemma BasicScenarioBlock()
    ensures Block(Rule("basic", ["Pending", "Running"], [], "", "true", "false"))
         == ScenarioLabel + "basic" + PodSpecFence + (Base + InitContainers)
            + SuccessLead + "Pending -> Running" + StatesEnd + SuccessClose
  {
    assert ["Pending", "Running"][1..] == ["Running"];
    assert Join(["Pending", "Running"], SuccessSeparator) == "Pending -> Running";
    assert PodSpec("true", "false") == Base + InitContainers;
  }

  /** Failed states are separated by " ," as written, not by ", ". */
  lemma FailedStatesSeparator()
    ensures Join(["Pending", "Running"], FailedSeparator) == "Pending ,Running"
  {
    assert ["Pending", "Running"][1..] == ["Running"];
  }

  // ----- the document -----

  /** The block texts of two runs of records are those of the first run, then those of the second. */
  lemma BlockTextsAppend(first: seq<Rule>, second: seq<Rule>)
    ensures BlockTexts(first + second) == BlockTexts(first) + BlockTexts(second)
  {
  }

  /** The blocks of two runs of records, one after the other, are the blocks of the first then of the second. */
  lemma BlocksAppend(first: seq<Rule>, second: seq<Rule>)
    ensures Blocks(first + second) == Blocks(first) + Blocks(second)
  {
    BlockTextsAppend(first, second);
    ConcatAppend(BlockTexts(first), BlockTexts(second));
  }

  /** Appending a record appends exactly its block to the buffer. */
  lemma DocumentAppend(rules: seq<Rule>, rule: Rule)
    ensures Document(rules + [rule]) == Document(rules) + Block(rule)
  {
    BlockTextsAppend(rules, [rule]);
    assert BlockTexts([rule]) == [Block(rule)];
    ConcatSnoc(BlockTexts(rules), Block(rule));
    AppendAssoc(Heading, Blocks(rules), Block(rule));
  }

  /** The buffer after the first k records is a prefix of the buffer after all of them: nothing written is ever replaced. */
  lemma DocumentPrefix(rules: seq<Rule>, k: nat)
    requires k <= |rules|
    ensures HasPrefix(Document(rules), Document(rules[..k]))
  {
    assert rules == rules[..k] + rules[k..];
    BlocksAppend(rules[..k], rules[k..]);
    AppendAssoc(Heading, Blocks(rules[..k]), Blocks(rules[k..]));
    PrefixOfAppend(Document(rules[..k]), Blocks(rules[k..]));
  }

  /** The records of one more root follow those of the earlier roots. */
  lemma FlattenAppend(roots: seq<seq<Rule>>, root: seq<Rule>)
    ensures Flatten(roots + [root]) == Flatten(roots) + root
  {
    assert (roots + [root])[..|roots|] == roots;
  }

  /** The buffer is never reset between roots: one more root appends its blocks to the earlier document. */
  lemma RenderAppendRoot(roots: seq<seq<Rule>>, root: seq<Rule>)
    ensures Render(roots + [root]) == Render(roots) + Blocks(root)
  {
    FlattenAppend(roots, root);
    BlocksAppend(Flatten(roots), root);
    AppendAssoc(Heading, Blocks(Flatten(roots)), Blocks(root));
  }

  /** The blocks of two records. */
  lemma BlocksPair(x: Rule, y: Rule)
    ensures Blocks([x, y]) == Block(x) + Block(y)
  {
    assert BlockTexts([x, y]) == [Block(x), Block(y)];
    ConcatPair(Block(x), Block(y));
  }

  /** Two roots of two records each render as S1R1, S1R2, S2R1, S2R2, with no sorting or deduplication. */
  lemma TwoRootsInOrder(a: Rule, b: Rule, c: Rule, d: Rule)
    ensures Render([[a, b], [c, d]]) == Heading + Block(a) + Block(b) + Block(c) + Block(d)
  {
    assert [] + [[a, b]] == [[a, b]];
    assert [[a, b]] + [[c, d]] == [[a, b], [c, d]];
    assert Render([]) == Heading by {
      assert Heading + "" == Heading;
    }
    RenderAppendRoot([], [a, b]);
    RenderAppendRoot([[a, b]], [c, d]);
    BlocksPair(a, b);
    BlocksPair(c, d);
    AppendAssoc(Heading, Block(a), Block(b));
    AppendAssoc(Heading + Block(a) + Block(b), Block(c), Block(d));
  }
}
