/** The chat troubleshooting flow (src/ai/flows/advanced-troubleshoot-flow.ts) around its language
  * model call: the prompt texts built from the guides, the conversation and the selected machine,
  * and the clean-up of the model's answer. The model itself is an oracle: its answer, or its
  * failure to give one, is a parameter. */
module Flow {
  import opened Wrappers
  import opened Text
  import Types
  import Seqs

  /** Who wrote a chat turn. */
  datatype ChatRole = UserTurn | AssistantTurn

  /** One turn of the conversation as the flow receives it. */
  datatype HistoryEntry = HistoryEntry(role: ChatRole, text: string)

  /** The machine as the flow receives it: brand and model only. */
  datatype MachineRef = MachineRef(brand: string, model: string)

  /** The flow's input; every field is optional. */
  datatype FlowInput = FlowInput(
    currentMessageText: Option<string>,
    currentImageUri: Option<string>,
    chatHistory: Option<seq<HistoryEntry>>,
    selectedMachine: Option<MachineRef>)

  /** What the prompt template is filled with. */
  datatype PromptInput = PromptInput(
    currentMessageText: Option<string>,
    currentImageUri: Option<string>,
    formattedChatHistoryText: string,
    selectedMachineText: Option<string>,
    formattedGuidesText: string)

  /** The model's answer; its id list is `None` when the model did not give an array. */
  datatype ModelOutput = ModelOutput(assistantResponse: string, suggestedGuideIds: Option<seq<string>>)

  /** The flow's result. */
  datatype FlowOutput = FlowOutput(assistantResponse: string, suggestedGuideIds: seq<string>)

  const NO_GUIDES_TEXT: string := "No specific instruction guides available."
  const GUIDE_SEPARATOR: string := "\n---\n"
  const NO_HISTORY_TEXT: string := "This is the beginning of the conversation."
  const APOLOGY: string :=
    "I'm sorry, I couldn't process that request. Could you try rephrasing or providing more details?"

  /** The prompt block of one guide: it opens with the guide's id and closes with the summary cut
    * to its first 100 characters, followed by "...". */
  function GuideBlock(g: Types.InstructionGuide): (r: string)
    ensures StartsWith(r, "Guide ID: " + g.id)
    ensures var tail := "\nSummary: " + Prefix(g.summary, 100) + "...";
      |tail| <= |r| && r[|r| - |tail|..] == tail
  {
    var head := "Guide ID: " + g.id + "\nTitle: " + g.title + "\nCategory: " + Types.CategoryName(g.category)
      + "\nMachine Brand: " + g.machineBrand + "\nMachine Model: " + g.machineModel;
    var tail := "\nSummary: " + Prefix(g.summary, 100) + "...";
    var r := head + tail;
    assert r[..|"Guide ID: " + g.id|] == "Guide ID: " + g.id;
    assert r[|r| - |tail|..] == tail;
    r
  }

  /** `formatGuidesForPrompt`: a fixed text for no guides, else the blocks joined by "\n---\n". */
  function FormatGuidesForPrompt(guides: seq<Types.InstructionGuide>): string
  {
    if |guides| == 0 then NO_GUIDES_TEXT
    else Join(Seqs.MapSeq(guides, GuideBlock), GUIDE_SEPARATOR)
  }

  /** One guide gives its block alone, and each further guide adds the separator and its block. */
  lemma FormatGuidesShape(guides: seq<Types.InstructionGuide>, g: Types.InstructionGuide)
    ensures FormatGuidesForPrompt([]) == NO_GUIDES_TEXT
    ensures FormatGuidesForPrompt([g]) == GuideBlock(g)
    ensures |guides| > 0 ==>
      FormatGuidesForPrompt(guides + [g]) == FormatGuidesForPrompt(guides) + GUIDE_SEPARATOR + GuideBlock(g)
  {
    if |guides| > 0 {
      assert Seqs.MapSeq(guides + [g], GuideBlock) == Seqs.MapSeq(guides, GuideBlock) + [GuideBlock(g)];
      JoinSnoc(Seqs.MapSeq(guides, GuideBlock), GuideBlock(g), GUIDE_SEPARATOR);
    }
  }

  /** Every guide's id is mentioned in the guide text, so the model can name any of them. */
  lemma FormattedGuidesMentionIds(guides: seq<Types.InstructionGuide>)
    ensures forall g :: g in guides ==> Includes(FormatGuidesForPrompt(guides), "Guide ID: " + g.id)
  {
    var blocks := Seqs.MapSeq(guides, GuideBlock);
    JoinIncludesParts(blocks, GUIDE_SEPARATOR);
    forall g | g in guides ensures Includes(FormatGuidesForPrompt(guides), "Guide ID: " + g.id) {
      var k :| 0 <= k < |guides| && guides[k] == g;
      assert blocks[k] == GuideBlock(g);
      assert FormatGuidesForPrompt(guides) == Join(blocks, GUIDE_SEPARATOR);
      BlockMentionsId(g);
      IncludesTransitive(FormatGuidesForPrompt(guides), GuideBlock(g), "Guide ID: " + g.id);
    }
  }

  /** A guide's block mentions its id. */
  lemma BlockMentionsId(g: Types.InstructionGuide)
    ensures Includes(GuideBlock(g), "Guide ID: " + g.id)
  {
    var head := "Guide ID: " + g.id;
    var b := GuideBlock(g);
    assert b == head + b[|head|..];
    IncludesStart(head, b[|head|..]);
  }

  /** One history line: the speaker's name, a colon, and the text. */
  function HistoryLine(e: HistoryEntry): (r: string)
    ensures StartsWith(r, if e.role == UserTurn then "User: " else "Assistant: ")
    ensures r[|if e.role == UserTurn then "User: " else "Assistant: "|..] == e.text
  {
    var name := if e.role == UserTurn then "User" else "Assistant";
    var r := name + ": " + e.text;
    assert r[..|name + ": "|] == name + ": ";
    r
  }

  /** `formatChatHistoryForPrompt`: a fixed text for a missing or empty history, else one line per
    * turn joined by newlines. */
  function FormatChatHistoryForPrompt(history: Option<seq<HistoryEntry>>): string
  {
    if history.None? || |history.value| == 0 then NO_HISTORY_TEXT
    else Join(Seqs.MapSeq(history.value, HistoryLine), "\n")
  }

  /** When no turn's text holds a newline, the formatted history splits back into one line per
    * turn, in order. */
  lemma HistoryLinesRecoverable(history: seq<HistoryEntry>)
    requires |history| > 0
    requires forall i :: 0 <= i < |history| ==> '\n' !in history[i].text
    ensures Split(FormatChatHistoryForPrompt(Some(history)), '\n') == Seqs.MapSeq(history, HistoryLine)
  {
    var lines := Seqs.MapSeq(history, HistoryLine);
    forall i | 0 <= i < |lines| ensures '\n' !in lines[i] {
      HistoryLineKeepsNewlines(history[i]);
    }
    SplitJoin(lines, '\n');
  }

  /** A line holds a newline only if its turn's text does. */
  lemma HistoryLineKeepsNewlines(e: HistoryEntry)
    ensures '\n' in HistoryLine(e) <==> '\n' in e.text
  {
    var name := if e.role == UserTurn then "User" else "Assistant";
    assert HistoryLine(e) == (name + ": ") + e.text;
    assert '\n' !in name + ": ";
  }

  /** The missing and the empty history read the same. */
  lemma NoHistoryText()
    ensures FormatChatHistoryForPrompt(None) == FormatChatHistoryForPrompt(Some([])) == NO_HISTORY_TEXT
  {
  }

  /** The machine text: brand, a blank, model; absent without a machine. */
  function SelectedMachineText(machine: Option<MachineRef>): (r: Option<string>)
    ensures r.Some? <==> machine.Some?
  {
    if machine.Some? then Some(machine.value.brand + " " + machine.value.model) else None
  }

  /** For a brand without blanks the machine text gives back brand and model. */
  lemma MachineTextRecoverable(m: MachineRef)
    requires ' ' !in m.brand
    ensures var t := SelectedMachineText(Some(m)).value;
      Split(t, ' ')[0] == m.brand && t[|m.brand| + 1..] == m.model
  {
    var t := m.brand + " " + m.model;
    SplitFirstPiece(m.brand, " " + m.model, ' ');
    assert t == m.brand + (" " + m.model);
  }

  /** The prompt input the flow builds from its input and the guide catalogue. */
  function BuildPrompt(guides: seq<Types.InstructionGuide>, input: FlowInput): (p: PromptInput)
    ensures p.currentMessageText == input.currentMessageText && p.currentImageUri == input.currentImageUri
    ensures p.selectedMachineText == SelectedMachineText(input.selectedMachine)
    ensures p.formattedChatHistoryText == FormatChatHistoryForPrompt(input.chatHistory)
    ensures p.formattedGuidesText == FormatGuidesForPrompt(guides)
  {
    PromptInput(input.currentMessageText, input.currentImageUri,
      FormatChatHistoryForPrompt(input.chatHistory), SelectedMachineText(input.selectedMachine),
      FormatGuidesForPrompt(guides))
  }

  /** The ids of the catalogue's guides. */
  function GuideIds(guides: seq<Types.InstructionGuide>): (r: seq<string>)
    ensures forall id :: id in r <==> exists g :: g in guides && g.id == id
  {
    Seqs.MapSeqMembers(guides, (g: Types.InstructionGuide) => g.id);
    Seqs.MapSeq(guides, (g: Types.InstructionGuide) => g.id)
  }

  /** The suggested ids the flow keeps: those naming a catalogue guide, in the model's order. */
  function ValidSuggestions(guides: seq<Types.InstructionGuide>, ids: seq<string>): (r: seq<string>)
    ensures forall id :: id in r <==> id in ids && id in GuideIds(guides)
    ensures Seqs.IsSubseq(r, ids)
    ensures forall id :: multiset(r)[id] == if id in GuideIds(guides) then multiset(ids)[id] else 0
  {
    var valid := GuideIds(guides);
    var r := Seqs.Filter(ids, (id: string) => id in valid);
    assert forall id :: id in ids ==> multiset(ids)[id] > 0;
    r
  }

  /** The flow's result from the model's answer: the fixed apology and no suggestions without an
    * answer; otherwise the answer's text and its valid ids, none when the ids were not an array. */
  function Finish(guides: seq<Types.InstructionGuide>, output: Option<ModelOutput>): (r: FlowOutput)
    ensures output.None? ==> r == FlowOutput(APOLOGY, [])
    ensures output.Some? ==> r.assistantResponse == output.value.assistantResponse
    ensures forall id :: id in r.suggestedGuideIds ==> exists g :: g in guides && g.id == id
    ensures output.Some? && output.value.suggestedGuideIds.None? ==> r.suggestedGuideIds == []
    ensures output.Some? && output.value.suggestedGuideIds.Some? ==>
      r.suggestedGuideIds == ValidSuggestions(guides, output.value.suggestedGuideIds.value)
  {
    if output.None? then FlowOutput(APOLOGY, [])
    else
      var ids := if output.value.suggestedGuideIds.Some?
        then ValidSuggestions(guides, output.value.suggestedGuideIds.value) else [];
      FlowOutput(output.value.assistantResponse, ids)
  }

  /** Checking the ids twice changes nothing: every kept id already names a guide. */
  lemma ValidSuggestionsIdempotent(guides: seq<Types.InstructionGuide>, ids: seq<string>)
    ensures ValidSuggestions(guides, ValidSuggestions(guides, ids)) == ValidSuggestions(guides, ids)
  {
    var valid := GuideIds(guides);
    var once := ValidSuggestions(guides, ids);
    Seqs.FilterAll(once, (id: string) => id in valid);
  }

  /** Ids that all name guides are kept as they are. */
  lemma ValidSuggestionsKeepValid(guides: seq<Types.InstructionGuide>, ids: seq<string>)
    requires forall i :: 0 <= i < |ids| ==> ids[i] in GuideIds(guides)
    ensures ValidSuggestions(guides, ids) == ids
  {
    Seqs.FilterAll(ids, (id: string) => id in GuideIds(guides));
  }
}
