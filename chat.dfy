/** The chat panel of the troubleshooting page
  * (src/app/troubleshoot/components/advanced-troubleshoot-chat.tsx): the message list, the send
  * guard, the image guards, the history and machine handed to the flow, and the update of the
  * assistant's placeholder message when the flow answers or fails. Message ids, which the source
  * derives from the clock, are parameters. */
module Chat {
  import opened Wrappers
  import opened Text
  import opened Flow
  import Types
  import Seqs

  /** A guide link shown under an assistant message. */
  datatype SuggestedGuide = SuggestedGuide(id: string, title: string)

  /** One message of the panel; absent optional fields are `None`. */
  datatype Message = Message(
    id: string,
    role: ChatRole,
    text: Option<string>,
    imageUrl: Option<string>,
    suggestedGuides: Option<seq<SuggestedGuide>>,
    isLoading: Option<bool>)

  /** The largest image accepted, in bytes: 4 MiB. */
  const MAX_IMAGE_BYTES: int := 4 * 1024 * 1024

  const GENERAL_GREETING: string := "Hello! How can I help you with your coffee machine today? You can describe the problem or upload an image. If you know your machine model, selecting it above might give more specific advice."
  const MACHINE_GREETING_TAIL: string := " How can I help you with it? You can describe the problem or upload an image."
  const IMAGE_FALLBACK: string := "[User sent an image]"
  const NO_CONTENT_FALLBACK: string := "[Message content unavailable]"
  const DEFAULT_ERROR: string := "Failed to get response from AI assistant. Please try again."
  const ERROR_PREFIX: string := "Sorry, I encountered an error. Please try again. Details: "

  /** An optional string is truthy when present and non-empty. */
  predicate Truthy(s: Option<string>) {
    s.Some? && s.value != ""
  }

  /** The send guard: there is something to send when the trimmed text is non-empty or an image
    * file is attached. */
  predicate ShouldSend(inputText: string, hasImageFile: bool)
  {
    Trim(inputText) != "" || hasImageFile
  }

  /** A text made only of white space, with no image, is never sent. */
  lemma BlankTextNotSent(inputText: string)
    requires forall i :: 0 <= i < |inputText| ==> IsJsSpace(inputText[i])
    ensures !ShouldSend(inputText, false)
    ensures ShouldSend(inputText, true)
  {
    TrimSpec(inputText);
  }

  /** The image handed to the flow: the preview only when it is a data URI of an image. */
  function ImageForBackend(preview: Option<string>): (r: Option<string>)
    ensures r.Some? <==> preview.Some? && StartsWith(preview.value, "data:image")
    ensures r.Some? ==> r == preview
  {
    if preview.Some? && StartsWith(preview.value, "data:image") then preview else None
  }

  /** The image size guard: a file over 4 MiB is refused. */
  predicate ImageTooLarge(size: int)
  {
    size > MAX_IMAGE_BYTES
  }

  /** The text a message contributes to the history: its own text when non-empty, else a marker
    * for a user message with an image, else a marker for missing content. */
  function HistoryText(m: Message): (r: string)
    ensures r != ""
    ensures Truthy(m.text) ==> r == m.text.value
    ensures !Truthy(m.text) ==> r in {IMAGE_FALLBACK, NO_CONTENT_FALLBACK}
  {
    if Truthy(m.text) then m.text.value
    else if Truthy(m.imageUrl) && m.role == UserTurn then IMAGE_FALLBACK
    else NO_CONTENT_FALLBACK
  }

  /** Which marker stands in for missing text: the image marker exactly for a user message with an
    * image, the missing-content marker for every other message. */
  lemma HistoryTextMarker(m: Message)
    requires !Truthy(m.text)
    ensures Truthy(m.imageUrl) && m.role == UserTurn ==> HistoryText(m) == IMAGE_FALLBACK
    ensures !(Truthy(m.imageUrl) && m.role == UserTurn) ==> HistoryText(m) == NO_CONTENT_FALLBACK
  {
  }

  /** A message as a history entry. */
  function ToEntry(m: Message): HistoryEntry
  {
    HistoryEntry(m.role, HistoryText(m))
  }

  /** The history sent to the flow: every message except the one with the current user message's
    * id, in order, each as a history entry. */
  function BuildHistory(messages: seq<Message>, userMessageId: string): (r: seq<HistoryEntry>)
    ensures |r| <= |messages|
    decreases |messages|
  {
    if |messages| == 0 then []
    else
      var rest := BuildHistory(messages[1..], userMessageId);
      if messages[0].id == userMessageId then rest else [ToEntry(messages[0])] + rest
  }

  /** The history is `messages.filter(msg => msg.id !== userMessageId).map(...)`: the messages
    * without the excluded id, in order, each as its entry. */
  lemma {:induction false} BuildHistoryFilterMap(messages: seq<Message>, userMessageId: string)
    ensures BuildHistory(messages, userMessageId)
      == Seqs.MapSeq(Seqs.Filter(messages, (m: Message) => m.id != userMessageId), ToEntry)
    decreases |messages|
  {
    if |messages| > 0 {
      BuildHistoryFilterMap(messages[1..], userMessageId);
      var rest := Seqs.Filter(messages[1..], (m: Message) => m.id != userMessageId);
      if messages[0].id != userMessageId {
        assert ([messages[0]] + rest)[1..] == rest;
      }
    }
  }

  /** When no message carries the excluded id, every message contributes its entry. */
  lemma {:induction false} BuildHistoryMap(messages: seq<Message>, userMessageId: string)
    requires forall i :: 0 <= i < |messages| ==> messages[i].id != userMessageId
    ensures BuildHistory(messages, userMessageId) == Seqs.MapSeq(messages, ToEntry)
    decreases |messages|
  {
    if |messages| > 0 {
      BuildHistoryMap(messages[1..], userMessageId);
    }
  }

  /** Appending the current user message and excluding it again gives the earlier messages'
    * entries: the current message is never part of its own history. */
  lemma {:induction false} HistoryExcludesCurrent(messages: seq<Message>, current: Message)
    requires forall i :: 0 <= i < |messages| ==> messages[i].id != current.id
    ensures BuildHistory(messages + [current], current.id) == Seqs.MapSeq(messages, ToEntry)
    decreases |messages|
  {
    if |messages| == 0 {
      assert [] + [current] == [current];
    } else {
      assert (messages + [current])[1..] == messages[1..] + [current];
      HistoryExcludesCurrent(messages[1..], current);
    }
  }

  /** Suggested ids as guide links: each id naming a guide of `allGuides` becomes a link with that
    * guide's id and title; ids naming no guide are dropped. */
  function GuidesForIds(allGuides: seq<Types.InstructionGuide>, ids: seq<string>): (r: seq<SuggestedGuide>)
    ensures |r| <= |ids|
    ensures forall s :: s in r ==> LinkOf(allGuides, s)
    decreases |ids|
  {
    if |ids| == 0 then []
    else
      var rest := GuidesForIds(allGuides, ids[1..]);
      var guide := Seqs.Find(allGuides, (g: Types.InstructionGuide) => g.id == ids[0]);
      if guide.Some? then
        assert LinkOf(allGuides, SuggestedGuide(guide.value.id, guide.value.title)) by {
          assert guide.value in allGuides;
        }
        [SuggestedGuide(guide.value.id, guide.value.title)] + rest
      else rest
  }

  /** `s` links to a guide of `allGuides`, with that guide's id and title. */
  ghost predicate LinkOf(allGuides: seq<Types.InstructionGuide>, s: SuggestedGuide)
  {
    exists g :: g in allGuides && s == SuggestedGuide(g.id, g.title)
  }

  /** The guide link keeps the requested id, and only unknown ids are dropped. */
  lemma {:induction false} GuidesForIdsKeepsIds(allGuides: seq<Types.InstructionGuide>, ids: seq<string>)
    ensures Seqs.MapSeq(GuidesForIds(allGuides, ids), (s: SuggestedGuide) => s.id)
      == Seqs.Filter(ids, (id: string) => exists g :: g in allGuides && g.id == id)
    decreases |ids|
  {
    if |ids| > 0 {
      GuidesForIdsKeepsIds(allGuides, ids[1..]);
      var guide := Seqs.Find(allGuides, (g: Types.InstructionGuide) => g.id == ids[0]);
      if guide.None? {
        assert forall g :: g in allGuides ==> g.id != ids[0] by {
          forall g | g in allGuides ensures g.id != ids[0] {
            var j :| 0 <= j < |allGuides| && allGuides[j] == g;
          }
        }
      }
    }
  }

  /** Every id the flow keeps names a catalogue guide, so each becomes a link when the panel is
    * given the same catalogue. */
  lemma FlowSuggestionsAllShown(guides: seq<Types.InstructionGuide>, output: Option<ModelOutput>)
    ensures |GuidesForIds(guides, Finish(guides, output).suggestedGuideIds)| == |Finish(guides, output).suggestedGuideIds|
  {
    var ids := Finish(guides, output).suggestedGuideIds;
    GuidesForIdsKeepsIds(guides, ids);
    Seqs.FilterAll(ids, (id: string) => exists g :: g in guides && g.id == id);
  }

  /** The machine forwarded to the flow: brand and model of the selected machine, unless there is
    * none or its id is "skip-selection". */
  function MachineForFlow(selected: Option<Types.CoffeeMachine>): (r: Option<MachineRef>)
    ensures r.Some? <==> selected.Some? && selected.value.id != "skip-selection"
    ensures r.Some? ==> r.value == MachineRef(selected.value.brand, selected.value.model)
  {
    if selected.Some? && selected.value.id != "skip-selection" then
      Some(MachineRef(selected.value.brand, selected.value.model))
    else None
  }

  /** The first assistant message: a machine-specific greeting for a forwarded machine, a general
    * one otherwise. */
  function Greeting(selected: Option<Types.CoffeeMachine>): (r: string)
    ensures MachineForFlow(selected).None? ==> r == GENERAL_GREETING
    ensures MachineForFlow(selected).Some? ==>
      StartsWith(r, "Okay, you've selected the " + selected.value.brand + " " + selected.value.model + ".")
  {
    if selected.Some? && selected.value.id != "skip-selection" then
      var named := "Okay, you've selected the " + selected.value.brand + " " + selected.value.model + ".";
      var r := named + MACHINE_GREETING_TAIL;
      assert r[..|named|] == named;
      r
    else
      GENERAL_GREETING
  }

  /** The error text shown in the placeholder: the error's own message when it has one, else the
    * default. */
  function ErrorText(errorMessage: Option<string>): (r: string)
    ensures Prefix(r, |ERROR_PREFIX|) == ERROR_PREFIX
    ensures Truthy(errorMessage) ==> r == ERROR_PREFIX + errorMessage.value
    ensures !Truthy(errorMessage) ==> r == ERROR_PREFIX + DEFAULT_ERROR
  {
    ERROR_PREFIX + (if Truthy(errorMessage) then errorMessage.value else DEFAULT_ERROR)
  }

  /** How the flow's outcome fills in the placeholder. */
  datatype Outcome = Answered(result: FlowOutput) | Failed(errorMessage: Option<string>)

  /** The placeholder after the outcome, with the panel's catalogue for the guide links. */
  function Settle(m: Message, outcome: Outcome, allGuides: seq<Types.InstructionGuide>): (r: Message)
    ensures r.id == m.id && r.imageUrl == m.imageUrl && r.isLoading == Some(false)
    ensures outcome.Answered? ==>
      (r.role == m.role && r.text == Some(outcome.result.assistantResponse)
       && r.suggestedGuides == Some(GuidesForIds(allGuides, outcome.result.suggestedGuideIds)))
    ensures outcome.Failed? ==>
      (r.role == AssistantTurn && r.text == Some(ErrorText(outcome.errorMessage))
       && r.suggestedGuides == m.suggestedGuides)
  {
    match outcome
    case Answered(result) =>
      m.(text := Some(result.assistantResponse),
         suggestedGuides := Some(GuidesForIds(allGuides, result.suggestedGuideIds)), isLoading := Some(false))
    case Failed(errorMessage) =>
      m.(text := Some(ErrorText(errorMessage)), isLoading := Some(false), role := AssistantTurn)
  }

  /** `prev.map(msg => msg.id === id ? settled : msg)`. */
  function ReplaceById(messages: seq<Message>, id: string, outcome: Outcome, allGuides: seq<Types.InstructionGuide>): (r: seq<Message>)
    ensures |r| == |messages|
    ensures forall i :: 0 <= i < |messages| && messages[i].id != id ==> r[i] == messages[i]
    ensures forall i :: 0 <= i < |messages| && messages[i].id == id ==> r[i] == Settle(messages[i], outcome, allGuides)
    decreases |messages|
  {
    if |messages| == 0 then []
    else
      var head := if messages[0].id == id then Settle(messages[0], outcome, allGuides) else messages[0];
      [head] + ReplaceById(messages[1..], id, outcome, allGuides)
  }

  /** Replacing keeps every message's id, so the list's ids never change. */
  lemma ReplaceKeepsIds(messages: seq<Message>, id: string, outcome: Outcome, allGuides: seq<Types.InstructionGuide>)
    ensures forall i :: 0 <= i < |messages| ==> ReplaceById(messages, id, outcome, allGuides)[i].id == messages[i].id
  {
  }

  /** When only the last message carries the id, replacing settles it and leaves the rest alone. */
  lemma ReplaceLast(messages: seq<Message>, last: Message, outcome: Outcome, allGuides: seq<Types.InstructionGuide>)
    requires forall i :: 0 <= i < |messages| ==> messages[i].id != last.id
    ensures ReplaceById(messages + [last], last.id, outcome, allGuides) == messages + [Settle(last, outcome, allGuides)]
  {
    var r := ReplaceById(messages + [last], last.id, outcome, allGuides);
    assert forall i :: 0 <= i < |messages| ==> (messages + [last])[i] == messages[i];
  }

  /** The panel's state. An attached image file is represented by its size in bytes. */
  class ChatPanel {
    var messages: seq<Message>
    var inputText: string
    var inputImageFile: Option<int>
    var previewImageUrl: Option<string>
    var isAssistantLoading: bool

    /** An empty panel. */
    constructor ()
      ensures messages == [] && inputText == "" && inputImageFile == None && previewImageUrl == None
      ensures !isAssistantLoading
    {
      messages, inputText, inputImageFile, previewImageUrl := [], "", None, None;
      isAssistantLoading := false;
    }

    /** The greeting effect: only an empty panel gets the greeting. */
    method Greet(greetingId: string, selected: Option<Types.CoffeeMachine>)
      modifies this
      ensures old(messages) == [] ==> messages == [Message(greetingId, AssistantTurn, Some(Greeting(selected)), None, None, None)]
      ensures old(messages) != [] ==> messages == old(messages)
      ensures inputText == old(inputText) && inputImageFile == old(inputImageFile)
      ensures previewImageUrl == old(previewImageUrl) && isAssistantLoading == old(isAssistantLoading)
    {
      if |messages| > 0 {
        return;
      }
      messages := [Message(greetingId, AssistantTurn, Some(Greeting(selected)), None, None, None)];
    }

    /** The text input changed. */
    method SetInputText(value: string)
      modifies this
      ensures inputText == value
      ensures messages == old(messages) && inputImageFile == old(inputImageFile)
      ensures previewImageUrl == old(previewImageUrl) && isAssistantLoading == old(isAssistantLoading)
    {
      inputText := value;
    }

    /** `handleImageChange` with the chosen file's size, if a file was chosen: a file over 4 MiB is
      * refused and nothing changes; otherwise it is attached (its preview arrives later). */
    method HandleImageChange(fileSize: Option<int>) returns (refused: bool)
      modifies this
      ensures refused <==> fileSize.Some? && ImageTooLarge(fileSize.value)
      ensures fileSize.Some? && !refused ==> inputImageFile == fileSize
      ensures fileSize.None? || refused ==> inputImageFile == old(inputImageFile)
      ensures messages == old(messages) && inputText == old(inputText)
      ensures previewImageUrl == old(previewImageUrl) && isAssistantLoading == old(isAssistantLoading)
    {
      refused := false;
      if fileSize.Some? {
        if ImageTooLarge(fileSize.value) {
          refused := true;
          return;
        }
        inputImageFile := fileSize;
      }
    }

    /** The file reader finished: its data URI becomes the preview. */
    method ReceivePreview(dataUri: string)
      modifies this
      ensures previewImageUrl == Some(dataUri)
      ensures messages == old(messages) && inputText == old(inputText)
      ensures inputImageFile == old(inputImageFile) && isAssistantLoading == old(isAssistantLoading)
    {
      previewImageUrl := Some(dataUri);
    }

    /** `removeImage`. */
    method RemoveImage()
      modifies this
      ensures inputImageFile == None && previewImageUrl == None
      ensures messages == old(messages) && inputText == old(inputText) && isAssistantLoading == old(isAssistantLoading)
    {
      inputImageFile := None;
      previewImageUrl := None;
    }

    /** The synchronous part of `handleSendMessage`: unless the guard stops it, append the user
      * message and a loading placeholder, clear the inputs, and return the flow's input. */
    method BeginSend(userMessageId: string, assistantMessageId: string, selected: Option<Types.CoffeeMachine>)
      returns (request: Option<FlowInput>)
      modifies this
      ensures !ShouldSend(old(inputText), old(inputImageFile).Some?) ==>
        request == None && messages == old(messages) && inputText == old(inputText)
        && inputImageFile == old(inputImageFile) && previewImageUrl == old(previewImageUrl)
        && isAssistantLoading == old(isAssistantLoading)
      ensures ShouldSend(old(inputText), old(inputImageFile).Some?) ==>
        var user := Message(userMessageId, UserTurn, Some(Trim(old(inputText))), ImageForBackend(old(previewImageUrl)), None, None);
        messages == old(messages) + [user, Message(assistantMessageId, AssistantTurn, None, None, None, Some(true))]
        && request == Some(FlowInput(Some(Trim(old(inputText))), ImageForBackend(old(previewImageUrl)),
             Some(BuildHistory(old(messages) + [user], userMessageId)), MachineForFlow(selected)))
        && inputText == "" && inputImageFile == None && previewImageUrl == None && isAssistantLoading
    {
      if !ShouldSend(inputText, inputImageFile.Some?) {
        return None;
      }
      var text := Trim(inputText);
      var image := ImageForBackend(previewImageUrl);
      var user := Message(userMessageId, UserTurn, Some(text), image, None, None);
      request := Some(FlowInput(Some(text), image, Some(BuildHistory(messages + [user], userMessageId)), MachineForFlow(selected)));
      messages := messages + [user, Message(assistantMessageId, AssistantTurn, None, None, None, Some(true))];
      isAssistantLoading := true;
      inputText := "";
      inputImageFile, previewImageUrl := None, None;
    }

    /** The flow answered or failed: settle the placeholder with that id and stop loading. */
    method FinishSend(assistantMessageId: string, outcome: Outcome, allGuides: seq<Types.InstructionGuide>)
      modifies this
      ensures messages == ReplaceById(old(messages), assistantMessageId, outcome, allGuides)
      ensures !isAssistantLoading
      ensures inputText == old(inputText) && inputImageFile == old(inputImageFile) && previewImageUrl == old(previewImageUrl)
    {
      messages := ReplaceById(messages, assistantMessageId, outcome, allGuides);
      isAssistantLoading := false;
    }
  }

  /** A full exchange with fresh ids: the list grows by the user message and the settled reply,
    * and the flow's history is exactly the earlier messages. */
  method Exchange(panel: ChatPanel, userMessageId: string, assistantMessageId: string,
                  selected: Option<Types.CoffeeMachine>, outcome: Outcome, allGuides: seq<Types.InstructionGuide>)
    returns (request: Option<FlowInput>)
    requires ShouldSend(panel.inputText, panel.inputImageFile.Some?)
    requires userMessageId != assistantMessageId
    requires forall i :: 0 <= i < |panel.messages| ==>
      panel.messages[i].id != userMessageId && panel.messages[i].id != assistantMessageId
    modifies panel
    ensures |panel.messages| == |old(panel.messages)| + 2
    ensures panel.messages[..|old(panel.messages)|] == old(panel.messages)
    ensures panel.messages[|old(panel.messages)|].id == userMessageId
    ensures panel.messages[|old(panel.messages)| + 1] ==
      Settle(Message(assistantMessageId, AssistantTurn, None, None, None, Some(true)), outcome, allGuides)
    ensures request.Some? && request.value.chatHistory == Some(Seqs.MapSeq(old(panel.messages), ToEntry))
  {
    var before := panel.messages;
    var user := Message(userMessageId, UserTurn, Some(Trim(panel.inputText)), ImageForBackend(panel.previewImageUrl), None, None);
    var placeholder := Message(assistantMessageId, AssistantTurn, None, None, None, Some(true));
    request := panel.BeginSend(userMessageId, assistantMessageId, selected);
    HistoryExcludesCurrent(before, user);
    FreshAfterAppend(before, user, assistantMessageId);
    ReplaceLast(before + [user], placeholder, outcome, allGuides);
    panel.FinishSend(assistantMessageId, outcome, allGuides);
    AppendedTwo(before, user, Settle(placeholder, outcome, allGuides));
  }

  /** An id that no earlier message and not the appended one carries is still fresh after appending. */
  lemma FreshAfterAppend(before: seq<Message>, user: Message, id: string)
    requires forall i :: 0 <= i < |before| ==> before[i].id != id
    requires user.id != id
    ensures forall i :: 0 <= i < |before + [user]| ==> (before + [user])[i].id != id
  {
  }

  /** The shape of a list grown by two messages. */
  lemma AppendedTwo(before: seq<Message>, a: Message, b: Message)
    ensures var m := (before + [a]) + [b];
      |m| == |before| + 2 && m[..|before|] == before && m[|before|] == a && m[|before| + 1] == b
  {
    var m := (before + [a]) + [b];
    assert m[..|before|] == before;
  }

  /** Only the id "skip-selection" is suppressed: a machine with id "skip", such as the skip
    * sentinel of the troubleshooting page, would be forwarded as a machine named "Skip Selection". */
  lemma SkipSentinelForwarded()
    ensures MachineForFlow(Some(Types.CoffeeMachine("skip", "Skip", "Selection", None))) == Some(MachineRef("Skip", "Selection"))
    ensures MachineForFlow(Some(Types.CoffeeMachine("skip-selection", "Skip", "Selection", None))) == None
  {
  }
}
