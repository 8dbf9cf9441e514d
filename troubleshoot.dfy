/** The scripted troubleshooting session and its guide resolver (src/app/troubleshoot/page.tsx). */
module Troubleshoot {
  import opened Wrappers
  import opened Types
  import Seqs
  import Data

  /** The id every session starts from and every restart returns to. */
  const ENTRY_STEP_ID: string := "symptom-start"

  /** The id, brand and model of the machine set by "Skip machine selection". */
  const SKIP_MACHINE: CoffeeMachine := CoffeeMachine("skip", "Skip", "Selection", None)

  /** The step with id `id`, the first one if several share it; `None` when there is none. */
  function FindStep(steps: seq<TroubleshootStep>, id: string): (r: Option<TroubleshootStep>)
    ensures r.Some? ==> r.value in steps && r.value.id == id
    ensures r.None? <==> forall i :: 0 <= i < |steps| ==> steps[i].id != id
    ensures forall i :: 0 <= i < |steps| && steps[i].id == id && (forall j :: 0 <= j < i ==> steps[j].id != id)
                        ==> r == Some(steps[i])
  {
    if |steps| == 0 then None
    else if steps[0].id == id then Some(steps[0])
    else FindStep(steps[1..], id)
  }

  /** The first machine of the list with id `id`. */
  function FindMachine(machines: seq<CoffeeMachine>, id: string): (r: Option<CoffeeMachine>)
    ensures r.Some? ==> r.value in machines && r.value.id == id
    ensures r.None? <==> forall i :: 0 <= i < |machines| ==> machines[i].id != id
    ensures forall i :: 0 <= i < |machines| && machines[i].id == id && (forall j :: 0 <= j < i ==> machines[j].id != id)
                        ==> r == Some(machines[i])
  {
    if |machines| == 0 then None
    else if machines[0].id == id then Some(machines[0])
    else FindMachine(machines[1..], id)
  }

  /** The first guide of the catalogue with id `id`. */
  function FindGuide(guides: seq<InstructionGuide>, id: string): (r: Option<InstructionGuide>)
    ensures r.Some? ==> r.value in guides && r.value.id == id
    ensures r.None? <==> forall i :: 0 <= i < |guides| ==> guides[i].id != id
    ensures forall i :: 0 <= i < |guides| && guides[i].id == id && (forall j :: 0 <= j < i ==> guides[j].id != id)
                        ==> r == Some(guides[i])
  {
    if |guides| == 0 then None
    else if guides[0].id == id then Some(guides[0])
    else FindGuide(guides[1..], id)
  }

  /** The guide was written for exactly the selected machine. */
  predicate SameMachine(g: InstructionGuide, m: CoffeeMachine) {
    g.machineBrand == m.brand && g.machineModel == m.model
  }

  /** First fallback: selected brand, same category, and model `Generic` or the selected model. */
  predicate BrandCategoryMatch(g: InstructionGuide, m: CoffeeMachine, c: Category) {
    g.machineBrand == m.brand && g.category == c && (g.machineModel == "Generic" || g.machineModel == m.model)
  }

  /** Second fallback: brand `Generic` and same category, whatever the model. */
  predicate GenericCategoryMatch(g: InstructionGuide, c: Category) {
    g.machineBrand == "Generic" && g.category == c
  }

  /** The first guide satisfying the first fallback's test. */
  function FindBrandCategory(guides: seq<InstructionGuide>, m: CoffeeMachine, c: Category): (r: Option<InstructionGuide>)
    ensures r.Some? ==> r.value in guides && BrandCategoryMatch(r.value, m, c)
    ensures r.None? <==> forall i :: 0 <= i < |guides| ==> !BrandCategoryMatch(guides[i], m, c)
    ensures forall i :: 0 <= i < |guides| && BrandCategoryMatch(guides[i], m, c)
                        && (forall j :: 0 <= j < i ==> !BrandCategoryMatch(guides[j], m, c))
                        ==> r == Some(guides[i])
  {
    if |guides| == 0 then None
    else if BrandCategoryMatch(guides[0], m, c) then Some(guides[0])
    else FindBrandCategory(guides[1..], m, c)
  }

  /** The first guide satisfying the second fallback's test. */
  function FindGenericCategory(guides: seq<InstructionGuide>, c: Category): (r: Option<InstructionGuide>)
    ensures r.Some? ==> r.value in guides && GenericCategoryMatch(r.value, c)
    ensures r.None? <==> forall i :: 0 <= i < |guides| ==> !GenericCategoryMatch(guides[i], c)
    ensures forall i :: 0 <= i < |guides| && GenericCategoryMatch(guides[i], c)
                        && (forall j :: 0 <= j < i ==> !GenericCategoryMatch(guides[j], c))
                        ==> r == Some(guides[i])
  {
    if |guides| == 0 then None
    else if GenericCategoryMatch(guides[0], c) then Some(guides[0])
    else FindGenericCategory(guides[1..], c)
  }

  /** `getRelevantGuide`: the guide a solution links to, replaced by a better fit for the selected
    * machine when the linked guide was written for another machine. */
  function GetRelevantGuide(guides: seq<InstructionGuide>, selected: Option<CoffeeMachine>, guideId: Option<string>)
    : (r: Option<InstructionGuide>)
    ensures r.Some? ==> r.value in guides
  {
    if guideId.None? || guideId.value == "" then None
    else
      var guide := FindGuide(guides, guideId.value);
      if selected.Some? && guide.Some? && !SameMachine(guide.value, selected.value) then
        var m := selected.value;
        var c := guide.value.category;
        var brandCategoryGuide := FindBrandCategory(guides, m, c);
        if brandCategoryGuide.Some? then brandCategoryGuide
        else
          var genericCategoryGuide := FindGenericCategory(guides, c);
          if genericCategoryGuide.Some? then genericCategoryGuide else guide
      else guide
  }

  /** `i` is the position of the first catalogue entry with id `id`: the direct lookup's result. */
  ghost predicate FirstWithId(guides: seq<InstructionGuide>, id: string, i: nat) {
    i < |guides| && guides[i].id == id && forall j :: 0 <= j < i ==> guides[j].id != id
  }

  /** An absent or empty guide id resolves to nothing. */
  lemma ResolveWithoutId(guides: seq<InstructionGuide>, selected: Option<CoffeeMachine>, guideId: Option<string>)
    requires guideId.None? || guideId == Some("")
    ensures GetRelevantGuide(guides, selected, guideId) == None
  {
  }

  /** The direct lookup is returned unchanged when it finds nothing, when no machine is selected,
    * or when the guide was written for exactly the selected machine. */
  lemma ResolveDirect(guides: seq<InstructionGuide>, selected: Option<CoffeeMachine>, id: string)
    requires id != ""
    requires || (forall j :: 0 <= j < |guides| ==> guides[j].id != id)
             || selected.None?
             || (exists i: nat :: FirstWithId(guides, id, i) && SameMachine(guides[i], selected.value))
    ensures GetRelevantGuide(guides, selected, Some(id)) == FindGuide(guides, id)
  {
    if selected.Some? && exists i: nat :: FirstWithId(guides, id, i) && SameMachine(guides[i], selected.value) {
      var i: nat :| FirstWithId(guides, id, i) && SameMachine(guides[i], selected.value);
      assert FindGuide(guides, id) == Some(guides[i]);
    }
  }

  /** On a mismatch the first catalogue guide of the selected brand, the candidate's category and a
    * `Generic` or the selected model wins, in catalogue order. */
  lemma ResolvePrefersBrand(guides: seq<InstructionGuide>, m: CoffeeMachine, id: string, i: nat, k: nat)
    requires id != "" && FirstWithId(guides, id, i) && !SameMachine(guides[i], m)
    requires k < |guides| && BrandCategoryMatch(guides[k], m, guides[i].category)
    requires forall j :: 0 <= j < k ==> !BrandCategoryMatch(guides[j], m, guides[i].category)
    ensures GetRelevantGuide(guides, Some(m), Some(id)) == Some(guides[k])
  {
    assert FindGuide(guides, id) == Some(guides[i]);
  }

  /** With no guide of the selected brand to fall back to, the first `Generic`-brand guide of the
    * candidate's category wins, whatever its model. */
  lemma ResolveThenGeneric(guides: seq<InstructionGuide>, m: CoffeeMachine, id: string, i: nat, k: nat)
    requires id != "" && FirstWithId(guides, id, i) && !SameMachine(guides[i], m)
    requires forall j :: 0 <= j < |guides| ==> !BrandCategoryMatch(guides[j], m, guides[i].category)
    requires k < |guides| && GenericCategoryMatch(guides[k], guides[i].category)
    requires forall j :: 0 <= j < k ==> !GenericCategoryMatch(guides[j], guides[i].category)
    ensures GetRelevantGuide(guides, Some(m), Some(id)) == Some(guides[k])
  {
    assert FindGuide(guides, id) == Some(guides[i]);
  }

  /** With neither fallback available, the candidate itself is returned. */
  lemma ResolveElseCandidate(guides: seq<InstructionGuide>, m: CoffeeMachine, id: string, i: nat)
    requires id != "" && FirstWithId(guides, id, i) && !SameMachine(guides[i], m)
    requires forall j :: 0 <= j < |guides| ==> !BrandCategoryMatch(guides[j], m, guides[i].category)
    requires forall j :: 0 <= j < |guides| ==> !GenericCategoryMatch(guides[j], guides[i].category)
    ensures GetRelevantGuide(guides, Some(m), Some(id)) == Some(guides[i])
  {
    assert FindGuide(guides, id) == Some(guides[i]);
  }

  /** Whatever the path taken, a guide is resolved exactly when the id is non-empty and names a
    * catalogue entry, and the result is a catalogue entry with the candidate's category. */
  lemma ResolveInCatalogue(guides: seq<InstructionGuide>, selected: Option<CoffeeMachine>, id: string)
    ensures GetRelevantGuide(guides, selected, Some(id)).Some? <==> id != "" && FindGuide(guides, id).Some?
    ensures GetRelevantGuide(guides, selected, Some(id)).Some? ==>
              GetRelevantGuide(guides, selected, Some(id)).value in guides &&
              GetRelevantGuide(guides, selected, Some(id)).value.category == FindGuide(guides, id).value.category
  {
    var guide := FindGuide(guides, id);
    if id != "" && selected.Some? && guide.Some? && !SameMachine(guide.value, selected.value) {
      var c := guide.value.category;
      var b := FindBrandCategory(guides, selected.value, c);
      var g := FindGenericCategory(guides, c);
      assert b.Some? ==> b.value.category == c;
      assert g.Some? ==> g.value.category == c;
    }
  }

  /** A guide of the selected brand that fits the first fallback is always preferred to a guide of
    * the `Generic` brand: the result then carries the selected brand. */
  lemma ResolveKeepsSelectedBrand(guides: seq<InstructionGuide>, m: CoffeeMachine, id: string, i: nat, k: nat)
    requires id != "" && FirstWithId(guides, id, i) && !SameMachine(guides[i], m)
    requires k < |guides| && BrandCategoryMatch(guides[k], m, guides[i].category)
    ensures GetRelevantGuide(guides, Some(m), Some(id)).Some?
    ensures GetRelevantGuide(guides, Some(m), Some(id)).value.machineBrand == m.brand
  {
    assert FindGuide(guides, id) == Some(guides[i]);
  }

  /** What the page shows: the step-not-found alert, a question, or a solution with its resolved guide. */
  datatype Screen =
    | StepNotFound
    | AtQuestion(question: TroubleshootStep)
    | AtSolution(solution: TroubleshootStep, guide: Option<InstructionGuide>)

  /** What the user can do on the page. */
  datatype Action = Answer(nextStepId: string) | Back | Restart | SelectMachine | SkipMachine | ChangeMachine

  /** The screen for a current step id (the early return at :82-95 and the two step views). */
  function ScreenFor(steps: seq<TroubleshootStep>, guides: seq<InstructionGuide>, currentId: string,
                     selected: Option<CoffeeMachine>): (s: Screen)
    ensures s.StepNotFound? <==> forall i :: 0 <= i < |steps| ==> steps[i].id != currentId
    ensures s.AtQuestion? ==> s.question.Question? && s.question in steps && s.question.id == currentId
    ensures s.AtSolution? ==> s.solution.Solution? && s.solution in steps && s.solution.id == currentId
                              && s.guide == GetRelevantGuide(guides, selected, s.solution.guideId)
  {
    match FindStep(steps, currentId)
    case None => StepNotFound
    case Some(step) =>
      if step.Question? then AtQuestion(step) else AtSolution(step, GetRelevantGuide(guides, selected, step.guideId))
  }

  /** One answer button per option of a question, in option order; none for a solution. */
  function AnswerActions(step: TroubleshootStep): (r: seq<Action>)
    ensures forall next :: Answer(next) in r <==>
              step.Question? && exists k :: 0 <= k < |step.options| && step.options[k].nextStepId == next
    ensures Back !in r && Restart !in r
  {
    if step.Question? then Seqs.MapSeq(step.options, (o: TroubleshootOption) => Answer(o.nextStepId)) else []
  }

  /** The buttons the page offers, in page order: restart always comes last. */
  function Actions(steps: seq<TroubleshootStep>, currentId: string, history: seq<string>,
                   selected: Option<CoffeeMachine>): (r: seq<Action>)
    ensures |r| > 0 && r[|r| - 1] == Restart
  {
    match FindStep(steps, currentId)
    case None => [Restart]
    case Some(step) =>
      (if |history| > 0 then [Back] else [])
      + (if selected.None? then [SelectMachine, SkipMachine] else [ChangeMachine])
      + AnswerActions(step)
      + [Restart]
  }

  /** In the step-not-found state the only thing the user can do is restart. */
  lemma NotFoundOnlyRestart(steps: seq<TroubleshootStep>, currentId: string, history: seq<string>,
                            selected: Option<CoffeeMachine>)
    requires forall i :: 0 <= i < |steps| ==> steps[i].id != currentId
    ensures Actions(steps, currentId, history, selected) == [Restart]
  {
  }

  /** On an existing step restart is always offered, back exactly when the history is non-empty,
    * and an answer for exactly the options of a question. */
  lemma FoundStepActions(steps: seq<TroubleshootStep>, currentId: string, history: seq<string>,
                         selected: Option<CoffeeMachine>, next: string)
    requires FindStep(steps, currentId).Some?
    ensures Restart in Actions(steps, currentId, history, selected)
    ensures Back in Actions(steps, currentId, history, selected) <==> |history| > 0
    ensures Answer(next) in Actions(steps, currentId, history, selected) <==>
              var step := FindStep(steps, currentId).value;
              step.Question? && exists k :: 0 <= k < |step.options| && step.options[k].nextStepId == next
  {
    var step := FindStep(steps, currentId).value;
    var back: seq<Action> := if |history| > 0 then [Back] else [];
    var machine := if selected.None? then [SelectMachine, SkipMachine] else [ChangeMachine];
    var answers := AnswerActions(step);
    var acts := Actions(steps, currentId, history, selected);
    assert acts == back + machine + answers + [Restart];
    InFourParts(back, machine, answers, [Restart], Restart);
    InFourParts(back, machine, answers, [Restart], Back);
    InFourParts(back, machine, answers, [Restart], Answer(next));
  }

  /** Membership in a sequence of four parts. */
  lemma InFourParts(a: seq<Action>, b: seq<Action>, c: seq<Action>, d: seq<Action>, x: Action)
    ensures x in a + b + c + d <==> x in a || x in b || x in c || x in d
  {
  }

  /** The step reached by answering the options at positions `path` in turn from step `id`;
    * `None` once an answer is asked for at a step that is missing, a solution, or lacks that option. */
  function Walk(steps: seq<TroubleshootStep>, id: string, path: seq<nat>): Option<string>
    decreases |path|
  {
    if |path| == 0 then Some(id)
    else match FindStep(steps, id)
      case Some(Question(_, _, options)) =>
        if path[0] < |options| then Walk(steps, options[path[0]].nextStepId, path[1..]) else None
      case _ => None
  }

  /** Walking a concatenated path is walking its two halves in turn. */
  lemma {:induction false} WalkAppend(steps: seq<TroubleshootStep>, id: string, p: seq<nat>, q: seq<nat>)
    ensures Walk(steps, id, p + q) == match Walk(steps, id, p) case Some(mid) => Walk(steps, mid, q) case None => None
    decreases |p|
  {
    if |p| > 0 {
      assert (p + q)[0] == p[0] && (p + q)[1..] == p[1..] + q;
      match FindStep(steps, id)
      case Some(Question(_, _, options)) =>
        if p[0] < |options| { WalkAppend(steps, options[p[0]].nextStepId, p[1..], q); }
      case _ =>
    } else {
      assert p + q == q;
    }
  }

  /** A walk that reaches `mid` continues from `mid`. */
  lemma WalkThrough(steps: seq<TroubleshootStep>, id: string, p: seq<nat>, q: seq<nat>, mid: string)
    requires Walk(steps, id, p) == Some(mid)
    ensures Walk(steps, id, p + q) == Walk(steps, mid, q)
  {
    WalkAppend(steps, id, p, q);
  }

  /** Every answer path from `id` stops, at a solution or at a missing id, within `k` answers. */
  predicate EndsWithin(steps: seq<TroubleshootStep>, id: string, k: nat)
    decreases k
  {
    match FindStep(steps, id)
    case Some(Question(_, _, options)) =>
      k > 0 && forall i :: 0 <= i < |options| ==> EndsWithin(steps, options[i].nextStepId, k - 1)
    case _ => true
  }

  /** A solution or a missing id ends every path at once. */
  lemma EndsAtNonQuestion(steps: seq<TroubleshootStep>, id: string, k: nat)
    requires FindStep(steps, id).None? || FindStep(steps, id).value.Solution?
    ensures EndsWithin(steps, id, k)
  {
  }

  /** A question ends every path within `k` answers when each of its options does within `k - 1`. */
  lemma EndsAtQuestion(steps: seq<TroubleshootStep>, id: string, k: nat, q: TroubleshootStep)
    requires FindStep(steps, id) == Some(q) && q.Question? && k > 0
    requires forall i :: 0 <= i < |q.options| ==> EndsWithin(steps, q.options[i].nextStepId, k - 1)
    ensures EndsWithin(steps, id, k)
  {
  }

  /** If every path ends within `k` answers, no path of more than `k` answers can be followed. */
  lemma {:induction false} EndsWithinBoundsWalk(steps: seq<TroubleshootStep>, id: string, k: nat, path: seq<nat>)
    requires EndsWithin(steps, id, k) && |path| > k
    ensures Walk(steps, id, path) == None
    decreases k
  {
    match FindStep(steps, id)
    case Some(Question(_, _, options)) =>
      if path[0] < |options| {
        EndsWithinBoundsWalk(steps, options[path[0]].nextStepId, k - 1, path[1..]);
      }
    case _ =>
  }

  /** `n` copies of `path`, one after the other. */
  function Repeat(path: seq<nat>, n: nat): (r: seq<nat>)
    ensures |path| > 0 ==> |r| >= n
  {
    if n == 0 then [] else Repeat(path, n - 1) + path
  }

  /** A walk that returns to its start can be repeated any number of times. */
  lemma {:induction false} WalkRepeat(steps: seq<TroubleshootStep>, id: string, path: seq<nat>, n: nat)
    requires Walk(steps, id, path) == Some(id)
    ensures Walk(steps, id, Repeat(path, n)) == Some(id)
  {
    if n > 0 {
      WalkRepeat(steps, id, path, n - 1);
      WalkThrough(steps, id, Repeat(path, n - 1), path, id);
    }
  }

  /** A graph in which every path ends within `k` answers has no cycle: no non-empty walk returns
    * to where it started. */
  lemma NoCycle(steps: seq<TroubleshootStep>, id: string, k: nat, path: seq<nat>)
    requires EndsWithin(steps, id, k) && |path| > 0
    ensures Walk(steps, id, path) != Some(id)
  {
    if Walk(steps, id, path) == Some(id) {
      WalkRepeat(steps, id, path, k + 1);
      EndsWithinBoundsWalk(steps, id, k, Repeat(path, k + 1));
    }
  }

  /** The session state of the troubleshooting page. */
  class Session {
    var currentStepId: string
    var history: seq<string>
    var selectedMachine: Option<CoffeeMachine>

    /** A session starts at the entry step with an empty history and no machine. */
    constructor ()
      ensures currentStepId == ENTRY_STEP_ID && history == [] && selectedMachine == None
    {
      currentStepId := ENTRY_STEP_ID;
      history := [];
      selectedMachine := None;
    }

    /** `handleOptionClick`: push the current id and move to the option's target. */
    method HandleOptionClick(nextStepId: string)
      modifies this
      ensures history == old(history) + [old(currentStepId)]
      ensures currentStepId == nextStepId
      ensures selectedMachine == old(selectedMachine)
    {
      history := history + [currentStepId];
      currentStepId := nextStepId;
    }

    /** `handleBack`: `pop()` shortens the history in place, and the popped id becomes current unless
      * it is falsy: an empty id is dropped from the history without moving. */
    method HandleBack()
      modifies this
      ensures old(history) == [] ==> history == [] && currentStepId == old(currentStepId)
      ensures old(history) != [] ==>
                history == old(history)[..|old(history)| - 1] &&
                currentStepId == (if old(history)[|old(history)| - 1] != "" then old(history)[|old(history)| - 1]
                                  else old(currentStepId))
      ensures selectedMachine == old(selectedMachine)
    {
      var previousStepId: Option<string> := None;
      if |history| > 0 {
        previousStepId := Some(history[|history| - 1]);
        history := history[..|history| - 1];
      }
      if previousStepId.Some? && previousStepId.value != "" {
        currentStepId := previousStepId.value;
      }
    }

    /** `handleRestart`: back to the entry step with an empty history; the machine stays selected. */
    method HandleRestart()
      modifies this
      ensures currentStepId == ENTRY_STEP_ID && history == []
      ensures selectedMachine == old(selectedMachine)
    {
      currentStepId := ENTRY_STEP_ID;
      history := [];
    }

    /** `handleMachineSelect`: the machine with that id from the machine list, or none. */
    method HandleMachineSelect(machineId: string)
      modifies this
      ensures selectedMachine == FindMachine(Data.COFFEE_MACHINES, machineId)
      ensures currentStepId == old(currentStepId) && history == old(history)
    {
      selectedMachine := FindMachine(Data.COFFEE_MACHINES, machineId);
    }

    /** "Skip machine selection": the sentinel machine is selected. */
    method SkipMachineSelection()
      modifies this
      ensures selectedMachine == Some(SKIP_MACHINE)
      ensures currentStepId == old(currentStepId) && history == old(history)
    {
      selectedMachine := Some(SKIP_MACHINE);
    }

    /** "Change machine": the selection is cleared. */
    method ClearMachine()
      modifies this
      ensures selectedMachine == None
      ensures currentStepId == old(currentStepId) && history == old(history)
    {
      selectedMachine := None;
    }
  }

  /** Back right after an answer restores both the previous step and the previous history
    * (for a non-empty current id, which every id of the sample graph is). */
  method AnswerThenBack(s: Session, nextStepId: string)
    requires s.currentStepId != ""
    modifies s
    ensures s.currentStepId == old(s.currentStepId) && s.history == old(s.history)
    ensures s.selectedMachine == old(s.selectedMachine)
  {
    s.HandleOptionClick(nextStepId);
    s.HandleBack();
  }

  /** Back on an empty history changes nothing. */
  method BackOnEmptyHistory(s: Session)
    requires s.history == []
    modifies s
    ensures s.currentStepId == old(s.currentStepId) && s.history == [] && s.selectedMachine == old(s.selectedMachine)
  {
    s.HandleBack();
  }
}
