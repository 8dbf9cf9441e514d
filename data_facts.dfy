/** Properties of the sample content (src/lib/data.ts) as the troubleshooting page uses it. */
module DataFacts {
  import opened Wrappers
  import opened Types
  import opened Data
  import opened Troubleshoot

  /** Step ids are unique. */
  lemma StepIdsUnique()
    ensures forall i, j :: 0 <= i < j < |TROUBLESHOOT_DATA| ==> TROUBLESHOOT_DATA[i].id != TROUBLESHOOT_DATA[j].id
  {
  }

  /** Since step ids are unique, looking up a step's id finds that step. */
  lemma LookupStep(k: nat)
    requires k < |TROUBLESHOOT_DATA|
    ensures FindStep(TROUBLESHOOT_DATA, TROUBLESHOOT_DATA[k].id) == Some(TROUBLESHOOT_DATA[k])
  {
    StepIdsUnique();
  }

  /** The entry step exists and is a question. */
  lemma EntryIsQuestion()
    ensures FindStep(TROUBLESHOOT_DATA, ENTRY_STEP_ID) == Some(TROUBLESHOOT_DATA[0])
    ensures TROUBLESHOOT_DATA[0].Question?
  {
    LookupStep(0);
  }

  /** Guide ids are unique, machine ids are unique, and `machine-004` is of the `Generic` brand. */
  lemma CatalogueIdsUnique()
    ensures forall i, j :: 0 <= i < j < |INSTRUCTION_GUIDES| ==> INSTRUCTION_GUIDES[i].id != INSTRUCTION_GUIDES[j].id
    ensures forall i, j :: 0 <= i < j < |COFFEE_MACHINES| ==> COFFEE_MACHINES[i].id != COFFEE_MACHINES[j].id
    ensures FindMachine(COFFEE_MACHINES, "machine-004") == Some(COFFEE_MACHINES[3])
    ensures COFFEE_MACHINES[3].brand == "Generic"
  {
  }

  /** Since guide ids are unique, looking up a guide's id finds that guide. */
  lemma LookupGuide(k: nat)
    requires k < |INSTRUCTION_GUIDES|
    ensures FindGuide(INSTRUCTION_GUIDES, INSTRUCTION_GUIDES[k].id) == Some(INSTRUCTION_GUIDES[k])
  {
    CatalogueIdsUnique();
  }

  /** Every solution's guide id names a catalogue entry. */
  lemma SolutionGuidesResolve()
    ensures forall i :: 0 <= i < |TROUBLESHOOT_DATA| && TROUBLESHOOT_DATA[i].Solution? && TROUBLESHOOT_DATA[i].guideId.Some?
              ==> FindGuide(INSTRUCTION_GUIDES, TROUBLESHOOT_DATA[i].guideId.value).Some?
  {
    forall i | 0 <= i < |TROUBLESHOOT_DATA| && TROUBLESHOOT_DATA[i].Solution? && TROUBLESHOOT_DATA[i].guideId.Some?
      ensures FindGuide(INSTRUCTION_GUIDES, TROUBLESHOOT_DATA[i].guideId.value).Some?
    {
      var g := TROUBLESHOOT_DATA[i].guideId.value;
      if g == "guide-001" { LookupGuide(0); }
      else if g == "guide-002" { LookupGuide(1); }
      else { assert g == "guide-003"; LookupGuide(2); }
    }
  }

  /** An id that no step carries is not found. */
  lemma NoStepWithId(t: string)
    requires forall i :: 0 <= i < |TROUBLESHOOT_DATA| ==> TROUBLESHOOT_DATA[i].id != t
    ensures FindStep(TROUBLESHOOT_DATA, t) == None
  {
  }

  /** The four option targets that name no step. */
  lemma SteamWandMissing()
    ensures FindStep(TROUBLESHOOT_DATA, "sol-leak-steamwand") == None
  {
    assert forall i :: 0 <= i < |TROUBLESHOOT_DATA| ==> TROUBLESHOOT_DATA[i].id != "sol-leak-steamwand";
    NoStepWithId("sol-leak-steamwand");
  }

  lemma UnderneathMissing()
    ensures FindStep(TROUBLESHOOT_DATA, "sol-leak-underneath") == None
  {
    assert forall i :: 0 <= i < |TROUBLESHOOT_DATA| ==> TROUBLESHOOT_DATA[i].id != "sol-leak-underneath";
    NoStepWithId("sol-leak-underneath");
  }

  lemma SourMissing()
    ensures FindStep(TROUBLESHOOT_DATA, "sol-bad-taste-sour") == None
  {
    assert forall i :: 0 <= i < |TROUBLESHOOT_DATA| ==> TROUBLESHOOT_DATA[i].id != "sol-bad-taste-sour";
    NoStepWithId("sol-bad-taste-sour");
  }

  lemma StaleMissing()
    ensures FindStep(TROUBLESHOOT_DATA, "sol-bad-taste-stale") == None
  {
    assert forall i :: 0 <= i < |TROUBLESHOOT_DATA| ==> TROUBLESHOOT_DATA[i].id != "sol-bad-taste-stale";
    NoStepWithId("sol-bad-taste-stale");
  }

  /** Where the options of the four questions lead, as positions in the step list. */
  lemma EntryOptionIds()
    ensures TROUBLESHOOT_DATA[0] == STEP_SYMPTOM_START && |STEP_SYMPTOM_START.options| == 4
    ensures STEP_SYMPTOM_START.options[0].nextStepId == TROUBLESHOOT_DATA[1].id
    ensures STEP_SYMPTOM_START.options[1].nextStepId == TROUBLESHOOT_DATA[3].id
    ensures STEP_SYMPTOM_START.options[2].nextStepId == TROUBLESHOOT_DATA[6].id
    ensures STEP_SYMPTOM_START.options[3].nextStepId == TROUBLESHOOT_DATA[8].id
  {
  }

  lemma LeakOptionIds()
    ensures TROUBLESHOOT_DATA[1] == STEP_Q_LEAK_LOCATION && |STEP_Q_LEAK_LOCATION.options| == 3
    ensures STEP_Q_LEAK_LOCATION.options[0].nextStepId == TROUBLESHOOT_DATA[2].id
    ensures STEP_Q_LEAK_LOCATION.options[1].nextStepId == "sol-leak-steamwand"
    ensures STEP_Q_LEAK_LOCATION.options[2].nextStepId == "sol-leak-underneath"
  {
  }

  lemma NoCoffeeOptionIds()
    ensures TROUBLESHOOT_DATA[3] == STEP_Q_NO_COFFEE_WATER && |STEP_Q_NO_COFFEE_WATER.options| == 2
    ensures STEP_Q_NO_COFFEE_WATER.options[0].nextStepId == TROUBLESHOOT_DATA[4].id
    ensures STEP_Q_NO_COFFEE_WATER.options[1].nextStepId == TROUBLESHOOT_DATA[5].id
  {
  }

  lemma BadTasteOptionIds()
    ensures TROUBLESHOOT_DATA[6] == STEP_Q_BAD_TASTE_TYPE && |STEP_Q_BAD_TASTE_TYPE.options| == 3
    ensures STEP_Q_BAD_TASTE_TYPE.options[0].nextStepId == TROUBLESHOOT_DATA[7].id
    ensures STEP_Q_BAD_TASTE_TYPE.options[1].nextStepId == "sol-bad-taste-sour"
    ensures STEP_Q_BAD_TASTE_TYPE.options[2].nextStepId == "sol-bad-taste-stale"
  {
  }

  /** The targets of the entry question all exist, and three of them are questions. */
  lemma EntryTargets()
    ensures FindStep(TROUBLESHOOT_DATA, STEP_SYMPTOM_START.options[0].nextStepId) == Some(STEP_Q_LEAK_LOCATION)
    ensures FindStep(TROUBLESHOOT_DATA, STEP_SYMPTOM_START.options[1].nextStepId) == Some(STEP_Q_NO_COFFEE_WATER)
    ensures FindStep(TROUBLESHOOT_DATA, STEP_SYMPTOM_START.options[2].nextStepId) == Some(STEP_Q_BAD_TASTE_TYPE)
    ensures FindStep(TROUBLESHOOT_DATA, STEP_SYMPTOM_START.options[3].nextStepId) == Some(STEP_SOL_POWER_CHECK)
  {
    EntryOptionIds();
    LookupStep(1); LookupStep(3); LookupStep(6); LookupStep(8);
  }

  /** Of the leak question's targets, only the group-head solution exists. */
  lemma LeakTargets()
    ensures FindStep(TROUBLESHOOT_DATA, STEP_Q_LEAK_LOCATION.options[0].nextStepId) == Some(STEP_SOL_LEAK_GROUPHEAD)
    ensures FindStep(TROUBLESHOOT_DATA, STEP_Q_LEAK_LOCATION.options[1].nextStepId) == None
    ensures FindStep(TROUBLESHOOT_DATA, STEP_Q_LEAK_LOCATION.options[2].nextStepId) == None
  {
    LeakOptionIds();
    LookupStep(2); SteamWandMissing(); UnderneathMissing();
  }

  /** Both targets of the no-coffee question exist. */
  lemma NoCoffeeTargets()
    ensures FindStep(TROUBLESHOOT_DATA, STEP_Q_NO_COFFEE_WATER.options[0].nextStepId) == Some(STEP_SOL_NO_COFFEE_GRIND_TAMP)
    ensures FindStep(TROUBLESHOOT_DATA, STEP_Q_NO_COFFEE_WATER.options[1].nextStepId) == Some(STEP_SOL_NO_COFFEE_BLOCKAGE)
  {
    NoCoffeeOptionIds();
    LookupStep(4); LookupStep(5);
  }

  /** Of the bad-taste question's targets, only the bitter-coffee solution exists. */
  lemma BadTasteTargets()
    ensures FindStep(TROUBLESHOOT_DATA, STEP_Q_BAD_TASTE_TYPE.options[0].nextStepId) == Some(STEP_SOL_BAD_TASTE_BITTER)
    ensures FindStep(TROUBLESHOOT_DATA, STEP_Q_BAD_TASTE_TYPE.options[1].nextStepId) == None
    ensures FindStep(TROUBLESHOOT_DATA, STEP_Q_BAD_TASTE_TYPE.options[2].nextStepId) == None
  {
    BadTasteOptionIds();
    LookupStep(7); SourMissing(); StaleMissing();
  }

  /** Answering "Machine is leaking water" and then "Steam wand" leads to an id that names no step,
    * so the page shows its step-not-found alert. */
  lemma StepNotFoundReachable(selected: Option<CoffeeMachine>)
    ensures Walk(TROUBLESHOOT_DATA, ENTRY_STEP_ID, [0, 1]) == Some("sol-leak-steamwand")
    ensures ScreenFor(TROUBLESHOOT_DATA, INSTRUCTION_GUIDES, "sol-leak-steamwand", selected) == StepNotFound
  {
    EntryIsQuestion(); EntryTargets(); LeakOptionIds();
    assert [0, 1][1..] == [1];
    assert STEP_Q_LEAK_LOCATION.options[1].nextStepId == "sol-leak-steamwand";
    SteamWandMissing();
  }

  /** A question with two, three or four options ends within `k` answers when each option's target
    * ends within `k - 1`. */
  lemma EndsAtTwoOptions(steps: seq<TroubleshootStep>, id: string, k: nat, q: TroubleshootStep)
    requires FindStep(steps, id) == Some(q) && q.Question? && k > 0 && |q.options| == 2
    requires EndsWithin(steps, q.options[0].nextStepId, k - 1)
    requires EndsWithin(steps, q.options[1].nextStepId, k - 1)
    ensures EndsWithin(steps, id, k)
  {
    forall i | 0 <= i < |q.options| ensures EndsWithin(steps, q.options[i].nextStepId, k - 1) {
      assert i == 0 || i == 1;
    }
    EndsAtQuestion(steps, id, k, q);
  }

  lemma EndsAtThreeOptions(steps: seq<TroubleshootStep>, id: string, k: nat, q: TroubleshootStep)
    requires FindStep(steps, id) == Some(q) && q.Question? && k > 0 && |q.options| == 3
    requires EndsWithin(steps, q.options[0].nextStepId, k - 1)
    requires EndsWithin(steps, q.options[1].nextStepId, k - 1)
    requires EndsWithin(steps, q.options[2].nextStepId, k - 1)
    ensures EndsWithin(steps, id, k)
  {
    forall i | 0 <= i < |q.options| ensures EndsWithin(steps, q.options[i].nextStepId, k - 1) {
      assert i == 0 || i == 1 || i == 2;
    }
    EndsAtQuestion(steps, id, k, q);
  }

  lemma EndsAtFourOptions(steps: seq<TroubleshootStep>, id: string, k: nat, q: TroubleshootStep)
    requires FindStep(steps, id) == Some(q) && q.Question? && k > 0 && |q.options| == 4
    requires EndsWithin(steps, q.options[0].nextStepId, k - 1)
    requires EndsWithin(steps, q.options[1].nextStepId, k - 1)
    requires EndsWithin(steps, q.options[2].nextStepId, k - 1)
    requires EndsWithin(steps, q.options[3].nextStepId, k - 1)
    ensures EndsWithin(steps, id, k)
  {
    forall i | 0 <= i < |q.options| ensures EndsWithin(steps, q.options[i].nextStepId, k - 1) {
      assert i == 0 || i == 1 || i == 2 || i == 3;
    }
    EndsAtQuestion(steps, id, k, q);
  }

  /** The solutions and missing ids below the leak question end every path at once. */
  lemma LeakLeaves()
    ensures EndsWithin(TROUBLESHOOT_DATA, STEP_Q_LEAK_LOCATION.options[0].nextStepId, 0)
    ensures EndsWithin(TROUBLESHOOT_DATA, STEP_Q_LEAK_LOCATION.options[1].nextStepId, 0)
    ensures EndsWithin(TROUBLESHOOT_DATA, STEP_Q_LEAK_LOCATION.options[2].nextStepId, 0)
  {
    LeakTargets();
    EndsAtNonQuestion(TROUBLESHOOT_DATA, STEP_Q_LEAK_LOCATION.options[0].nextStepId, 0);
    EndsAtNonQuestion(TROUBLESHOOT_DATA, STEP_Q_LEAK_LOCATION.options[1].nextStepId, 0);
    EndsAtNonQuestion(TROUBLESHOOT_DATA, STEP_Q_LEAK_LOCATION.options[2].nextStepId, 0);
  }

  lemma NoCoffeeLeaves()
    ensures EndsWithin(TROUBLESHOOT_DATA, STEP_Q_NO_COFFEE_WATER.options[0].nextStepId, 0)
    ensures EndsWithin(TROUBLESHOOT_DATA, STEP_Q_NO_COFFEE_WATER.options[1].nextStepId, 0)
  {
    NoCoffeeTargets();
    EndsAtNonQuestion(TROUBLESHOOT_DATA, STEP_Q_NO_COFFEE_WATER.options[0].nextStepId, 0);
    EndsAtNonQuestion(TROUBLESHOOT_DATA, STEP_Q_NO_COFFEE_WATER.options[1].nextStepId, 0);
  }

  lemma BadTasteLeaves()
    ensures EndsWithin(TROUBLESHOOT_DATA, STEP_Q_BAD_TASTE_TYPE.options[0].nextStepId, 0)
    ensures EndsWithin(TROUBLESHOOT_DATA, STEP_Q_BAD_TASTE_TYPE.options[1].nextStepId, 0)
    ensures EndsWithin(TROUBLESHOOT_DATA, STEP_Q_BAD_TASTE_TYPE.options[2].nextStepId, 0)
  {
    BadTasteTargets();
    EndsAtNonQuestion(TROUBLESHOOT_DATA, STEP_Q_BAD_TASTE_TYPE.options[0].nextStepId, 0);
    EndsAtNonQuestion(TROUBLESHOOT_DATA, STEP_Q_BAD_TASTE_TYPE.options[1].nextStepId, 0);
    EndsAtNonQuestion(TROUBLESHOOT_DATA, STEP_Q_BAD_TASTE_TYPE.options[2].nextStepId, 0);
  }

  /** Each of the three follow-up questions leads straight to a solution or a missing id. */
  lemma FollowUpsEndWithinOne()
    ensures EndsWithin(TROUBLESHOOT_DATA, STEP_SYMPTOM_START.options[0].nextStepId, 1)
    ensures EndsWithin(TROUBLESHOOT_DATA, STEP_SYMPTOM_START.options[1].nextStepId, 1)
    ensures EndsWithin(TROUBLESHOOT_DATA, STEP_SYMPTOM_START.options[2].nextStepId, 1)
  {
    EntryOptionIds(); EntryTargets();
    LeakOptionIds(); LeakLeaves();
    EndsAtThreeOptions(TROUBLESHOOT_DATA, STEP_SYMPTOM_START.options[0].nextStepId, 1, STEP_Q_LEAK_LOCATION);
    NoCoffeeOptionIds(); NoCoffeeLeaves();
    EndsAtTwoOptions(TROUBLESHOOT_DATA, STEP_SYMPTOM_START.options[1].nextStepId, 1, STEP_Q_NO_COFFEE_WATER);
    BadTasteOptionIds(); BadTasteLeaves();
    EndsAtThreeOptions(TROUBLESHOOT_DATA, STEP_SYMPTOM_START.options[2].nextStepId, 1, STEP_Q_BAD_TASTE_TYPE);
  }

  /** Every path from the entry step ends, at a solution or a missing id, within two answers. */
  lemma EntryEndsWithinTwo()
    ensures EndsWithin(TROUBLESHOOT_DATA, ENTRY_STEP_ID, 2)
  {
    EntryIsQuestion(); EntryOptionIds(); EntryTargets(); FollowUpsEndWithinOne();
    EndsAtNonQuestion(TROUBLESHOOT_DATA, STEP_SYMPTOM_START.options[3].nextStepId, 1);
    EndsAtFourOptions(TROUBLESHOOT_DATA, ENTRY_STEP_ID, 2, STEP_SYMPTOM_START);
  }

  /** So the sample graph has no cycle through the entry step ... */
  lemma EntryAcyclic(path: seq<nat>)
    requires |path| > 0
    ensures Walk(TROUBLESHOOT_DATA, ENTRY_STEP_ID, path) != Some(ENTRY_STEP_ID)
  {
    EntryEndsWithinTwo();
    NoCycle(TROUBLESHOOT_DATA, ENTRY_STEP_ID, 2, path);
  }

  /** ... and no answer path from it is longer than two. */
  lemma EntryPathsAtMostTwo(path: seq<nat>)
    requires |path| > 2
    ensures Walk(TROUBLESHOOT_DATA, ENTRY_STEP_ID, path) == None
  {
    EntryEndsWithinTwo();
    EndsWithinBoundsWalk(TROUBLESHOOT_DATA, ENTRY_STEP_ID, 2, path);
  }

  /** Exactly the blockage and the power solutions advise professional help. */
  lemma ProfessionalHelpSteps()
    ensures forall i :: 0 <= i < |TROUBLESHOOT_DATA| ==>
              (TROUBLESHOOT_DATA[i].Solution? && TROUBLESHOOT_DATA[i].professionalHelp == Some(true) <==>
               i == 5 || i == 8)
    ensures TROUBLESHOOT_DATA[5].id == "sol-no-coffee-blockage" && TROUBLESHOOT_DATA[8].id == "sol-power-check"
  {
  }

  /** With the Breville Barista Express selected, the DeLonghi descaling guide (Maintenance) gives way
    * to the generic maintenance guide: no Breville guide of that category exists. */
  lemma ResolveForBreville()
    ensures GetRelevantGuide(INSTRUCTION_GUIDES, Some(COFFEE_MACHINES[0]), Some("guide-002")) == Some(GUIDE_004)
  {
    var m := COFFEE_MACHINES[0];
    assert FirstWithId(INSTRUCTION_GUIDES, "guide-002", 1);
    ResolveThenGeneric(INSTRUCTION_GUIDES, m, "guide-002", 1, 3);
  }

  /** With the DeLonghi Magnifica selected, the Gaggia repair guide stays: there is neither a DeLonghi
    * nor a generic repair guide. */
  lemma ResolveForDeLonghi()
    ensures GetRelevantGuide(INSTRUCTION_GUIDES, Some(COFFEE_MACHINES[1]), Some("guide-003")) == Some(GUIDE_003)
  {
    var m := COFFEE_MACHINES[1];
    assert FirstWithId(INSTRUCTION_GUIDES, "guide-003", 2);
    ResolveElseCandidate(INSTRUCTION_GUIDES, m, "guide-003", 2);
  }

  /** The skip sentinel counts as a selected machine: its brand matches no guide, so the DeLonghi
    * descaling guide still gives way to the generic maintenance guide. */
  lemma ResolveForSkipSentinel()
    ensures GetRelevantGuide(INSTRUCTION_GUIDES, Some(SKIP_MACHINE), Some("guide-002")) == Some(GUIDE_004)
  {
    assert FirstWithId(INSTRUCTION_GUIDES, "guide-002", 1);
    ResolveThenGeneric(INSTRUCTION_GUIDES, SKIP_MACHINE, "guide-002", 1, 3);
  }
}
