/** The sample content (src/lib/data.ts): the machine list, the guide catalogue and the
  * troubleshooting step graph, as constants. */
module Data {
  import opened Wrappers
  import opened Types

  const COFFEE_MACHINES: seq<CoffeeMachine> := [
    CoffeeMachine("machine-001", "Breville", "Barista Express", None),
    CoffeeMachine("machine-002", "DeLonghi", "Magnifica", None),
    CoffeeMachine("machine-003", "Gaggia", "Classic Pro", None),
    CoffeeMachine("machine-004", "Generic", "Espresso Pro", None)
  ]


  const GUIDE_001: InstructionGuide := InstructionGuide(
    "guide-001",
    "Daily Cleaning Routine for Breville Barista Express",
    Cleaning, "Breville", "Barista Express",
    "Learn the essential daily cleaning steps to keep your Breville Barista Express in top condition.",
    Some("https://picsum.photos/seed/guide1/400/300"),
    [ GuideStep("Flush Group Head", "Run water through the group head to remove coffee grounds.", None, None),
      GuideStep("Clean Portafilter", "Wipe the portafilter basket clean after each use.", None, None),
      // src/lib/data.ts gives this step an `imageUrl` key, which is not the type's `image` field
      GuideStep("Purge Steam Wand", "Purge and wipe the steam wand immediately after frothing milk.", None, None) ],
    Some(["Cleaning brush", "Microfiber cloth"]),
    Some(["Ensure machine is cooled down before cleaning steam wand tip."]))

  const GUIDE_002: InstructionGuide := InstructionGuide(
    "guide-002",
    "Descale Your DeLonghi Magnifica",
    Maintenance, "DeLonghi", "Magnifica",
    "A step-by-step guide to descaling your DeLonghi Magnifica for optimal performance and longevity.",
    Some("https://picsum.photos/seed/guide2/400/300"),
    [ GuideStep("Prepare Descaling Solution", "Mix the descaling solution according to the manufacturer's instructions.", None, None),
      GuideStep("Run Descaling Cycle", "Follow your machine's specific descaling cycle instructions.",
        None, Some("https://www.youtube.com/embed/exampleVideoID")),
      GuideStep("Rinse Thoroughly", "Run several tanks of fresh water through the machine to rinse.", None, None) ],
    Some(["DeLonghi descaler", "Large container"]),
    None)

  const GUIDE_003: InstructionGuide := InstructionGuide(
    "guide-003",
    "Fixing Low Pressure on Gaggia Classic Pro",
    Repair, "Gaggia", "Classic Pro",
    "Troubleshoot and fix common causes of low brew pressure on your Gaggia Classic Pro.",
    Some("https://picsum.photos/seed/guide3/400/300"),
    [ GuideStep("Check Coffee Grind", "Ensure your coffee grind is not too coarse.", None, None),
      GuideStep("Clean Shower Screen", "A clogged shower screen can reduce pressure. Unscrew and clean it.", None, None),
      GuideStep("Inspect Pump (Advanced)", "If other steps fail, the pump may need inspection or replacement. This may require professional help.", None, None) ],
    Some(["Screwdriver", "Brush"]),
    Some(["Unplug the machine before attempting any internal repairs."]))

  const GUIDE_004: InstructionGuide := InstructionGuide(
    "guide-004",
    "Basic Espresso Machine Maintenance",
    Maintenance, "Generic", "Espresso Pro",
    "General maintenance tips applicable to most espresso machines.",
    Some("https://picsum.photos/seed/guide4/400/300"),
    [ GuideStep("Daily Wipe Down", "Wipe the exterior of the machine daily.", None, None),
      GuideStep("Backflush (if applicable)", "Perform a backflush routine if your machine supports it.", None, None),
      GuideStep("Check Water Reservoir", "Regularly clean the water reservoir to prevent buildup.", None, None) ],
    Some(["Microfiber cloth", "Blind basket (for backflushing)"]),
    None)

  const INSTRUCTION_GUIDES: seq<InstructionGuide> := [GUIDE_001, GUIDE_002, GUIDE_003, GUIDE_004]


  const STEP_SYMPTOM_START: TroubleshootStep := Question("symptom-start", "What problem are you experiencing with your coffee machine?", [
    TroubleshootOption("Machine is leaking water", "q-leak-location"),
    TroubleshootOption("No coffee coming out", "q-no-coffee-water"),
    TroubleshootOption("Coffee tastes bad", "q-bad-taste-type"),
    TroubleshootOption("Machine not turning on", "sol-power-check")])

  const STEP_Q_LEAK_LOCATION: TroubleshootStep := Question("q-leak-location", "Where is the machine leaking from?", [
    TroubleshootOption("Group head", "sol-leak-grouphead"),
    TroubleshootOption("Steam wand", "sol-leak-steamwand"),
    TroubleshootOption("Underneath the machine", "sol-leak-underneath")])

  const STEP_SOL_LEAK_GROUPHEAD: TroubleshootStep := Solution("sol-leak-grouphead", "Leaking Group Head",
    "A leaking group head is often due to a worn-out group head gasket. Consider replacing it. You can find general instructions for gasket replacement in many maintenance guides.",
    Some("guide-003"), None)

  const STEP_Q_NO_COFFEE_WATER: TroubleshootStep := Question("q-no-coffee-water", "Is water flowing through the group head when you try to brew (without portafilter)?", [
    TroubleshootOption("Yes, water flows", "sol-no-coffee-grind-tamp"),
    TroubleshootOption("No, water does not flow or very little", "sol-no-coffee-blockage")])

  const STEP_SOL_NO_COFFEE_GRIND_TAMP: TroubleshootStep := Solution("sol-no-coffee-grind-tamp", "Check Grind and Tamp",
    "If water flows but no coffee, your coffee grind might be too fine or you might be tamping too hard, choking the machine. Try a coarser grind or lighter tamp. Refer to your machine's manual for grind settings.",
    Some("guide-003"), None)

  const STEP_SOL_NO_COFFEE_BLOCKAGE: TroubleshootStep := Solution("sol-no-coffee-blockage", "Potential Blockage or Pump Issue",
    "If no water flows, there might be a blockage in the water line, a pump issue, or the machine needs descaling. Try descaling first. If the issue persists, it might require professional help or checking the pump.",
    Some("guide-002"), Some(true))

  const STEP_Q_BAD_TASTE_TYPE: TroubleshootStep := Question("q-bad-taste-type", "How would you describe the bad taste?", [
    TroubleshootOption("Bitter or burnt", "sol-bad-taste-bitter"),
    TroubleshootOption("Sour or acidic", "sol-bad-taste-sour"),
    TroubleshootOption("Metallic or stale", "sol-bad-taste-stale")])

  const STEP_SOL_BAD_TASTE_BITTER: TroubleshootStep := Solution("sol-bad-taste-bitter", "Bitter Coffee",
    "Bitter coffee can be due to over-extraction (grind too fine, brew time too long), water too hot, or stale/over-roasted beans. Also, ensure your machine is clean.",
    Some("guide-001"), None)

  const STEP_SOL_POWER_CHECK: TroubleshootStep := Solution("sol-power-check", "Machine Not Turning On",
    "Ensure the machine is properly plugged into a working power outlet. Check the power cord for damage. If it still doesn't turn on, there might be an internal electrical issue requiring professional service.",
    None, Some(true))

  /** The troubleshooting steps, in the order the source lists them. */
  const TROUBLESHOOT_DATA: seq<TroubleshootStep> := [
    STEP_SYMPTOM_START,
    STEP_Q_LEAK_LOCATION,
    STEP_SOL_LEAK_GROUPHEAD,
    STEP_Q_NO_COFFEE_WATER,
    STEP_SOL_NO_COFFEE_GRIND_TAMP,
    STEP_SOL_NO_COFFEE_BLOCKAGE,
    STEP_Q_BAD_TASTE_TYPE,
    STEP_SOL_BAD_TASTE_BITTER,
    STEP_SOL_POWER_CHECK
  ]
}
