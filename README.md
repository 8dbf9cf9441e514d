# Coffee-machine studio: a verified model

This project models the core of a coffee-machine support web application. The model is written in Dafny.

- **Troubleshooting session.** A scripted session walks a graph of questions and solutions. The state is a current step id, a history stack and an optional selected machine. The user can answer, go back, restart and select a machine. A current id that names no step gives a "step not found" screen.
- **Guide resolver.** A solution links to an instruction guide. The resolver replaces that guide with a better fit for the selected machine, by first-match fallbacks over brand, model and category.
- **Sample content.** The model includes the sample machine list, the guide catalogue and the step graph, as constants. Concrete lemmas prove facts about them:
  - the step graph has dangling targets, so "step not found" is reachable;
  - every path from the entry step ends within two answers, so the graph is acyclic;
  - two resolver outcomes on this catalogue.
- **Guide library.** The brand and model choices, the case-insensitive search and the three selections. Together they filter the catalogue while keeping its order.
- **Chat troubleshooting flow.** The prompt texts built for the language model, and the clean-up of its answer. The model's answer is a parameter.
- **Chat panel.** The message list and the guards on sending and on images. Plus the history handed to the flow, the machine it is told about, and how the placeholder message is settled when the flow answers or fails.
- **IoT monitor.** The usage-alert threshold, which the user types in hours and which is read with `parseInt`. Plus the alert condition, the optimistic on/off toggle and the page's hours-and-minutes formatter.
- **Shared duration formatter.** `formatDuration`, which shows seconds, minutes, or hours and minutes.
- **Mock authentication.** The signed-in user is always one of three mock users. The user's role is remembered in browser storage, and `useAuth` fails outside a provider.
- **Role checks.** The admin dashboard's feature table, filtered by role, and its button labels. Plus the access gate of the service area.

Structure:

- One Dafny module per source file, in a file of the same name.
- Stateful parts are classes whose methods update fields: the session, the library filters, the chat panel, the monitor and the auth provider. Their contracts state the whole new state.
- Pure parts are functions, with lemmas relating them to each other or to reference definitions.
- The JavaScript built-ins the source relies on are modelled once, in `text.dfy` and `seqs.dfy`:
  - `find`, `filter`, `map` and `[...new Set(...)]`;
  - `trim`, `split`, `join`, `includes`, `startsWith`, `substring` and ASCII `toLowerCase`;
  - `parseInt(s, 10)`, with leading white space, an optional sign and the longest run of digits;
  - template-literal number rendering;
  - JavaScript's truncating `%`.

Points where the model follows the code closely:

- **Resolver fallbacks.** The comments in `src/app/troubleshoot/page.tsx` (lines 62, 66 and 70) describe a preference for the specific model, then a generic model, then a generic brand. The code is different:
  - Its first fallback is a single `find` that accepts the selected model or `Generic`, whichever comes first in the catalogue. The specific model is therefore not preferred.
  - Its second fallback matches the `Generic` brand with no model check.
- **Back.** `history.pop()` shortens the history in place before the guard. Back over an empty id therefore drops that id without moving.
- **Skip in the chat.** The chat panel suppresses only a machine with id `skip-selection`. A machine with id `skip`, such as the troubleshooting page's skip sentinel, would be forwarded to the flow as a machine called "Skip Selection". No file of the system renders the chat panel from that page, so this is stated of the panel alone, by `Chat.SkipSentinelForwarded`.

## Model

| member | source | states |
|---|---|---|
| Types.RoleOfValue | src/types/index.ts:50-54 | exactly the three role strings name a role, and the role read back has that string |
| Types.RoleValueRoundTrip | src/types/index.ts:50-54 | each role's string value reads back as that role, and distinct roles have distinct values |
| Types.FindUserByRole | src/hooks/use-auth.tsx:35 | the user found is a listed user with that role; none is found only when no listed user has it |
| Types.MockUsersOnePerRole | src/types/index.ts:65-69 | the mock users hold exactly one user per role, with distinct ids and distinct emails |
| Auth.NormalUser | src/hooks/use-auth.tsx:29 | the Normal lookup finds the first mock user, whose role is Normal |
| Auth.FindUserByStoredRole | src/hooks/use-auth.tsx:25 | a stored string selects the listed user whose role's value equals it, or none when no role has that value |
| Auth.InitialUser | src/hooks/use-auth.tsx:21-32 | the restored user is always one of the mock users |
| Auth.InitialUserRole | src/hooks/use-auth.tsx:21-32 | Admin or Service is restored exactly when its value was stored; everything else restores Normal |
| Auth.LoginUser | src/hooks/use-auth.tsx:34-45 | signing in as a role gives a mock user with exactly that role |
| Auth.LoginSurvivesReload | src/hooks/use-auth.tsx:34-45 | restoring from the stored role gives the user who signed in |
| Auth.LogoutSurvivesReload | src/hooks/use-auth.tsx:47-52 | with nothing stored, a reload restores the Normal user |
| Auth.AuthProvider.constructor | src/hooks/use-auth.tsx:18-19 | a new provider has no user and is loading |
| Auth.AuthProvider.Init | src/hooks/use-auth.tsx:21-32 | the user becomes the restored user of the stored role, and loading ends |
| Auth.AuthProvider.LoginAs | src/hooks/use-auth.tsx:34-45 | the user becomes the mock user of that role, and that role's value is stored |
| Auth.AuthProvider.Logout | src/hooks/use-auth.tsx:47-52 | the user becomes Normal, and the stored role is removed |
| Auth.LoginThenReload | src/hooks/use-auth.tsx:34-45 | signing in and then mounting a new provider over the same storage yields the same user, not loading |
| Auth.UseAuth | src/hooks/use-auth.tsx:61-67 | fails with the fixed message exactly outside a provider, and otherwise returns the provider's context |
| ServiceLayout.Gate | src/app/service/layout.tsx:13-26 | any denial names Service as the required role |
| ServiceLayout.GateWhileLoading | src/app/service/layout.tsx:13-20 | while loading, the loading view is shown whatever the user |
| ServiceLayout.GateOnceLoaded | src/app/service/layout.tsx:22-26 | once loaded, the pages are shown exactly to a signed-in Service user, and everyone else is denied with Service required |
| ServiceLayout.GateOnMockUsers | src/app/service/layout.tsx:22-24 | of the mock users, only `user-serv1` passes |
| Admin.AvailableFeatures | src/app/admin/page.tsx:53 | no features without a user; otherwise exactly the features whose roles include the user's role, an order-preserving sublist |
| Admin.AvailableIsForRole | src/app/admin/page.tsx:53 | for a signed-in user the filter equals a recursive per-role reference filter |
| Admin.NormalSeesNone | src/app/admin/page.tsx:12-48 | the Normal role sees no feature |
| Admin.AdminSeesAllButUsers | src/app/admin/page.tsx:12-48 | the Admin role sees the first four features, all but user management |
| Admin.ServiceSeesAll | src/app/admin/page.tsx:12-48 | the Service role sees all five features |
| Admin.OnlyUserManagementIsServiceOnly | src/app/admin/page.tsx:41-47 | a feature is restricted to Service alone exactly when it is user management |
| Admin.ButtonLabel | src/app/admin/page.tsx:72 | the label starts with "Go to " and the rest holds no blank; a title without a blank gives just "Go to " |
| Admin.LabelOfTitle | src/app/admin/page.tsx:72 | a title whose second blank-separated word is `b` is labelled "Go to " + `b` |
| Admin.ButtonLabels | src/app/admin/page.tsx:72 | the five cards are labelled Instruction, Coffee, Troubleshooting, IoT and Management |
| Instructions.BrandsOf | src/app/instructions/page.tsx:16 | position by position the machines' brands, and exactly the brands some machine has |
| Instructions.ModelsOf | src/app/instructions/page.tsx:26 | position by position the machines' models, and exactly the models some machine has |
| Instructions.MachinesOfBrand | src/app/instructions/page.tsx:28 | exactly the machines of that brand, as an order-preserving sublist |
| Instructions.Brands | src/app/instructions/page.tsx:16 | "All" first, then every brand of some machine once, with no repeats (the order is stated by `BrandsInFirstOccurrenceOrder`) |
| Instructions.AvailableModels | src/app/instructions/page.tsx:24-29 | "All" first; for "All", every model of some machine once, with no repeats (the order is stated by `ModelsInFirstOccurrenceOrder`); for a brand, that brand's machines' models in list order |
| Instructions.BrandsInFirstOccurrenceOrder | src/app/instructions/page.tsx:16 | for every machine list, each brand choice after "All" is a machine's brand, and the choices come in the order of their first occurrence in the list |
| Instructions.ModelsInFirstOccurrenceOrder | src/app/instructions/page.tsx:26 | for every machine list, each model choice after "All" is a machine's model, and the choices come in the order of their first occurrence in the list |
| Instructions.FilteredGuides | src/app/instructions/page.tsx:31-42 | exactly the matching guides, each with its multiplicity, as an order-preserving sublist |
| Instructions.SearchMatches | src/app/instructions/page.tsx:32-35 | the lower-cased term occurs in the lower-cased title, summary or category name (proved about in `EmptySearchMatches` and `SearchIgnoresCase`) |
| Instructions.Matches | src/app/instructions/page.tsx:32-40 | the search matches and each of category, brand and model is "All" or the guide's own value (proved about in `AllWidens`) |
| Instructions.EmptySearchMatches | src/app/instructions/page.tsx:33-35 | the empty search term matches every guide |
| Instructions.NoFiltersListAll | src/app/instructions/page.tsx:31-42 | with nothing chosen, the whole catalogue is listed in order |
| Instructions.ToLowerIdempotent | src/app/instructions/page.tsx:33-35 | lower-casing twice is lower-casing once |
| Instructions.SearchIgnoresCase | src/app/instructions/page.tsx:33-35 | a search term and its lower-cased form match the same guides |
| Instructions.AllWidens | src/app/instructions/page.tsx:36-38 | setting any of the three selections to "All" keeps every match, and for each selection a guide listed under "All" stays listed when the selection is the guide's own value |
| Instructions.BrandsWithoutRepeats | src/app/instructions/page.tsx:16 | without repeated brands, the choices are "All" and the brands in list order |
| Instructions.ModelsWithoutRepeats | src/app/instructions/page.tsx:26 | without repeated models, the "All" choices are "All" and the models in list order |
| Instructions.SampleBrands | src/app/instructions/page.tsx:16 | the sample brand choices are All, Breville, DeLonghi, Gaggia, Generic |
| Instructions.SampleModelsAll | src/app/instructions/page.tsx:26 | the sample model choices for "All" are the four models in list order |
| Instructions.SampleModelsGaggia | src/app/instructions/page.tsx:28 | the model choices for Gaggia are All and Classic Pro |
| Instructions.FilterState.constructor | src/app/instructions/page.tsx:19-22 | the page starts with an empty search and every selection "All" |
| Instructions.FilterState.Visible | src/app/instructions/page.tsx:31-42 | the listed guides are exactly those matching the current filters, each with its multiplicity, in catalogue order |
| Instructions.FilterState.HandleSearchChange | src/app/instructions/page.tsx:44-46 | only the search term changes, to the typed value |
| Instructions.FilterState.SetCategory | src/app/instructions/page.tsx:82 | only the category changes |
| Instructions.FilterState.OnBrandChange | src/app/instructions/page.tsx:55-58 | the brand changes and the model is reset to "All"; the rest is unchanged |
| Instructions.FilterState.SetModel | src/app/instructions/page.tsx:108 | only the model changes |
| Instructions.FilterState.HandleClearFilters | src/app/instructions/page.tsx:48-53 | all four filters return to their initial values |
| Instructions.ClearShowsAll | src/app/instructions/page.tsx:48-53 | after clearing, the whole catalogue is listed |
| Troubleshoot.FindStep | src/app/troubleshoot/page.tsx:21 | the first step with that id, or none exactly when no step has it |
| Troubleshoot.FindMachine | src/app/troubleshoot/page.tsx:48 | the first listed machine with that id, or none exactly when no machine has it |
| Troubleshoot.FindGuide | src/app/troubleshoot/page.tsx:58 | the first catalogue guide with that id, or none exactly when no guide has it |
| Troubleshoot.FindBrandCategory | src/app/troubleshoot/page.tsx:63-67 | the first guide of the selected brand and the category whose model is `Generic` or the selected model |
| Troubleshoot.FindGenericCategory | src/app/troubleshoot/page.tsx:71-74 | the first guide of brand `Generic` and the category, whatever its model |
| Troubleshoot.GetRelevantGuide | src/app/troubleshoot/page.tsx:56-79 | `getRelevantGuide`: a resolved guide is always a catalogue entry; its cases are stated by the `Resolve` lemmas below |
| Troubleshoot.ResolveWithoutId | src/app/troubleshoot/page.tsx:57 | an absent or empty guide id resolves to nothing |
| Troubleshoot.ResolveDirect | src/app/troubleshoot/page.tsx:58-61 | no catalogue match, no selected machine, or a guide for exactly the selected machine: the direct lookup is returned |
| Troubleshoot.ResolvePrefersBrand | src/app/troubleshoot/page.tsx:61-68 | on a mismatch, the first guide passing the brand fallback wins |
| Troubleshoot.ResolveThenGeneric | src/app/troubleshoot/page.tsx:69-75 | with no brand fallback, the first `Generic`-brand guide of the category wins |
| Troubleshoot.ResolveElseCandidate | src/app/troubleshoot/page.tsx:61-78 | with neither fallback available, the candidate itself is returned |
| Troubleshoot.ResolveInCatalogue | src/app/troubleshoot/page.tsx:56-79 | a guide is resolved exactly when the id is non-empty and found; it is a catalogue entry with the candidate's category |
| Troubleshoot.ResolveKeepsSelectedBrand | src/app/troubleshoot/page.tsx:63-68 | when some guide passes the brand fallback, the result has the selected brand |
| Troubleshoot.ScreenFor | src/app/troubleshoot/page.tsx:82-183 | "step not found" exactly when no step has the id; otherwise that question, or that solution with its resolved guide |
| Troubleshoot.AnswerActions | src/app/troubleshoot/page.tsx:153-158 | a question offers an answer for exactly its options' targets, and a solution offers none |
| Troubleshoot.Actions | src/app/troubleshoot/page.tsx:82-195 | the buttons on the page, in page order, always ending with restart (stated in full by `NotFoundOnlyRestart` and `FoundStepActions`) |
| Troubleshoot.NotFoundOnlyRestart | src/app/troubleshoot/page.tsx:82-95 | in the step-not-found state, restart is the only action |
| Troubleshoot.FoundStepActions | src/app/troubleshoot/page.tsx:105-193 | on a step, restart is always offered, back exactly with a non-empty history, and answers exactly for a question's options |
| Troubleshoot.Walk | src/app/troubleshoot/page.tsx:23-26 | the id reached by successive option clicks from a step, or none once a click names no option of a question (stated by `WalkAppend`, `WalkRepeat` and `EndsWithinBoundsWalk`) |
| Troubleshoot.EndsWithin | src/app/troubleshoot/page.tsx:155-158 | every sequence of option clicks from the step stops, at a solution or a missing id, within `k` clicks (used by `EndsWithinBoundsWalk` and `NoCycle`) |
| Troubleshoot.WalkAppend | src/app/troubleshoot/page.tsx:155-158 | following a concatenated answer path is following its halves in turn |
| Troubleshoot.EndsWithinBoundsWalk | src/app/troubleshoot/page.tsx:155-158 | if every path ends within `k` answers, no path longer than `k` can be followed |
| Troubleshoot.WalkRepeat | src/app/troubleshoot/page.tsx:155-158 | a path that returns to its start can be repeated any number of times |
| Troubleshoot.NoCycle | src/app/troubleshoot/page.tsx:155-158 | a graph whose paths all end within `k` answers has no non-empty path back to its start |
| Troubleshoot.Session.constructor | src/app/troubleshoot/page.tsx:16-18 | a session starts at `symptom-start` with an empty history and no machine |
| Troubleshoot.Session.HandleOptionClick | src/app/troubleshoot/page.tsx:23-26 | the old current id is pushed, the option's target becomes current, and the machine is unchanged |
| Troubleshoot.Session.HandleBack | src/app/troubleshoot/page.tsx:28-34 | empty history: nothing changes; otherwise the last id is popped, and becomes current unless it is empty |
| Troubleshoot.Session.HandleRestart | src/app/troubleshoot/page.tsx:36-39 | back to `symptom-start` with an empty history; the machine stays selected |
| Troubleshoot.Session.HandleMachineSelect | src/app/troubleshoot/page.tsx:47-49 | the machine becomes the listed machine with that id, or none for an unknown id |
| Troubleshoot.Session.SkipMachineSelection | src/app/troubleshoot/page.tsx:133 | the sentinel machine `skip`/`Skip`/`Selection` is selected |
| Troubleshoot.Session.ClearMachine | src/app/troubleshoot/page.tsx:142 | the selection is cleared, and the step and history are unchanged |
| Troubleshoot.AnswerThenBack | src/app/troubleshoot/page.tsx:23-34 | back right after an answer restores the previous step and history |
| Troubleshoot.BackOnEmptyHistory | src/app/troubleshoot/page.tsx:28-34 | back on an empty history changes nothing |
| DataFacts.StepIdsUnique | src/lib/data.ts:76-154 | step ids are unique |
| DataFacts.LookupStep | src/lib/data.ts:76-154 | looking up any step's id finds that step |
| DataFacts.EntryIsQuestion | src/lib/data.ts:77-87 | `symptom-start` exists, is the first step and is a question |
| DataFacts.CatalogueIdsUnique | src/lib/data.ts:4-74 | guide ids and machine ids are unique, and `machine-004` is the `Generic` machine |
| DataFacts.LookupGuide | src/lib/data.ts:11-74 | looking up any guide's id finds that guide |
| DataFacts.SolutionGuidesResolve | src/lib/data.ts:99-152 | every solution's guide id names a catalogue guide |
| DataFacts.SteamWandMissing | src/lib/data.ts:94 | `sol-leak-steamwand` names no step |
| DataFacts.UnderneathMissing | src/lib/data.ts:95 | `sol-leak-underneath` names no step |
| DataFacts.SourMissing | src/lib/data.ts:135 | `sol-bad-taste-sour` names no step |
| DataFacts.StaleMissing | src/lib/data.ts:136 | `sol-bad-taste-stale` names no step |
| DataFacts.EntryTargets | src/lib/data.ts:81-86 | the entry question's four targets exist: three questions and the power solution |
| DataFacts.LeakTargets | src/lib/data.ts:92-96 | of the leak question's targets only the group-head solution exists |
| DataFacts.NoCoffeeTargets | src/lib/data.ts:109-112 | both targets of the no-coffee question exist |
| DataFacts.BadTasteTargets | src/lib/data.ts:133-137 | of the bad-taste question's targets only the bitter-coffee solution exists |
| DataFacts.StepNotFoundReachable | src/lib/data.ts:82-94 | answering "leaking" and then "steam wand" reaches an id whose screen is "step not found" |
| DataFacts.FollowUpsEndWithinOne | src/lib/data.ts:88-138 | each of the three follow-up questions ends every path within one answer |
| DataFacts.EntryEndsWithinTwo | src/lib/data.ts:76-154 | every path from `symptom-start` ends at a solution or a missing id within two answers |
| DataFacts.EntryAcyclic | src/lib/data.ts:76-154 | no non-empty answer path leads back to `symptom-start` |
| DataFacts.EntryPathsAtMostTwo | src/lib/data.ts:76-154 | no path of more than two answers can be followed from `symptom-start` |
| DataFacts.ProfessionalHelpSteps | src/lib/data.ts:121-152 | exactly `sol-no-coffee-blockage` and `sol-power-check` advise professional help |
| DataFacts.ResolveForBreville | src/app/troubleshoot/page.tsx:69-75 | with the Breville Barista Express selected, `guide-002` resolves to the generic maintenance guide `guide-004` |
| DataFacts.ResolveForDeLonghi | src/app/troubleshoot/page.tsx:61-78 | with the DeLonghi Magnifica selected, `guide-003` stays `guide-003` |
| DataFacts.ResolveForSkipSentinel | src/app/troubleshoot/page.tsx:133 | the skip sentinel counts as a selection, so `guide-002` resolves to `guide-004` |
| Duration.FormatDuration | src/lib/utils.ts:8-31 | the method's text equals the reference `DurationText` for every input |
| Duration.DurationText | src/lib/utils.ts:8-31 | the independent closed form: seconds below a minute, whole minutes below an hour, otherwise hours and minutes, negative input as zero |
| Duration.NegativeIsZero | src/lib/utils.ts:9 | a negative duration is shown as "0s" |
| Duration.DurationShape | src/lib/utils.ts:22-30 | never empty, no white space at either end, and ends in "s" exactly below one minute, with no "s" at all from one minute on |
| Duration.HoursMinutesInjective | src/lib/utils.ts:15-19 | the text "<h>h <m>m" determines both numbers |
| Duration.DurationUnitsBound | src/lib/utils.ts:10-19 | the shown minutes, or hours and minutes, place the input within that minute, with minutes below 60 |
| Duration.DurationExamples | src/lib/utils.ts:8-31 | 0 gives "0s", 59 "59s", 125 "2m", 3600 "1h 0m" and 3725 "1h 2m" |
| Iot.JsRem | src/app/iot-monitor/page.tsx:98 | JavaScript's remainder: Euclidean for non-negative dividends, non-positive and above `-n` for negative ones, and always differing from the dividend by a multiple of `n`, which fixes its value |
| Iot.FormatOnTime | src/app/iot-monitor/page.tsx:96-100 | the page's hours-and-minutes text, with Math.floor and JavaScript's remainder (stated by the three `FormatOnTime` lemmas) |
| Iot.FormatOnTimeBounds | src/app/iot-monitor/page.tsx:96-100 | a non-negative on-time is shown as "<h>h <m>m" with minutes below 60 and the time within the minute named |
| Iot.FormatOnTimeMatchesShared | src/app/iot-monitor/page.tsx:96-100 | from one hour on it agrees with the shared formatter; between one minute and one hour it adds "0h " |
| Iot.FormatOnTimeNegative | src/app/iot-monitor/page.tsx:96-100 | negative on-times show negative hours and minutes (-1 gives "-1h -1m") |
| Iot.ThresholdAfterInput | src/app/iot-monitor/page.tsx:87-94 | the new threshold is the old one, 0, or a positive whole number of hours; the empty input gives 0 |
| Iot.ThresholdOfHours | src/app/iot-monitor/page.tsx:88-90 | white space, then `n` > 0 in digits, then any non-digit text sets `n` hours in seconds |
| Iot.ThresholdOfSignedHours | src/app/iot-monitor/page.tsx:88-90 | white space, an optional "+", then digits of a positive value (leading zeros allowed), then any non-digit text set that many hours in seconds |
| Iot.ThresholdKeptOnNonPositive | src/app/iot-monitor/page.tsx:88-93 | a number `parseInt` reads as zero or negative keeps the threshold |
| Iot.ThresholdKeptOnText | src/app/iot-monitor/page.tsx:88-93 | non-empty input with no number at its start keeps the threshold |
| Iot.UsageAlert | src/app/iot-monitor/page.tsx:47 | the alert condition: a status is known, notifications are on and the on-time has reached the threshold (stated by `AlertMonotone` and `IotMonitor.Alert`) |
| Iot.AlertMonotone | src/app/iot-monitor/page.tsx:47 | raising the threshold never makes the alert fire; threshold 0 fires for any non-negative on-time |
| Iot.AlertText | src/app/iot-monitor/page.tsx:50 | the notification is the fixed opening "Your coffee machine has been ON for ", the on-time as the page's formatter shows it, and the fixed closing advice |
| Iot.IotMonitor.constructor | src/app/iot-monitor/page.tsx:18-22 | no status, a threshold of 8 hours (28800 s), notifications off |
| Iot.IotMonitor.Alert | src/app/iot-monitor/page.tsx:46-57 | a notification exactly when a status is known, notifications are on and the on-time has reached the threshold |
| Iot.IotMonitor.ReceiveStatus | src/app/iot-monitor/page.tsx:29-34 | the status becomes the fetched one, or none on failure; the rest is unchanged |
| Iot.IotMonitor.HandleTogglePlug | src/app/iot-monitor/page.tsx:60-82 | without a status nothing is sent or changed; otherwise the flipped state is sent, and shown with the on-time kept only when the command succeeded; a failed command leaves the status as it was |
| Iot.IotMonitor.HandleThresholdChange | src/app/iot-monitor/page.tsx:87-94 | the threshold becomes `ThresholdAfterInput` of the typed text; the rest is unchanged |
| Iot.IotMonitor.SetNotificationsEnabled | src/app/iot-monitor/page.tsx:191 | only the notifications switch changes |
| Iot.ToggleTwice | src/app/iot-monitor/page.tsx:60-82 | two successful (or two failed) toggles restore the shown status; after a successful first toggle the second command is the opposite one, after a failed one the same |
| Flow.GuideBlock | src/ai/flows/advanced-troubleshoot-flow.ts:53-54 | a guide's block starts with "Guide ID: " and its id and ends with "\nSummary: ", the summary's first 100 characters and "..." |
| Flow.BlockMentionsId | src/ai/flows/advanced-troubleshoot-flow.ts:53-54 | a guide's block contains "Guide ID: " followed by its id |
| Flow.FormatGuidesShape | src/ai/flows/advanced-troubleshoot-flow.ts:50-55 | no guides give the fixed text; one guide gives its block; each further guide adds "\n---\n" and its block |
| Flow.FormattedGuidesMentionIds | src/ai/flows/advanced-troubleshoot-flow.ts:50-55 | every guide's "Guide ID: <id>" occurs in the guide text |
| Flow.FormatGuidesForPrompt | src/ai/flows/advanced-troubleshoot-flow.ts:50-55 | `formatGuidesForPrompt` (stated by `FormatGuidesShape` and `FormattedGuidesMentionIds`) |
| Flow.HistoryLine | src/ai/flows/advanced-troubleshoot-flow.ts:60 | a line is "User: " or "Assistant: " by role, followed by exactly the turn's text |
| Flow.HistoryLinesRecoverable | src/ai/flows/advanced-troubleshoot-flow.ts:58-61 | without newlines inside turns, the history text splits back into one line per turn, in order |
| Flow.NoHistoryText | src/ai/flows/advanced-troubleshoot-flow.ts:59 | the absent and the empty history both give the fixed text |
| Flow.FormatChatHistoryForPrompt | src/ai/flows/advanced-troubleshoot-flow.ts:58-61 | `formatChatHistoryForPrompt` (stated by `HistoryLinesRecoverable` and `NoHistoryText`) |
| Flow.SelectedMachineText | src/ai/flows/advanced-troubleshoot-flow.ts:118 | the machine text is present exactly when a machine is given |
| Flow.MachineTextRecoverable | src/ai/flows/advanced-troubleshoot-flow.ts:118 | for a brand without blanks, the machine text gives back brand and model |
| Flow.BuildPrompt | src/ai/flows/advanced-troubleshoot-flow.ts:116-126 | message and image are passed through, and the history, machine and guide texts are those of the three formatters |
| Flow.GuideIds | src/ai/flows/advanced-troubleshoot-flow.ts:144 | exactly the catalogue's ids |
| Flow.ValidSuggestions | src/ai/flows/advanced-troubleshoot-flow.ts:144-147 | exactly the suggested ids that name a catalogue guide, each as often as it was suggested, as an order-preserving sublist |
| Flow.Finish | src/ai/flows/advanced-troubleshoot-flow.ts:134-152 | no output gives the apology and no ids; otherwise the answer's text and its valid ids, or none when the ids were not an array |
| Flow.ValidSuggestionsIdempotent | src/ai/flows/advanced-troubleshoot-flow.ts:144-147 | filtering the ids a second time changes nothing |
| Flow.ValidSuggestionsKeepValid | src/ai/flows/advanced-troubleshoot-flow.ts:144-147 | ids that all name guides are kept unchanged |
| Chat.BlankTextNotSent | src/app/troubleshoot/components/advanced-troubleshoot-chat.tsx:98 | white-space-only text is not sent without an image, but is sent with one |
| Chat.ShouldSend | src/app/troubleshoot/components/advanced-troubleshoot-chat.tsx:98 | the send guard: the trimmed text is non-empty or a file is attached (stated by `BlankTextNotSent`) |
| Chat.ImageTooLarge | src/app/troubleshoot/components/advanced-troubleshoot-chat.tsx:72 | a file is refused above 4 MiB (4 * 1024 * 1024 bytes) |
| Chat.ImageForBackend | src/app/troubleshoot/components/advanced-troubleshoot-chat.tsx:108-110 | the preview is forwarded exactly when it starts with "data:image" |
| Chat.HistoryText | src/app/troubleshoot/components/advanced-troubleshoot-chat.tsx:136 | never empty: the message's own non-empty text, otherwise one of the two markers (which one is stated by `HistoryTextMarker`) |
| Chat.HistoryTextMarker | src/app/troubleshoot/components/advanced-troubleshoot-chat.tsx:136 | without text, the image marker exactly for a user message with an image, else the missing-content marker |
| Chat.ToEntry | src/app/troubleshoot/components/advanced-troubleshoot-chat.tsx:133-137 | a message as a history entry: its role and its history text |
| Chat.BuildHistory | src/app/troubleshoot/components/advanced-troubleshoot-chat.tsx:131-137 | the history is no longer than the message list |
| Chat.BuildHistoryFilterMap | src/app/troubleshoot/components/advanced-troubleshoot-chat.tsx:131-137 | for every message list and id, the history is the list filtered to the messages without that id, each mapped to its entry, in order |
| Chat.BuildHistoryMap | src/app/troubleshoot/components/advanced-troubleshoot-chat.tsx:131-137 | when no message has the excluded id, the history is every message's entry in order |
| Chat.HistoryExcludesCurrent | src/app/troubleshoot/components/advanced-troubleshoot-chat.tsx:130-137 | the current user message is never part of its own history; the earlier messages all are |
| Chat.GuidesForIds | src/app/troubleshoot/components/advanced-troubleshoot-chat.tsx:148-151 | every link carries a catalogue guide's id and title, and there are no more links than ids |
| Chat.GuidesForIdsKeepsIds | src/app/troubleshoot/components/advanced-troubleshoot-chat.tsx:148-151 | the links' ids are exactly the ids naming some guide, in order |
| Chat.FlowSuggestionsAllShown | src/app/troubleshoot/components/advanced-troubleshoot-chat.tsx:148-151 | every id the flow keeps becomes a link |
| Chat.MachineForFlow | src/app/troubleshoot/components/advanced-troubleshoot-chat.tsx:143 | brand and model are forwarded exactly for a machine whose id is not "skip-selection" |
| Chat.Greeting | src/app/troubleshoot/components/advanced-troubleshoot-chat.tsx:54-59 | the general greeting without a forwarded machine; otherwise a greeting naming brand and model |
| Chat.ErrorText | src/app/troubleshoot/components/advanced-troubleshoot-chat.tsx:161-172 | the fixed prefix, then the error's own message if it has one, else the default message |
| Chat.Settle | src/app/troubleshoot/components/advanced-troubleshoot-chat.tsx:153-174 | id and image kept, loading ended; an answer sets its text and guide links; a failure sets the error text and the assistant role |
| Chat.ReplaceById | src/app/troubleshoot/components/advanced-troubleshoot-chat.tsx:153-157 | same length; messages with the id are settled and all others are unchanged |
| Chat.ReplaceKeepsIds | src/app/troubleshoot/components/advanced-troubleshoot-chat.tsx:170-174 | replacing keeps every message's id |
| Chat.ReplaceLast | src/app/troubleshoot/components/advanced-troubleshoot-chat.tsx:153-157 | when only the last message has the id, exactly it is settled |
| Chat.ChatPanel.constructor | src/app/troubleshoot/components/advanced-troubleshoot-chat.tsx:33-37 | an empty panel, not loading |
| Chat.ChatPanel.Greet | src/app/troubleshoot/components/advanced-troubleshoot-chat.tsx:50-66 | only an empty panel gets the greeting message |
| Chat.ChatPanel.SetInputText | src/app/troubleshoot/components/advanced-troubleshoot-chat.tsx:263 | only the input text changes |
| Chat.ChatPanel.HandleImageChange | src/app/troubleshoot/components/advanced-troubleshoot-chat.tsx:69-87 | a file over 4 MiB is refused and nothing changes; otherwise it is attached |
| Chat.ChatPanel.ReceivePreview | src/app/troubleshoot/components/advanced-troubleshoot-chat.tsx:82-84 | only the preview changes, to the data URI read |
| Chat.ChatPanel.RemoveImage | src/app/troubleshoot/components/advanced-troubleshoot-chat.tsx:89-95 | file and preview are cleared |
| Chat.ChatPanel.BeginSend | src/app/troubleshoot/components/advanced-troubleshoot-chat.tsx:97-144 | blocked by the guard, nothing changes; otherwise the user message and a loading placeholder are appended, inputs cleared, and the flow input built |
| Chat.ChatPanel.FinishSend | src/app/troubleshoot/components/advanced-troubleshoot-chat.tsx:146-177 | the placeholder with that id is settled by the outcome, and loading ends |
| Chat.Exchange | src/app/troubleshoot/components/advanced-troubleshoot-chat.tsx:97-177 | a send grows the list by the user message and the settled reply, and the flow's history is exactly the earlier messages |
| Chat.SkipSentinelForwarded | src/app/troubleshoot/components/advanced-troubleshoot-chat.tsx:143 | a machine with id `skip` is forwarded under its brand and model; only id "skip-selection" is suppressed |
| Text.ParseIntOfSignedDigits | src/app/iot-monitor/page.tsx:88 | `parseInt` skips white space, takes an optional sign and reads the digits up to the first non-digit |
| Text.ParseIntWithoutDigits | src/app/iot-monitor/page.tsx:88-89 | with no digit after white space and sign, `parseInt` gives NaN |
| Text.ParseIntOfNatToString | src/app/iot-monitor/page.tsx:88 | `parseInt` reads back a rendered number |
| Text.ParseIntDecimal | src/app/iot-monitor/page.tsx:88 | `parseInt(s, 10)` with NaN as none (stated by the three `ParseInt` lemmas) |
| Text.TrimSpec | src/lib/utils.ts:28-30 | the trimmed text has no white space at either end, occurs in the input, and is empty exactly for all-white-space input |
| Text.Trim | src/lib/utils.ts:28-30 | `String.prototype.trim` over the JavaScript white-space and line-terminator characters (stated by `TrimSpec`) |
| Text.IncludesSpec | src/app/instructions/page.tsx:33-35 | `includes` holds exactly when the text occurs at some position |
| Text.JoinSplit | src/app/admin/page.tsx:72 | joining a split's pieces with the separator gives the string back |
| Seqs.Filter | src/app/admin/page.tsx:53 | exactly the elements passing the test, with their multiplicities, as an order-preserving sublist |
| Seqs.Distinct | src/app/instructions/page.tsx:16 | every element once, in order of first occurrence |
| Seqs.DistinctOfDistinct | src/app/instructions/page.tsx:16 | a sequence without repeats is its own deduplication |

## Left out

- Rendering, routing, links, images, icons, toasts, scrolling and the static pages are not modelled. They do not change the state modelled here.
- The language-model call is not modelled because it is a foreign, nondeterministic service. `Flow.Finish` takes its output, or its absence, as a parameter, and the chat's `Outcome` is either the flow's result or a failure with an optional message.
- The chat panel leaves out the browser plumbing:
  - The file reader and the file-input reset are not modelled; `Chat.ChatPanel.ReceivePreview` stands for the reader's callback.
  - An attached file is represented by its size.
  - The clock-derived message ids are parameters.
- The chat error path's console log and toast are not modelled; only the placeholder update is.
- Browser storage is not modelled as such. It is the auth provider's `storedRole` field, and a reload is a new provider over that field.
- The smart-plug service, the status fetch and its 30-second polling are not modelled, because they are asynchronous I/O. Also left out: the loading and error flags, the error message and toasts of a failed toggle, and the re-fetch after a toggle. Whether the command succeeded is a parameter of `Iot.IotMonitor.HandleTogglePlug`. `Iot.IotMonitor.ReceiveStatus` stands for a finished fetch.
- The on-time percentage is not modelled because it is floating-point arithmetic.
- Non-integer numbers of seconds are left out. Durations and on-times are integers.
- `cn` is left out because it only wraps two styling libraries.
- Lower-casing covers ASCII letters only, not full Unicode case mapping.
- The IoT status enums and the monitored-machine type are declared but unused, so they are not modelled.
- The `createdAt` dates of the mock users are left out because no modelled operation reads them.
- The admin step-tree view in `src/app/admin/(routes)/troubleshooting/components/solution-tree-view.tsx` renders the step graph and detects cycles with a set of visited ids. It is outside the modelled core and not part of this model. `Troubleshoot.NoCycle` and `DataFacts.EntryAcyclic` state acyclicity for the sample graph instead.
- Step-graph validation and dependency-checked insertion or deletion of content are not part of this model. No file of the system implements them.
- Iot.ThresholdKeptOnText: stated only for input whose first character after the white space and sign is not itself a sign. Input such as "+-3" is not covered, although it also keeps the threshold.
- Chat.BuildHistory: its own contract only bounds the length of the history. That the history is the filtered and mapped message list, for every input, is stated by `Chat.BuildHistoryFilterMap`.
- Instructions.Brands: its own contract does not state the order of the choices, because on the constant sample data a first-occurrence quantifier in the function's contract is too costly for the verifier. `Instructions.BrandsInFirstOccurrenceOrder` states the order for every machine list.
- Instructions.AvailableModels: for "All", its own contract does not state the order of the choices, for the same reason. `Instructions.ModelsInFirstOccurrenceOrder` states it for every machine list.
- Chat.HistoryText: its own contract says only that missing text gives one of the two markers. Which marker applies is stated by `Chat.HistoryTextMarker`, kept apart so that the exchange proofs stay within the verifier's resource limit.
- Chat.GuidesForIds: its own contract bounds the number of links and ties each link to a guide; the order and exact ids are stated separately by `Chat.GuidesForIdsKeepsIds`.
- Troubleshoot.ScreenFor: gives the solution view for every solution. In the source the solution view renders `AlertTriangle` for solutions that advise professional help (`src/app/troubleshoot/page.tsx:173`), but line 9 does not import it. As written, the build fails on that name, or the page throws a ReferenceError on showing `sol-no-coffee-blockage` or `sol-power-check`. The model gives the screen the code evidently intends.
- Chat.ChatPanel.BeginSend: does not require that no answer is pending. The source stops a second send only in the markup: the Enter handler and the disabled controls at `advanced-troubleshoot-chat.tsx:264-288`. A `BeginSend` while loading is therefore allowed by the model.
- Text.ParseIntDecimal: returns an unbounded integer. `parseInt` returns a double, which rounds for more than 2^53 and becomes Infinity for very long digit strings, so for such input `hours * 3600` in `Iot.ThresholdAfterInput` is not exact in the source.
- Text.Prefix: counts characters (code points), while `substring(0, 100)` in `Flow.GuideBlock` counts UTF-16 code units. The two differ for summaries with characters outside the Basic Multilingual Plane.
