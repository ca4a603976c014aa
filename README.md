# Delayed attack actions — a Dafny model

This project models the core of a Phantom Brigade mod that turns one
equipment activation into a series of timed sub-attacks.

- **The equipment action system** (`scheduler.dfy`, module `EquipmentActions`).
  Once per simulation tick it walks the pending equipment actions. It skips
  an action that is already completed or whose time window does not hold the
  simulation time. Otherwise it marks the action completed first. It then
  runs the checks: part, validity, primary activation subsystem, processed
  activation data, action count and owner. An action that passes them gets
  its part's usage counted when the owner belongs to the player's faction
  ("Phantoms"), using the shared set of parts already activated this turn.
  Finally it schedules `count` sub-attacks. Their start times follow a
  timeline derived from the action's window, the targeted action buffer and
  the subsystem's custom data. The first sub-attack gets the start flag and
  the last of several gets the end flag. Each one gets the first, middle or
  last sound when that sound is present and not empty. Each one gets an
  equal share of the activation heat.
- **The system installer** (`installer.dfy`, module `SystemInstaller`).
  It splices a system into a feature's ordered per-kind system lists. It can
  append the system, insert it before the first system of a given type, or
  replace the first system of a given type.
- **The mod settings** (`settings.dfy`, module `Settings`). The logging
  flags and the test that a logging category is enabled.

The system is a class (`EquipmentActionSystem`) whose fields hold:
- the action group, as a sequence of action values;
- the part usage counters, as a map;
- the shared per-turn set of part ids;
- the sub-attacks it has created, as a sequence.

Its methods are proved against the specification functions `Step` and
`Tick`, and the properties are lemmas about those functions. The installer's
per-kind lists are a `map` field of a `Feature` class that its methods
reassign.

With a single sub-attack the code sets only the start flag and the first
sound, because the `i == 0` branch is tested first
(Code/Systems/EquipmentActionSystem.cs:160-175); `EmittedSchedule` states
this.

## Model

| member | source | states |
|---|---|---|
| `Settings.ModSettings.IsLoggingEnabled` | Code/ModSettings.cs:27 | a logging flag is enabled exactly when every one of its bits is set in the configured logging word |
| `Settings.MaskedIffBits` | Code/ModSettings.cs:27 | the mask test `(logging & flag) == flag` is exactly bit-set inclusion, in both directions |
| `Settings.NoneAlwaysEnabled` | Code/ModSettings.cs:17-27 | `None` is enabled under any settings |
| `Settings.AllEnablesEverything` | Code/ModSettings.cs:18-27 | with `All` (0xF), both `System` and `Attack` are enabled |
| `Settings.NoneDisablesEverything` | Code/ModSettings.cs:17-27 | with `None`, neither `System` nor `Attack` is enabled |
| `Settings.EnabledMonotonic` | Code/ModSettings.cs:27 | switching more bits on never disables a flag that was enabled |
| `SystemInstaller.FirstMatch` | Code/SystemInstaller.cs:93-100 | the scan stops at the first system of the type, with no earlier one of that type, or at the end when there is none |
| `SystemInstaller.InsertedBefore` | Code/SystemInstaller.cs:93-110 | the list after one insertion grows by one; where the installee lands is stated by `InsertedBeforeShape` and `InsertedBeforeAppends` |
| `SystemInstaller.InsertedBeforeAddsOne` | Code/SystemInstaller.cs:93-110 | inserting adds exactly the installee and loses no system: the result is a permutation of the list plus the installee |
| `SystemInstaller.Replaced` | Code/SystemInstaller.cs:180-205 | the list keeps its length, and every position that does not hold the replacement holds the original system; which position changes is stated by `ReplacedShape` |
| `SystemInstaller.InsertedBeforeAll` | Code/SystemInstaller.cs:29-73 | the insertion applied to the list of each implemented kind keeps the set of lists the feature has; the per-list effect is stated by `InsertedBeforeShape` and `InsertingKeepsKinds` |
| `SystemInstaller.ReplacedAll` | Code/SystemInstaller.cs:127-172 | the replacement applied to the list of each implemented kind keeps the set of lists the feature has; the per-list effect is stated by `ReplacedShape` and `ReplacingKeepsKinds` |
| `SystemInstaller.InsertedBeforeShape` | Code/SystemInstaller.cs:93-110 | the installee lands just before the first system of the type (or last); the list grows by one; removing the installee gives back the original list in its order |
| `SystemInstaller.InsertedBeforeAppends` | Code/SystemInstaller.cs:102-110 | with no system of the type, the installee is appended at the end |
| `SystemInstaller.InsertingKeepsKinds` | Code/SystemInstaller.cs:29-125 | inserting a system only into lists of kinds it implements keeps every list holding only systems of its kind, and the installee is then in each of those lists |
| `SystemInstaller.ReplacingKeepsKinds` | Code/SystemInstaller.cs:127-206 | replacing only in lists of kinds the replacement implements keeps every list holding only systems of its kind, and the replacement is in each of those lists that had a system of the type |
| `SystemInstaller.ReplacedShape` | Code/SystemInstaller.cs:180-205 | only the first system of the type is overwritten; the length and every other system are unchanged; with no match the list is unchanged |
| `SystemInstaller.Feature.Add` | Code/SystemInstaller.cs:18 | the system goes at the end of the list of each kind it implements, and the other lists are unchanged |
| `SystemInstaller.InstallAtEnd` | Code/SystemInstaller.cs:16-27 | the installee becomes the new last element of each list of a kind it implements, after all earlier elements, and other lists are unchanged |
| `SystemInstaller.InstallBeforeOfKind` | Code/SystemInstaller.cs:75-125 | a feature without the list of that kind is unchanged; otherwise that list becomes `InsertedBefore` of itself and no other list changes |
| `SystemInstaller.ReplaceOfKind` | Code/SystemInstaller.cs:174-206 | that list becomes `Replaced` of itself and no other list changes |
| `SystemInstaller.InstallBeforeIfKind` | Code/SystemInstaller.cs:34-63 | one type test of the dispatcher: it installs exactly when the installee implements the kind |
| `SystemInstaller.InstallBefore` | Code/SystemInstaller.cs:29-73 | the per-kind insertion is applied once for each interface the installee implements; it reports "not installed" exactly when it implements none |
| `SystemInstaller.ReplaceIfKind` | Code/SystemInstaller.cs:133-162 | one type test of the dispatcher: it replaces exactly when the replacement implements the kind |
| `SystemInstaller.Replace` | Code/SystemInstaller.cs:127-172 | the per-kind replacement is applied once for each interface the replacement implements; it reports "not installed" exactly when it implements none |
| `EquipmentActions.CustomActionStartTime` | Code/Systems/EquipmentActionSystem.cs:186-206 | the fraction is always in [0, 1]; it is the stored value when that is in range and 0 otherwise (no table, no key, above 1 or below 0) |
| `EquipmentActions.SingleActionStart` | Code/Systems/EquipmentActionSystem.cs:208-236 | `end` adds the spacing, `middle` half of it, `percentage` the spacing times the clamped fraction; no data, no table, no key or another keyword keeps the start; with a non-negative spacing the result lies in [start, start + spacing] |
| `EquipmentActions.Resolve` | Code/Systems/EquipmentActionSystem.cs:66-103 | an action is expanded only with its part, its validity, its primary subsystem's processed activation data, a count of at least 1 and an owner; conversely, an action that passes all six checks is expanded; a missing part, a count of 0 or less, or a missing owner aborts |
| `EquipmentActions.ActionTiming` | Code/Systems/EquipmentActionSystem.cs:122-141 | the first start and the spacing of an action's sub-attacks; it has no contract of its own, and its properties are `MultiShotEnds`, `SingleShotInWindow`, `SpacingNonnegative`, `SubAttacksInWindow` and `EvenSpacingWithoutCustomData` |
| `EquipmentActions.SoundAt` | Code/Systems/EquipmentActionSystem.cs:160-179 | a sound is only given when the audio exists and the sound is not empty; the first sub-attack only gets the first sound, and the last of several only the last sound |
| `EquipmentActions.SubAttackAt` | Code/Systems/EquipmentActionSystem.cs:156-180 | one sub-attack record; it has no contract of its own, and its fields by position are stated by `EmittedSchedule` and `SoundsAreAudible` |
| `EquipmentActions.Emitted` | Code/Systems/EquipmentActionSystem.cs:154-182 | the sub-attacks from index `i` on number `count - i` |
| `EquipmentActions.EmittedAt` | Code/Systems/EquipmentActionSystem.cs:154-181 | the accumulated start times form an arithmetic progression: offset `j` starts `j` spacings after the first |
| `EquipmentActions.EmittedSchedule` | Code/Systems/EquipmentActionSystem.cs:153-181 | exactly `count` sub-attacks, indices 0 to `count - 1`, start `i * spacing` after the first, same heat; start flag and first sound only at 0; end flag and last sound only at `count - 1` when `count > 1`; middle sound in between |
| `EquipmentActions.SoundsAreAudible` | Code/Systems/EquipmentActionSystem.cs:160-179 | a sound is only set when the audio exists and the sound is present and not empty |
| `EquipmentActions.SumHeatEmitted` | Code/Systems/EquipmentActionSystem.cs:153-180 | the heat of the sub-attacks from index `i` on sums to `(count - i)` shares |
| `EquipmentActions.HeatAddsUp` | Code/Systems/EquipmentActionSystem.cs:153-180 | the equal shares `activationHeat / count` add up to `activationHeat` |
| `EquipmentActions.MultiShotEnds` | Code/Systems/EquipmentActionSystem.cs:122-141 | with several sub-attacks the first starts at `start + buffer + D * pct` and the last at `start + buffer + D` whatever `pct` is, with `D = duration - 2 * buffer` |
| `EquipmentActions.SingleShotInWindow` | Code/Systems/EquipmentActionSystem.cs:122-136 | a single sub-attack starts between the buffered start and the buffered end of the window when the window is at least two buffers long |
| `EquipmentActions.SpacingNonnegative` | Code/Systems/EquipmentActionSystem.cs:123-141 | in a window at least two buffers long, several sub-attacks are never spaced backwards in time, whatever the configured fraction |
| `EquipmentActions.SubAttacksInWindow` | Code/Systems/EquipmentActionSystem.cs:122-181 | every sub-attack starts between the buffered start and the buffered end of the window when the window is at least two buffers long |
| `EquipmentActions.EvenSpacingWithoutCustomData` | Code/Systems/EquipmentActionSystem.cs:122-124 | without custom data, several sub-attacks start at the buffered start and are `D / (count - 1)` apart |
| `EquipmentActions.MiddleKeywordExample` | Code/Systems/EquipmentActionSystem.cs:122-127 | window 10..20, buffer 1, `middle`: the single sub-attack starts at 15 |
| `EquipmentActions.EvenSpacingExample` | Code/Systems/EquipmentActionSystem.cs:122-181 | window 0..10, buffer 1, four sub-attacks: they start at 1, 11/3, 19/3 and 9 |
| `EquipmentActions.OutOfRangeFractionIgnored` | Code/Systems/EquipmentActionSystem.cs:196-200 | a configured fraction of 1.5 counts as 0 |
| `EquipmentActions.Account` | Code/Systems/EquipmentActionSystem.cs:110-117 | the part is in the per-turn set afterwards and has a usage record; the counter changes are stated by `AccountCounts` |
| `EquipmentActions.AccountCounts` | Code/Systems/EquipmentActionSystem.cs:110-117 | activations become old + 1 (1 without a record); turns grow by 1 exactly when the part was not in the per-turn set; the part is then in the set; nothing else changes |
| `EquipmentActions.TwoActivationsInOneTurn` | Code/Systems/EquipmentActionSystem.cs:110-117 | two activations in one turn count two activations and at most one turn |
| `EquipmentActions.NewTurnCountsAgain` | Code/Systems/EquipmentActionSystem.cs:110-117 | after the per-turn set is cleared, the next activation counts a turn again |
| `EquipmentActions.Expanded` | Code/Systems/EquipmentActionSystem.cs:66-182 | expanding changes no action and only appends sub-attacks, and an action that fails a check changes nothing; what is appended is stated by `ExpandedActionSchedules` |
| `EquipmentActions.Step` | Code/Systems/EquipmentActionSystem.cs:50-182 | one iteration over an action keeps the number of actions |
| `EquipmentActions.StepsUpTo` | Code/Systems/EquipmentActionSystem.cs:48-183 | the first `k` iterations keep the number of actions |
| `EquipmentActions.Tick` | Code/Systems/EquipmentActionSystem.cs:44-184 | one pass keeps the number of actions; `StepsUpToSettles` and `TickIdempotent` state what it does to them |
| `EquipmentActions.SettledActionUntouched` | Code/Systems/EquipmentActionSystem.cs:54-62 | an action already completed or outside its window changes nothing: no sub-attacks, no counter changes |
| `EquipmentActions.FailedCheckOnlyCompletes` | Code/Systems/EquipmentActionSystem.cs:64-103 | an action that fails any check is left completed with no sub-attacks and no counter changes |
| `EquipmentActions.NoActionsSchedulesNothing` | Code/Systems/EquipmentActionSystem.cs:93-98 | a part whose action count is 0 or less schedules no sub-attacks and counts no usage: the counters and the per-turn set are unchanged |
| `EquipmentActions.ExpandedActionSchedules` | Code/Systems/EquipmentActionSystem.cs:105-182 | an action that passes is completed; exactly `count` sub-attacks of that action, numbered from 0, are appended, and they are the sub-attacks `Emitted` gives for the action's timeline and heat share, so `EmittedSchedule`, `HeatAddsUp` and `SubAttacksInWindow` apply to them; usage is counted exactly when the owner is of the player's faction |
| `EquipmentActions.StepsUpToSettles` | Code/Systems/EquipmentActionSystem.cs:48-64 | after the pass every action is completed or outside its window, no action changes except its completed flag, a completed action stays completed, and sub-attacks are only appended |
| `EquipmentActions.SettledStepsChangeNothing` | Code/Systems/EquipmentActionSystem.cs:54-62 | when every action is completed or outside its window, a pass changes nothing |
| `EquipmentActions.TickIdempotent` | Code/Systems/EquipmentActionSystem.cs:54-64 | a second pass at the same time creates no sub-attacks and changes no counters |
| `EquipmentActions.EquipmentActionSystem.Execute` | Code/Systems/EquipmentActionSystem.cs:44-184 | the new state is `Tick` of the old one: every action stepped in order |
| `EquipmentActions.EquipmentActionSystem.ProcessAction` | Code/Systems/EquipmentActionSystem.cs:50-64 | the new state is `Step` of the old one: skip, or mark completed and then expand |
| `EquipmentActions.EquipmentActionSystem.ExpandAction` | Code/Systems/EquipmentActionSystem.cs:66-103 | the checks in the source's order; a failed check returns with nothing else changed, and an action that passes is expanded as `Expanded` states |
| `EquipmentActions.EquipmentActionSystem.ExpandChecked` | Code/Systems/EquipmentActionSystem.cs:105-181 | for an action that passed its checks: usage counted for the player's faction only, then the timeline and the sub-attacks, as `Expanded` states |
| `EquipmentActions.EquipmentActionSystem.TimeLine` | Code/Systems/EquipmentActionSystem.cs:122-151 | the imperative timeline computation gives the first start and the spacing of `ActionTiming` |
| `EquipmentActions.EquipmentActionSystem.CountUsage` | Code/Systems/EquipmentActionSystem.cs:110-117 | the counters and the per-turn set become `Account` of the old ones |
| `EquipmentActions.EquipmentActionSystem.ScheduleSubAttacks` | Code/Systems/EquipmentActionSystem.cs:153-182 | appends exactly the sub-attacks of `Emitted`, accumulating the start time by `spacing` each time |

## Left out

- Host services are parameters of the model, bundled in the `Host` value: the entity lookups, `DataHelperAction.IsValid`, the cached `act_count` and `act_heat` stats, the faction of the linked persistent entity, and the targeted action buffer. Their source is not part of this model.
- `TimeUtility.ContainsTime` is not part of this model; `ContainsTime` takes the window to be closed at its start and open at its end.
- `Mathf.RoundToInt` is not modelled: the part's `actCount` is the stat already rounded to an integer.
- The usage counters `turns` and `activations` are unbounded integers. The source's 32-bit `int` counters would wrap after 2^31 - 1 activations.
- Times and heat are `real`s: no single-precision rounding, NaN or infinity.
- Creating an entity for each sub-attack is modelled as appending a `SubAttack` record to the system's `scheduled` sequence. Entity ids and group notifications are not modelled.
- The `equipmentAction == null` skip is not modelled: actions are values.
- `Debug.Log*` calls and the logging-flag tests that guard them are left out; they never change a result.
- The reflection that fetches the base system's fields and a feature's `_{kind}Systems` lists is not modelled. The fields are class fields, and a missing list field is a kind absent from `Feature.lists`.
- `Systems.Add` is not part of this model. `Feature.Add` takes it to append the system to the list of each kind the system implements.
- `ReplaceOfKind` and `Replace` require the lists they replace in to exist. The source reads the reflected field without a null check and would fail there.
- `LoadSettings` (YAML file input), `Code/Patch.cs`, `Code/Features/PatchFeature.cs` and `EquipmentActionSystem.Install` are left out. They are plumbing that reads files or hooks the game; the only thing `Install` does is call `Replace`.
- The reset of the per-turn activation set at a turn boundary happens outside this code. `NewTurnCountsAgain` states what follows once it is cleared.
